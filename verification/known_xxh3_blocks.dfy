/** The self-test's hash of 2048 bytes without a seed: two blocks of sixteen stripes, with the scramble
    between them, worked out lane by lane. */
module KnownXxh3Blocks {
  import opened Words
  import opened Bits
  import opened LongMultiply
  import opened Xxh3Kernel
  import opened Xxh3Short
  import opened Xxh3Hash
  import opened Xxh3LongReads
  import opened KnownWords
  import opened KnownXxh3
  import opened KnownXxh3Long

  lemma ScrambleIs(acc: Acc, secret: seq<byte>, sp: nat, j: nat, x: u64, hi: nat, lo: nat, y: u64, k: u64, z: u64,
        q: nat, r: u64)
    requires j < ACC_NB && sp + STRIPE_LEN <= |secret| && acc[j] == x && x == hi * 0x8000_0000_0000 + lo
          && lo < 0x8000_0000_0000
    requires Xor(x, hi) == y && ReadLE64(secret, sp + 8 * j) == k && Xor(y, k) == z
          && z * 0x9E3779B1 == q * 0x1_0000_0000_0000_0000 + r
    ensures ScrambleAcc(acc, Window(secret, sp))[j] == r
  {
    hide Xor, ReadLE64, Window, Pow2, Mul64, Shr64;
    ScrambledLane(acc, Window(secret, sp), j);
    WindowWord(secret, sp, 8 * j);
    assert Pow2(47) == 0x8000_0000_0000 by { PowersOfTwo(); }
    Shifted(x, 47, hi, lo);
    Multiplied(z, PRIME32_1, q, r);
  }

  lemma Buffer8(n: nat)
    ensures Generator(464) == 0x9DA1347C540598F1
    ensures n >= 416 ==> ReadLE64(TestBuffer(n), 408) == 0xB68DCF9153A7A776
    ensures n >= 424 ==> ReadLE64(TestBuffer(n), 416) == 0xF2062F367E396C16
    ensures n >= 432 ==> ReadLE64(TestBuffer(n), 424) == 0x76F486C80F8E1E23
    ensures n >= 440 ==> ReadLE64(TestBuffer(n), 432) == 0x278CFC3664F68E61
    ensures n >= 448 ==> ReadLE64(TestBuffer(n), 440) == 0x3F58CEFECB12FAA1
    ensures n >= 456 ==> ReadLE64(TestBuffer(n), 448) == 0xE781C07D6C886781
    ensures n >= 464 ==> ReadLE64(TestBuffer(n), 456) == 0x51D9C90E548EC0F8
  {
    hide Generator, TestBuffer, ReadLE64;
    Buffer7(n);
    Made(n, 408, 0x76C52B9CB3B58A11, 0xA7A6723DCC89755D, 0xA74DF5E32BB00639, 0x53157AD2482F6765, 0x919FB0D78C68A4A1,
          0xCF0FA96AAC54B6AD, 0x8DD7C304549C1F49, 0xB610BE306FAFD535, 0x16834FA082BB4031);
    Made(n, 416, 0x16834FA082BB4031, 0x6CC057AE23C404FD, 0x39CD669764256159, 0x7E0FAFD44119D805, 0x36173BAF2546ECC1,
          0x2F710E6E190BB04D, 0x6B02CF6DC3BDC69, 0xF2AAD7CD6A463FD5, 0x23A8CEEA38963A51);
    Made(n, 424, 0x23A8CEEA38963A51, 0x1E7C60DC521D089D, 0x8EB7D1D19BE8A079, 0xFE7140B99D2DCA5, 0xC82F7E0B5FB4B8E1,
          0x8674514BEBF65DED, 0xF4263ED2B65DBD89, 0x76A3C63292F27E75, 0x61EEAE0025BEF871);
    Made(n, 432, 0x61EEAE0025BEF871, 0x8E3F005F3EF3003D, 0xF65C637F53064399, 0x648FCA4B363CF545, 0x36F06B4FF8728901,
          0xFCBDFA18801B3F8D, 0x8C316B18A69642A9, 0x279B64704F7F1115, 0xA1ADAA9FA3BDFA91);
    Made(n, 440, 0xA1ADAA9FA3BDFA91, 0xFAD5BAF46F746BDD, 0x127BAD49151ACAB9, 0xCBFE01BAF88AA1E5, 0xFE98D5CBDE50DD21,
          0xCE0A32A36350D52D, 0x5878A36C8D09EBC9, 0x3FCE50A7610677B5, 0x81453D05772BC0B1);
    Made(n, 448, 0x81453D05772BC0B1, 0x6791EFB2009FCB7D, 0x88C1D75D2B52B5D9, 0x6C7E2BEFCB3E6285, 0x7D265FDAB4303541,
          0xC09D5C7FF03D9ECD, 0x819F22D6386D38E9, 0xE7933D708DF33255, 0xF8D8482A71B0CAD1);
    Made(n, 456, 0xF8D8482A71B0CAD1, 0xC018773FE1439F1D, 0x8E6EB8B88E6A84F9, 0x5424120CEB2AB725, 0xE31519E93011161,
          0xC94C716928581C6D, 0xD9DB6CC47804AA09, 0x51E958C18BFFC0F5, 0x9DA1347C540598F1);
  }

  lemma Buffer9(n: nat)
    ensures Generator(520) == 0xCBE2525112BAABD1
    ensures n >= 472 ==> ReadLE64(TestBuffer(n), 464) == 0xAC0B0A693590219D
    ensures n >= 480 ==> ReadLE64(TestBuffer(n), 472) == 0x9DFE459F4B4471A1
    ensures n >= 488 ==> ReadLE64(TestBuffer(n), 480) == 0xF15D6C771B1E1F98
    ensures n >= 496 ==> ReadLE64(TestBuffer(n), 488) == 0x19576BFE642C7EFB
    ensures n >= 504 ==> ReadLE64(TestBuffer(n), 496) == 0x1A3609D0E4DDCD68
    ensures n >= 512 ==> ReadLE64(TestBuffer(n), 504) == 0x94DE607D7629960
    ensures n >= 520 ==> ReadLE64(TestBuffer(n), 512) == 0x83D9422F9B8EF786
  {
    hide Generator, TestBuffer, ReadLE64;
    Buffer8(n);
    Made(n, 464, 0x9DA1347C540598F1, 0x21EBB4004BFE66BD, 0x90AAABB618AEB819, 0x35A9CB1671721FC5, 0x698E135A0BC3F181,
          0xAA24268CDE6CE0D, 0xBB6CE1A6DA4BF29, 0xAC9B28F72A36A395, 0xA1B6419AEFF2AB11);
    Made(n, 472, 0xA1B6419AEFF2AB11, 0x71540A0F813EA25D, 0x44A22CABF7FBCF39, 0x4B8FFA9D1D871C65, 0x9F27AD72698955A1,
          0x45965729BE0033AD, 0xFE57F68F1FB1F849, 0x9DEF75ACBAF25A35, 0x98040CA18A508131);
    Made(n, 480, 0x98040CA18A508131, 0x1F98B302C142D1FD, 0x1E18A95F5FBE4A59, 0x1B59C3EB5F2C2D05, 0x777070223371BDC1,
          0x6C537BDD8A8ACD4D, 0x5D9CA9A74B20D569, 0xF1E2A708BDDD64D5, 0xFBCB99847D079B51);
    Made(n, 488, 0xFBCB99847D079B51, 0x7EEC7E4E8619759D, 0x2C9861167AF2A979, 0x64EC82DBA073D1A5, 0xFE1BC5E3EEADA9E1,
          0x6B62F91D543D1AED, 0x57A90F917575D689, 0x19427B26C9F24375, 0x68D69F0B19107971);
    Made(n, 496, 0x68D69F0B19107971, 0xCDFB4C3BFDA10D3D, 0xDD1DCE109E256C99, 0xE481A07FCFC08A45, 0xD09A349D207D9A01,
          0x969FE2DE49D9C8D, 0x361AD72C3EC57BA9, 0x1A180646B77B7615, 0x601C65EDC8739B91);
    Made(n, 504, 0x601C65EDC8739B91, 0x9919EE55C38818DD, 0x62FCCA2CB97313B9, 0xD7CBBEC229C4D6E5, 0x78AB29190320E21,
          0xE634F30F0802D22D, 0x4DDF237EF3B444C9, 0x964A7690A137CB5, 0x867F3CA0704981B1);
    Made(n, 512, 0x867F3CA0704981B1, 0xF7AE9533DB4D187D, 0x8E2879860A881ED9, 0x9B03FB2743833785, 0x2F06B526C92B8641,
          0x424434BE27933BCD, 0xD96827EC5F76B1E9, 0x83A9F0009AA4D755, 0xCBE2525112BAABD1);
  }

  lemma Buffer10(n: nat)
    ensures Generator(576) == 0x1B4BDC70D53842B1
    ensures n >= 528 ==> ReadLE64(TestBuffer(n), 520) == 0x7F756222ADCAA5CB
    ensures n >= 536 ==> ReadLE64(TestBuffer(n), 528) == 0x7548ECAF1AEF405B
    ensures n >= 544 ==> ReadLE64(TestBuffer(n), 536) == 0x2A4D0005C4B5226B
    ensures n >= 552 ==> ReadLE64(TestBuffer(n), 544) == 0xD45CBB6E8D8B7D09
    ensures n >= 560 ==> ReadLE64(TestBuffer(n), 552) == 0x16AFAC240DA1B2A6
    ensures n >= 568 ==> ReadLE64(TestBuffer(n), 560) == 0x91070DFDBA6E7FF3
    ensures n >= 576 ==> ReadLE64(TestBuffer(n), 568) == 0x4841DE83BBF163D2
  {
    hide Generator, TestBuffer, ReadLE64;
    Buffer9(n);
    Made(n, 520, 0xCBE2525112BAABD1, 0xA5F0108EEA3E8C1D, 0xCAE0FECF0EA10DF9, 0xAD1C2DD9544E2C25, 0x22DCC07FDCDA8261,
          0x62232B142345596D, 0x75CE5F67DDD14309, 0x7FD67261816A05F5, 0x5BDDBCA2B0FF99F1);
    Made(n, 528, 0x5BDDBCA2B0FF99F1, 0x4089E382B17AF3BD, 0xEF771632B48A6119, 0x1A63CF24BFC834C5, 0xAF7BBFF964BF8281,
          0xECB9B4A66BDFAB0D, 0x48ED73F4AD187829, 0x7555FF953FED8895, 0x6B0E7CAC6D60CC11);
    Made(n, 536, 0x6B0E7CAC6D60CC11, 0x227E8BE7C7F0CF5D, 0xB539EC83CEA09839, 0xC41A928DDFE3D165, 0x504108DC46B06A1,
          0x3492135CF8B0AD, 0x4DEA34B78030D149, 0x2AFF123C2B09DF35, 0x92E88C4ED36C231);
    Made(n, 544, 0x92E88C4ED36C231, 0x7DBC58AC945E9EFD, 0x8B22E182C4D03359, 0x8DC9CBA80EE38205, 0x6EADE729AB7D8EC1,
          0xBB47C721D6F6EA4D, 0x5C6961E2508ECE69, 0xD4BCF92414E989D5, 0xA60931A1FAE9FC51);
    Made(n, 552, 0xA60931A1FAE9FC51, 0xB2B7C8158752E29D, 0xA1515D018695B279, 0xD6055D5F159C6A5, 0x24FB9DF8D7A79AE1,
          0xAC21D51C1910D7ED, 0xAF3A9EC27036EF89, 0x16FAC93C37070875, 0xF3C6AA5467F2FA71);
    Made(n, 560, 0xF3C6AA5467F2FA71, 0x7FF4A3CC952C1A3D, 0x6E4A77ADBCFD9599, 0xBA07FD1B00291F45, 0xFD0574B316A9AB01,
          0xD9C3ECDDB4CF98D, 0x7FB8338DBBDB4A9, 0x914A338E5C2CDB15, 0xD2320BA82EDA3C91);
    Made(n, 568, 0xD2320BA82EDA3C91, 0x6328EDA7F018C5DD, 0xF118F1493CA45CB9, 0xBB134B2652840BE5, 0x831770F188543F21,
          0xDEC0F38DA881CF2D, 0x41608EE4CC479DC9, 0x485F10E54A7581B5, 0x1B4BDC70D53842B1);
  }

  lemma Buffer11(n: nat)
    ensures Generator(632) == 0x5634CF7D97F1DD91
    ensures n >= 584 ==> ReadLE64(TestBuffer(n), 576) == 0xA7193FF3E231741B
    ensures n >= 592 ==> ReadLE64(TestBuffer(n), 584) == 0x936020AE5B4EF250
    ensures n >= 600 ==> ReadLE64(TestBuffer(n), 592) == 0xEC987752A57E0CD5
    ensures n >= 608 ==> ReadLE64(TestBuffer(n), 600) == 0x4AE5CE7520D2CD5
    ensures n >= 616 ==> ReadLE64(TestBuffer(n), 608) == 0xBA5CB4CDAEFBEF84
    ensures n >= 624 ==> ReadLE64(TestBuffer(n), 616) == 0xE6A2A3D02B98CEC8
    ensures n >= 632 ==> ReadLE64(TestBuffer(n), 624) == 0x7FB26A06CCB96E25
  {
    hide Generator, TestBuffer, ReadLE64;
    Buffer10(n);
    Made(n, 576, 0x1B4BDC70D53842B1, 0x74862D100217657D, 0x313DC718B7B687D9, 0xE24B20BEA7ED0C85, 0xF3DD4C942087D741,
          0x3FD10BB97855D8CD, 0x1908A94889892AE9, 0xA790C9C86D4B7C55, 0x50F3F94A0DB58CD1);
    Made(n, 584, 0x50F3F94A0DB58CD1, 0xF22AC9ECA6F6791D, 0x4EC4B650AFF096F9, 0x5BE0A8B7B236A125, 0xAEF7C13F6934F361,
          0x204BAE0E893F966D, 0x6027E3307BC6DC09, 0x9379B674BF694AF5, 0xD57CA7549A0A9AF1);
    Made(n, 592, 0xD57CA7549A0A9AF1, 0xCB9DF01A65480BD, 0x7E260F48A89F0A19, 0xA56DF6989F8349C5, 0x521600FA845C1381,
          0x773802447A85880D, 0x989356A47DD53129, 0xEC56277AF4D96D95, 0xD5D1AE776CFFED11);
    Made(n, 600, 0xD5D1AE776CFFED11, 0x2C104AA26D9FFC5D, 0xDCC773C989E6139, 0x5252081BE4458665, 0xE711CCF56E0DB7A1,
          0x5CDEC253A63E2DAD, 0xAEEE4BAB6F18AA49, 0x444FCAAE4F66435, 0x844D88AD0C6E0331);
    Made(n, 608, 0x844D88AD0C6E0331, 0xEFF5C1A50A176BFD, 0xFB7D8F649C5B1C59, 0xAE67E5B0453FD705, 0xCD185C7F7E6A5FC1,
          0xB46348CEBB50074D, 0x5C8C31290585C769, 0xBAD684F4346AAED5, 0xC8A004E5333D5D51);
    Made(n, 616, 0xC8A004E5333D5D51, 0xCEF4457C62C94F9D, 0x986BF12AE7D1BB79, 0x2B3043232184BBA5, 0xD02227362BA28BE1,
          0xA3FCE7B7977194ED, 0xA22F821DDFA10889, 0xE63FD6E43F30CD75, 0x25112D02B3667B71);
    Made(n, 624, 0x25112D02B3667B71, 0x6E239B61B294273D, 0xB9C38847F88EBE99, 0xCC15469BFC76B445, 0x6E3A6740BF6BC01,
          0x6A23E0376129568D, 0xB2C75891D67EEDA9, 0x7F64E66942934015, 0x5634CF7D97F1DD91);
  }

  lemma Buffer12(n: nat)
    ensures Generator(688) == 0x160646ED9C6AFC71
    ensures n >= 640 ==> ReadLE64(TestBuffer(n), 632) == 0x4F2109AA4C8B5756
    ensures n >= 648 ==> ReadLE64(TestBuffer(n), 640) == 0x3607D0A94B90C34A
    ensures n >= 656 ==> ReadLE64(TestBuffer(n), 648) == 0x509FE3279E1154CF
    ensures n >= 664 ==> ReadLE64(TestBuffer(n), 656) == 0xA78871D494C2583F
    ensures n >= 672 ==> ReadLE64(TestBuffer(n), 664) == 0xDD215D1E8FD74E81
    ensures n >= 680 ==> ReadLE64(TestBuffer(n), 672) == 0xB694D11F5A6D01C2
    ensures n >= 688 ==> ReadLE64(TestBuffer(n), 680) == 0x8E6E177D375E8859
  {
    hide Generator, TestBuffer, ReadLE64;
    Buffer11(n);
    Made(n, 632, 0x5634CF7D97F1DD91, 0x57253F75422672DD, 0x8BF30C8D07AEA5B9, 0x4C0D011147C840E5, 0xAA7D430817B77021,
          0x98D80A1E1CDCC2D, 0x21D038708FC3F6C9, 0x4F8E5182C72C86B5, 0x4A92BE3186F803B1);
    Made(n, 640, 0x4A92BE3186F803B1, 0xC3BBCBBE61FEB27D, 0x90323624BBDDF0D9, 0x4B9CA85E6D7BE185, 0xA984E53D2B452841,
          0xD084BB2C1F8575CD, 0x7AC85A04FA4A3E9, 0x365D32874AE72155, 0xCF21A4E063A16DD1);
    Made(n, 648, 0xCF21A4E063A16DD1, 0x54CAE7F2A46B661D, 0x11B040121B591FF9, 0x9EB0C82319E41625, 0x2713FE39C9106461,
          0xE3BBF4BE3746D36D, 0x9F4A219B0AE57509, 0x503B3BA72AFD8FF5, 0x3F7A4AF130269BF1);
    Made(n, 656, 0x3F7A4AF130269BF1, 0x581693EC578B0DBD, 0xC2D565B5BDECB319, 0x94F96393C5A35EC5, 0xD45562C01B99A481,
          0x7155D84876D8650D, 0x8860D5D1B8DAEA29, 0xA773F454CDFA5295, 0x81A324F32FD00E11);
    Made(n, 664, 0x81A324F32FD00E11, 0x4E3DFBB83F4C295D, 0xD7F841213EF52A39, 0x8F1067637FAC3B65, 0x1E22F056377168A1,
          0x5D49A803B6D0AAAD, 0x21A47921E5698349, 0xDD29263A0DB7E935, 0xC2044B6D48F64431);
    Made(n, 672, 0xC2044B6D48F64431, 0x12301228F6D38FD, 0x6D394900EF5F0559, 0x5AB8CFEEF7412C05, 0x1F9FB6DE9D3830C1,
          0xD1A7D304F496244D, 0x941227A58305C069, 0xB6C45C62E160D3D5, 0x59BE3D81A701BE51);
    Made(n, 680, 0x59BE3D81A701BE51, 0x88A843AB257CBC9D, 0x5EC725E3C7A6C479, 0x37918CD0C5F4B0A5, 0x7DE441A8FB9E7CE1,
          0x1751828C2C5F51ED, 0x6E2D6D24FCB42189, 0x8E35CC45476F9275, 0x160646ED9C6AFC71);
  }

  lemma Buffer13(n: nat)
    ensures Generator(744) == 0x7619633BD7371F51
    ensures n >= 696 ==> ReadLE64(TestBuffer(n), 688) == 0xE7EA70CF7C105516
    ensures n >= 704 ==> ReadLE64(TestBuffer(n), 696) == 0xA02830E042A52950
    ensures n >= 712 ==> ReadLE64(TestBuffer(n), 704) == 0x707368B159D53D1E
    ensures n >= 720 ==> ReadLE64(TestBuffer(n), 712) == 0xAE1346632A3DD322
    ensures n >= 728 ==> ReadLE64(TestBuffer(n), 720) == 0x56DDA19805351EDB
    ensures n >= 736 ==> ReadLE64(TestBuffer(n), 728) == 0x9125CCB162DCE3F0
    ensures n >= 744 ==> ReadLE64(TestBuffer(n), 736) == 0x37818C99FC36DB22
  {
    hide Generator, TestBuffer, ReadLE64;
    Buffer12(n);
    Made(n, 688, 0x160646ED9C6AFC71, 0x555FACC902D9343D, 0x10022FA999D8E799, 0x7CBC7006F9A94945, 0xCFCB9C033164CD01,
          0x70A55F767332B38D, 0xEA34EB73880926A9, 0xE792154E6FAEA515, 0x5095F1EDC4BA7E91);
    Made(n, 696, 0x5095F1EDC4BA7E91, 0x29DF636506B11FDD, 0xA5B01CDF8391EEB9, 0x42CB5BD1DE9175E5, 0xE03CCE528F5BA121,
          0x3028FD3B50E6C92D, 0x2831CEFDB7294FC9, 0xA047F89D25388BB5, 0x1E6B9E8E6688C4B1);
    Made(n, 704, 0x1E6B9E8E6688C4B1, 0x3DEE8673E802FF7D, 0xD516C6D29FFE59D9, 0x59D86774092FB685, 0xB1F1D1BD5A637941,
          0x688524DD5A2212CD, 0x73EE4CD24AC91CE9, 0x70897F917877C655, 0x225529F0157E4ED1);
    Made(n, 712, 0x225529F0157E4ED1, 0xD30A2B976F9D531D, 0x3D49DE20F9DAA8F9, 0x2A94D7FBA0568B25, 0x633E596C8D6CD561,
          0x46F7A7360A5B106D, 0x13796E6D442D0E09, 0xAE74FCD9A926D4F5, 0xDBC6810894539CF1);
    Made(n, 720, 0xDBC6810894539CF1, 0x1ED9DBAEF21E9ABD, 0x359F8490BD735C19, 0x56A8F3CE72873C5, 0x98BA516DDB783581,
          0xA1DB6B04DDD8420D, 0xDD8D988D3729A329, 0x565DE8A450503795, 0xF0990B67F6D12F11);
    Made(n, 728, 0xF0990B67F6D12F11, 0xE37D243F09F5565D, 0xDCFEF9F5AAA4F339, 0x6217F8260717F065, 0xB179943DF19619A1,
          0xCCCB1829ABB027AD, 0x2517835ADC235C49, 0x911FCD9FCA4E6E35, 0x22420B8A03CF8531);
    Made(n, 736, 0x22420B8A03CF8531, 0xDB1DD198916005FD, 0x36F6E2ECC6DBEE59, 0xFC8B7C9419E78105, 0x99A81902F8E701C1,
          0x8C600E723FC9414D, 0x81E0C32AE20EB969, 0x37FA516EE0CBF8D5, 0x7619633BD7371F51);
  }

  lemma Buffer14(n: nat)
    ensures Generator(800) == 0xD2C67FF89DF9C631
    ensures n >= 752 ==> ReadLE64(TestBuffer(n), 744) == 0x164CF4ACF377D676
    ensures n >= 760 ==> ReadLE64(TestBuffer(n), 752) == 0x1FFC8210DAFF84A6
    ensures n >= 768 ==> ReadLE64(TestBuffer(n), 760) == 0x2968A9F57CE8734F
    ensures n >= 776 ==> ReadLE64(TestBuffer(n), 768) == 0x10A02C1F7BA47FB3
    ensures n >= 784 ==> ReadLE64(TestBuffer(n), 776) == 0xB74EF7AD825DA8AB
    ensures n >= 792 ==> ReadLE64(TestBuffer(n), 784) == 0x93A33FF54E4D0C13
    ensures n >= 800 ==> ReadLE64(TestBuffer(n), 792) == 0xBF95FC4C42EF9288
  {
    hide Generator, TestBuffer, ReadLE64;
    Buffer13(n);
    Made(n, 744, 0x7619633BD7371F51, 0xD65802A6DC6D299D, 0x772229364F14CD79, 0xF3C535D173A9A5A5, 0xAC7BBD7F589B6DE1,
          0xF45A436334DA0EED, 0x4C278A2200703A89, 0x16E8D83AB4C35775, 0xA6339B9DC4007D71);
    Made(n, 752, 0xA6339B9DC4007D71, 0x84C6844D32FB413D, 0xFFBF0E75E9DC1099, 0xDA3FCDE52CC0DE45, 0x1076CFC4B7F3DE01,
          0x824A2F640E69108D, 0xFC58F403495C5FA9, 0x1F0E5809E87F0A15, 0x4F5DA14976341F91);
    Made(n, 760, 0x4F5DA14976341F91, 0x73CABF3B8AB8CCDD, 0xE85FC321194E37B9, 0x7C686CDBEBDFAAE5, 0xF5749CAF4040D221,
          0xA9581FB692CCC62D, 0x6857F670BB77A8C9, 0x297AA585099990B5, 0xB3BA562454EA85B1);
    Made(n, 768, 0xB3BA562454EA85B1, 0x7F70002281244C7D, 0xA4AAAC63ED17C2D9, 0x7B151231F0088B85, 0x1FEF89311EE2CA41,
          0x2CB00FA1652BAFCD, 0xA05CF8E613F695E9, 0x1095D8D03AFD6B55, 0xAB9DEB66244C2FD1);
    Made(n, 776, 0xAB9DEB66244C2FD1, 0xA885FF2E958C401D, 0x5D1E7CC3F47531F9, 0x8244DF865A8E0025, 0xADE29D76474A4661,
          0xF7229835DF7C4D6D, 0x4EAD20B5E09DA709, 0xB7B45E221EE519F5, 0x134CE75BE7919DF1);
    Made(n, 784, 0x134CE75BE7919DF1, 0xCB248B2A30F27BD, 0x4D1F5C4970330519, 0x4EDA9EBFB91288C5, 0xF59AE9E874F7C681,
          0x3FE693192C851F0D, 0xA3D08650D1C15C29, 0x930EDAC000DB1C95, 0x8880CB6F03035011);
    Made(n, 792, 0x8880CB6F03035011, 0x92B785E99A9B835D, 0xEF1A95F6C4ADBC39, 0x420332C9CF88A565, 0x4C43CF1B6D7BCAA1,
          0xFCC7B9B8A1DCA4AD, 0x95AFD21F4C463549, 0xBF6844073FB9F335, 0xD2C67FF89DF9C631);
  }

  lemma Buffer15(n: nat)
    ensures Generator(856) == 0xD0946DF295667111
    ensures n >= 808 ==> ReadLE64(TestBuffer(n), 800) == 0x3B90868F92C276D2
    ensures n >= 816 ==> ReadLE64(TestBuffer(n), 808) == 0x5AB9C9577B5F847B
    ensures n >= 824 ==> ReadLE64(TestBuffer(n), 816) == 0xDE1E413D26B323F8
    ensures n >= 832 ==> ReadLE64(TestBuffer(n), 824) == 0x198B1353DCBD2B09
    ensures n >= 840 ==> ReadLE64(TestBuffer(n), 832) == 0x9073318CF5F7A29B
    ensures n >= 848 ==> ReadLE64(TestBuffer(n), 840) == 0x766C7043B9D3A1C5
    ensures n >= 856 ==> ReadLE64(TestBuffer(n), 848) == 0x849DF506D38FFE8E
  {
    hide Generator, TestBuffer, ReadLE64;
    Buffer14(n);
    Made(n, 800, 0xD2C67FF89DF9C631, 0x7680A1B77CEFD2FD, 0xC2B199562BD1D759, 0x92ABA714A232D605, 0x8FF7F2A98276D2C1,
          0x86A8D75159E95E4D, 0x90C028353BA0B269, 0x3B665B2BF7AC1DD5, 0x7B36FC6944DD8051);
    Made(n, 808, 0x7B36FC6944DD8051, 0x84106251949A969D, 0x5F7F97E5A71BD679, 0x7B6136FCBFA39AA5, 0x572B8C0853995EE1,
          0xC9C811330DE1CBED, 0xB943D32823D55389, 0x5AD93554EC2C1C75, 0xF875134CCB26FE71);
    Made(n, 816, 0xF875134CCB26FE71, 0x23404DB5EFFA4E3D, 0xB3929F2931983999, 0x2644EB44CABD7345, 0x3D5FB55DD0A3EF01,
          0x41DD55A62FCC6D8D, 0x1E4AC74F737898A9, 0xDE398CBCB2046F15, 0x987DAB26D5EC091);
    Made(n, 824, 0x987DAB26D5EC091, 0x2BAF8BDA1B3D79DD, 0xBDFDC92B31E380B9, 0xDCF850C844B2DFE5, 0x53BD8D5D7B670321,
          0x13AA2EDD447FC32D, 0x8BABE0B715AF01C9, 0x19574C80194F95B5, 0x9BDBDA81331D46B1);
    Made(n, 832, 0x9BDBDA81331D46B1, 0xA257F6791A62997D, 0xF761F6332C2A2BD9, 0xF5A5508F97066085, 0x8C7F3835E9C31B41,
          0x311B04597DA24CCD, 0x734AA70C442D0EE9, 0x90DE1DC1D7781055, 0xC5B1FB40910B10D1);
    Made(n, 840, 0xC5B1FB40910B10D1, 0xA168A368A3382D1D, 0xD3D17B7AB428BAF9, 0xB914566D5D8A7525, 0x43702E9687A8B761,
          0x7060422A93AA8A6D, 0x6CC96BCC99374009, 0x76D0B1CB71385EF5, 0x8E4E20DD4AE09EF1);
    Made(n, 848, 0x8E4E20DD4AE09EF1, 0xFE35F35D975CB4BD, 0x8F6D4BA89F2BAE19, 0xD33DB84CF0619DC5, 0x651CAD599185781,
          0xF59DEA71DFDEFC0D, 0x9DE8BFFF61A21529, 0x84B919D3649B0195, 0xD0946DF295667111);
  }

  lemma Buffer16(n: nat)
    ensures Generator(912) == 0xAC0A16AFDF409FF1
    ensures n >= 864 ==> ReadLE64(TestBuffer(n), 856) == 0x4BF274C0FDDA75D0
    ensures n >= 872 ==> ReadLE64(TestBuffer(n), 864) == 0x474ABED46F772AB4
    ensures n >= 880 ==> ReadLE64(TestBuffer(n), 872) == 0xDE1C902C4DF00626
    ensures n >= 888 ==> ReadLE64(TestBuffer(n), 880) == 0x660616802838087E
    ensures n >= 896 ==> ReadLE64(TestBuffer(n), 888) == 0x266F929CE574FC3B
    ensures n >= 904 ==> ReadLE64(TestBuffer(n), 896) == 0x1F421F4505250EAD
    ensures n >= 912 ==> ReadLE64(TestBuffer(n), 904) == 0x20E53B13F67EBAFE
  {
    hide Generator, TestBuffer, ReadLE64;
    Buffer15(n);
    Made(n, 856, 0xD0946DF295667111, 0x75BB8C07BE3EB05D, 0xDA6B56DA760F8539, 0xFD79B55A2DFE5A65, 0xC018A53E7C227BA1,
          0x74ADC290B65621AD, 0xF26F87C12ED20E49, 0x4BE0B21092FA7835, 0xB4375D1F78750731);
    Made(n, 864, 0xB4375D1F78750731, 0x2A48A16CBF1C9FFD, 0x774239042740C059, 0x6F79692A85232B05, 0xD4C711902AE7A3C1,
          0xBE279A69FFF67B4D, 0x4A2E5AE9A8BBAB69, 0x47C0FAC2EB0142D5, 0x26662EF070F4E151);
    Made(n, 872, 0x26662EF070F4E151, 0x6EE8F6A5B05039D, 0xF061C66DF8BBDF79, 0x4D1EB40F3EE28FA5, 0x2CA4F0B3FD984FE1,
          0x9028191F147688ED, 0x1CA96B139FE36C89, 0xDEDC2ED952A9E175, 0x7ED69BE552DE7F71);
    Made(n, 880, 0x7ED69BE552DE7F71, 0x8210147E6D65B3D, 0x388E9F18BA0D6299, 0x282D5EB9089F0845, 0x80C10AB4AC750001,
          0x165507AFD45CCA8D, 0x6D1D04F5F5DD1A9, 0x669C7CDCD13ED415, 0x3B524B1B6B3A6191);
    Made(n, 888, 0x3B524B1B6B3A6191, 0xFC19C23F053F26DD, 0x748CAAD03651C9B9, 0xE540A454BE0B14E5, 0x9C8845FD91CE3421,
          0x921A3EE602FFC02D, 0x6F1DE6C73ECF5AC9, 0x268F7BC8F95A9AB5, 0xAD643F23E22107B1);
    Made(n, 896, 0xAD643F23E22107B1, 0xEF4CEE3A0BDE67D, 0x25A538B3E63594D9, 0x581D34973293585, 0x45D751EA2C046C41,
          0x1F402AF3E085E9CD, 0x42E4509E746C87E9, 0x1FA4CA7992E7B555, 0xFEA03B8E5CBAF1D1);
    Made(n, 904, 0xFEA03B8E5CBAF1D1, 0xBA8F5C5325A11A1D, 0x7EA575FDE1F543F9, 0xF6E2D9BFBE4BEA25, 0x13BFBBADDF882861,
          0x3B80442E03E5C76D, 0xE542385226F9D909, 0x20D6BD558520A3F5, 0xAC0A16AFDF409FF1);
  }

  lemma Buffer17(n: nat)
    ensures Generator(968) == 0x57B37F6F885BD2D1
    ensures n >= 920 ==> ReadLE64(TestBuffer(n), 912) == 0x1A30312AB2B0EBAC
    ensures n >= 928 ==> ReadLE64(TestBuffer(n), 920) == 0x2941F2A5A2A6C06C
    ensures n >= 936 ==> ReadLE64(TestBuffer(n), 928) == 0x3A71C425E219489E
    ensures n >= 944 ==> ReadLE64(TestBuffer(n), 936) == 0x554363CF1FBEDD79
    ensures n >= 952 ==> ReadLE64(TestBuffer(n), 944) == 0x2703A3ABF361376
    ensures n >= 960 ==> ReadLE64(TestBuffer(n), 952) == 0x365D674E11A70060
    ensures n >= 968 ==> ReadLE64(TestBuffer(n), 960) == 0xC616C089DFF00F64
  {
    hide Generator, TestBuffer, ReadLE64;
    Buffer16(n);
    Made(n, 912, 0xAC0A16AFDF409FF1, 0xEBF24712FC0741BD, 0xB09508D0135D5719, 0xB22E581A4215B2C5, 0x2A4DE59BF8D9E881,
          0x31D0E94874E5D90D, 0x30AF98E4BFCBCE29, 0x1A2692DF008FE695, 0x6CA0FC2DEEFA9211);
    Made(n, 920, 0x6CA0FC2DEEFA9211, 0xC0E9B88641DEDD5D, 0xA67ED4CFA7CA4E39, 0xA2AA388777790F65, 0xA575F9D7EE8A2CA1,
          0xF27CB47F061C9EAD, 0x41D79A1B7CC6E749, 0x29EEDCD0E90FFD35, 0x9EC6D5D5F4414831);
    Made(n, 928, 0x9EC6D5D5F4414831, 0x4854CEE2C4E66CFD, 0x199B4856C228A959, 0xE265CFD4B7B88005, 0x25EEB275E33974C1,
          0xC4EDB210EEF0984D, 0x71FB7816425FA469, 0x3A92A0717FCB67D5, 0x796A6148DC7D4251);
    Made(n, 936, 0x796A6148DC7D4251, 0xDD24B08D3CAC709D, 0xBEE00A046CF4E879, 0x1F2D30AA866684A5, 0xCFADB213679840E1,
          0x6316CB77A59845ED, 0x4337F689AD9A8589, 0x555225C24D3CA675, 0x7646EA02FC270071);
    Made(n, 944, 0x7646EA02FC270071, 0x13E6B0C4C48F683D, 0x36D07772CC3B8B99, 0xBF949F5A1B659D45, 0x3AF628F07C671101,
          0x3AC947C0F91A278D, 0x701C08E3660C0AA9, 0x2E382354B2E3915, 0x607B304830C70291);
    Made(n, 952, 0x607B304830C70291, 0x85088595BDD3DD, 0xA7491EDB8F9912B9, 0x1134F9642CE849E5, 0x4EFBA390D4766521,
          0x67BD6E746B4CBD2D, 0x5D3F21A0AFD8B3C9, 0x3628A08F4EBA9FB5, 0x64EDB67C42F5C8B1);
    Made(n, 960, 0x64EDB67C42F5C8B1, 0xF99238B0136337D, 0xF04A3672A439FDD9, 0xDF1868E0F9710A85, 0x890420ED56A6BD41,
          0xC0D8276BCAD686CD, 0x1692841F3DB500E9, 0xC652DC9FB24C5A55, 0x57B37F6F885BD2D1);
  }

  lemma Buffer18(n: nat)
    ensures Generator(1024) == 0xF6F892EB369B89B1
    ensures n >= 976 ==> ReadLE64(TestBuffer(n), 968) == 0x9B4FC9961270D457
    ensures n >= 984 ==> ReadLE64(TestBuffer(n), 976) == 0xA0E1852357C7ACBA
    ensures n >= 992 ==> ReadLE64(TestBuffer(n), 984) == 0xD6CF182B1A51F956
    ensures n >= 1000 ==> ReadLE64(TestBuffer(n), 992) == 0xEA63FDDE01EE73A7
    ensures n >= 1008 ==> ReadLE64(TestBuffer(n), 1000) == 0x712AC77354EAC725
    ensures n >= 1016 ==> ReadLE64(TestBuffer(n), 1008) == 0x2519987A2BA5F6B3
    ensures n >= 1024 ==> ReadLE64(TestBuffer(n), 1016) == 0x429DCF051495774D
  {
    hide Generator, TestBuffer, ReadLE64;
    Buffer17(n);
    Made(n, 968, 0x57B37F6F885BD2D1, 0xD4AD9E58A9C7071D, 0x705E0D3F26DACCF9, 0x1211E0F191D25F25, 0x9639EF3DDFE89961,
          0xC9F7DF070D2E046D, 0x4F26FD3042E57209, 0x9BC93E753F9DE8F5, 0xBABB3927C5B1A0F1);
    Made(n, 976, 0xBABB3927C5B1A0F1, 0xAC18CF32FE0ECEBD, 0xC7848A3A95C80019, 0x575DA562632EC7C5, 0x23034F63453C7981,
          0x858503236899B60D, 0xE1B38FB5C53E8729, 0xA08DF5B859B9CB95, 0x569DE0AD50BFB311);
    Made(n, 984, 0x569DE0AD50BFB311, 0xF91F10EEF27C0A5D, 0x5170077E42DE1739, 0x1A0984A700F8C465, 0x2B3F7FF995B2DDA1,
          0x18DA1A3DAE301BAD, 0xCF75EB922F24C049, 0xD67DEAD266FA8235, 0xA76B1C64725E8931);
    Made(n, 992, 0xA76B1C64725E8931, 0x73C20380FB4D39FD, 0xEEBE304705899259, 0x15470572EF2D505, 0xDE3A921A9C6C45C1,
          0xFD88C327E3D7B54D, 0x63AEEE32218C9D69, 0xEAEE108A7B0A8CD5, 0x25D6DB7B0876A351);
    Made(n, 1000, 0x25D6DB7B0876A351, 0xC77B93334690DD9D, 0xEA9501972CC6F179, 0x540AC5552B2F79A5, 0x73074AD8A29931E1,
          0xC73FD8BA1E4702ED, 0x2A27F4F885FA9E89, 0x71B195BF40E46B75, 0xB31B39F268008171);
    Made(n, 1008, 0xB31B39F268008171, 0xF614D46B3625753D, 0xA50CA63EB122B499, 0x2BF2D9C538113245, 0x7A3C5579717A2201,
          0x98D781E69B04848D, 0x197D72D4E08343A9, 0x25CE2BE624D29E15, 0x4D7139CD7F04A391);
    Made(n, 1016, 0x4D7139CD7F04A391, 0x77459EE619B980DD, 0x95F6A011A6B95BB9, 0x14384BFE664A7EE5, 0x5542B79945F9621,
          0xCF7E23991A66BA2D, 0x9D84034BE1CB0CC9, 0x42E44BF7BE6FA4B5, 0xF6F892EB369B89B1);
  }

  lemma Buffer19(n: nat)
    ensures Generator(1080) == 0xA8746A1116F34491
    ensures n >= 1032 ==> ReadLE64(TestBuffer(n), 1024) == 0x4836EC774C4E54F6
    ensures n >= 1040 ==> ReadLE64(TestBuffer(n), 1032) == 0x88100D8194AC47CC
    ensures n >= 1048 ==> ReadLE64(TestBuffer(n), 1040) == 0x7B82CAC1D8A2F750
    ensures n >= 1056 ==> ReadLE64(TestBuffer(n), 1048) == 0xE6FB2726092DC4D7
    ensures n >= 1064 ==> ReadLE64(TestBuffer(n), 1056) == 0xA60AD71AC6E75E06
    ensures n >= 1072 ==> ReadLE64(TestBuffer(n), 1064) == 0xB1911A21E4C02940
    ensures n >= 1080 ==> ReadLE64(TestBuffer(n), 1072) == 0x6DE2AADA7E004D9F
  {
    hide Generator, TestBuffer, ReadLE64;
    Buffer18(n);
    Made(n, 1024, 0xF6F892EB369B89B1, 0x54C6505528CB807D, 0x4E458914EF3766D9, 0x4C80129C9EDDDF85, 0x7729585FDAAA0E41,
          0xEC60F6C9799423CD, 0x36A31E3A390679E9, 0x48ECB8717AA5FF55, 0xCC86AC1514EDB3D1);
    Made(n, 1032, 0xCC86AC1514EDB3D1, 0x476D3B40BCA9F41D, 0xAC7AB0692BD955F9, 0x947F72DBED1DD425, 0x81BF206919CA0A61,
          0xD2872298C83416D, 0x10979899A5FA0B09, 0x8836701485B02DF5, 0x50E2C0CA1F33A1F1);
    Made(n, 1040, 0x50E2C0CA1F33A1F1, 0xF7C9041ACA735BBD, 0xA273EFBBEF6BA919, 0xD8A8C76508ACDCC5, 0xC1BD12142F400A81,
          0xCA6FC3D637FA930D, 0x825C47904AFA4029, 0x7BDCDA09F518B095, 0xD7B5484DFBB5D411);
    Made(n, 1048, 0xD7B5484DFBB5D411, 0xC4DC8B689D16375D, 0x2DA04F07304AE039, 0x95666B31F7D7965, 0x263EAB96429C8EA1,
          0x27B34473CB9098AD, 0xFB1C64123EEB9949, 0xE611291431BA0735, 0x6A6E38453CCCA31);
    Made(n, 1056, 0x6A6E38453CCCA31, 0x5E2400EBCF5106FD, 0xE7696566FA637B59, 0xC6E1FD3ADFD22A05, 0x1ADAFE3F478016C1,
          0xD7401A1D9BABD24D, 0xAB5B65D5F429669, 0xA6DFC875A1BEB1D5, 0x401B682075E10451);
    Made(n, 1064, 0x401B682075E10451, 0x295158B285B24A9D, 0xC065DECD6131FA79, 0xE4E1547AC23D6EA5, 0x21971AD6BF9B22E1,
          0x1A2B2E90DB82BFED, 0x919419976203B789, 0xB1671A3492A13075, 0x9F6410B1376B0271);
    Made(n, 1072, 0x9F6410B1376B0271, 0x4D2C97F6E898823D, 0x13275CB1C2DD99, 0x7E64C51C93A1C745, 0xDAD512F8BCAE3301,
          0xAA7328FAB71BE18D, 0xE23890D627C37CA9, 0x6D13E364632C0315, 0xA8746A1116F34491);
  }

  lemma Buffer20(n: nat)
    ensures Generator(1136) == 0x4C12FCEE0B668371
    ensures n >= 1088 ==> ReadLE64(TestBuffer(n), 1080) == 0x6B11ECDA0813F5A8
    ensures n >= 1096 ==> ReadLE64(TestBuffer(n), 1088) == 0x42E350779AC89633
    ensures n >= 1104 ==> ReadLE64(TestBuffer(n), 1096) == 0xF2F2E53980CB2162
    ensures n >= 1112 ==> ReadLE64(TestBuffer(n), 1104) == 0xC520CF1618432028
    ensures n >= 1120 ==> ReadLE64(TestBuffer(n), 1112) == 0xB521C71930B65C1
    ensures n >= 1128 ==> ReadLE64(TestBuffer(n), 1120) == 0x90CE0785BA1E9841
    ensures n >= 1136 ==> ReadLE64(TestBuffer(n), 1128) == 0xBFCFC803969BDCFB
  {
    hide Generator, TestBuffer, ReadLE64;
    Buffer19(n);
    Made(n, 1080, 0xA8746A1116F34491, 0xF52E4CB5DE322DDD, 0x1344F62FE4B2A4B9, 0x82377503F31B3E5, 0xDAC47C7B2289C721,
          0xECE448D1AD4DB72D, 0x11AFEFDA4DA665C9, 0x6B3D781BED79A9B5, 0x33DC47C29E124AB1);
    Made(n, 1088, 0x33DC47C29E124AB1, 0x96B3FFE5047DCD7D, 0xC8954A59502DCFD9, 0x9A121987D86FB485, 0x7764A4E3290E5F41,
          0x5051CC2229BEC0CD, 0xE33C02C3FF60F2E9, 0x42BC0DC130F4A455, 0x6249D9C1037094D1);
    Made(n, 1096, 0x6249D9C1037094D1, 0x218B8F2FEB49E11D, 0xCBCA65DF99F0DEF9, 0x8085DABCE52E4925, 0x395003F31E2C7B61,
          0xE5F2F8B65EE57E6D, 0xF2A2290A0937A409, 0xF2A28F523C5772F5, 0x28E5EF4D0CC6A2F1);
    Made(n, 1104, 0x28E5EF4D0CC6A2F1, 0x20F718248E34E8BD, 0x43C66B80E9485219, 0x18D33A66E78FF1C5, 0x164FFD5867E49B81,
          0xCF5DEC816008700D, 0x209780FB29FEF929, 0xC576E45357AC9595, 0xC1BD833E30DCF511);
    Made(n, 1112, 0xC1BD833E30DCF511, 0x65AB7BB70EAD645D, 0xB097D045910A939, 0x93E2A54B28072E65, 0x71A3A281C6473FA1,
          0x1C6C06B57B3E15AD, 0x52C10A11A51B7249, 0xBEBD00A6E4E8C35, 0x41E2DF5FF98C0B31);
    Made(n, 1120, 0x41E2DF5FF98C0B31, 0x989B7E04ADF1D3FD, 0x1E7F90E1A9B66459, 0xBA8FDB4DBF567F05, 0x85F7E6A5D574E7C1,
          0x77F07EDD36CEF4D, 0xCE598D6114818F69, 0x909263AFB8E7D6D5, 0xFB41F563A5BC6551);
    Made(n, 1128, 0xFB41F563A5BC6551, 0xDC15233E0710B79D, 0x9B22AF0733360379, 0x9668BF6BE09063A5, 0x3CF9801CF9E13E1,
          0xC8D6F4D33A4B7CED, 0xCFEBA4667AB5D089, 0xBF0A733BA772F575, 0x4C12FCEE0B668371);
  }

  lemma Buffer21(n: nat)
    ensures Generator(1192) == 0x2E5D36001908C651
    ensures n >= 1144 ==> ReadLE64(TestBuffer(n), 1136) == 0xCD96A040AA8F0D4C
    ensures n >= 1152 ==> ReadLE64(TestBuffer(n), 1144) == 0xA9AB28AA4B3A743
    ensures n >= 1160 ==> ReadLE64(TestBuffer(n), 1152) == 0x50B99B6872D815E
    ensures n >= 1168 ==> ReadLE64(TestBuffer(n), 1160) == 0xD19289BE2B73E200
    ensures n >= 1176 ==> ReadLE64(TestBuffer(n), 1168) == 0x96D6470FA390E5DF
    ensures n >= 1184 ==> ReadLE64(TestBuffer(n), 1176) == 0xFF3096B18D55E66A
    ensures n >= 1192 ==> ReadLE64(TestBuffer(n), 1184) == 0xE0CABDF757F32538
  {
    hide Generator, TestBuffer, ReadLE64;
    Buffer20(n);
    Made(n, 1136, 0x4C12FCEE0B668371, 0xDC227A088E88F3D, 0x8F4CDD86171C0699, 0xAA98780763175C45, 0x408972588F034401,
          0xA02353A44A603E8D, 0x964FDF8294CCB5A9, 0xCD3D917A0B3A6815, 0x43A7F749B992E591);
    Made(n, 1144, 0x43A7F749B992E591, 0xA7F34D673027DADD, 0xB34EBEECB284EDB9, 0xA410AAAB8C9DE8E5, 0x8AD6BFB9CFF4F821,
          0xB2EA8A08C101B42D, 0x9A69D6666C6ABEC9, 0xAFACD0A80D8AEB5, 0x5EC96A455A5A0BB1);
    Made(n, 1152, 0x5EC96A455A5A0BB1, 0x8134B89A814D1A7D, 0x2D64BD17501D38D9, 0x876823731B268985, 0xB6513D99B2D3B041,
          0x99FBED9818565DCD, 0xB96D5BA29C46BE9, 0x52EBCF61A384955, 0x3874C654E475D1);
    Made(n, 1160, 0x3874C654E475D1, 0xE2F3ADA7C2A6CE1D, 0x7358943F1A2167F9, 0x2B005D378F03BE25, 0xBE775D407E0FEC61,
          0x8998867B6154BB6D, 0x9289E646259E3D09, 0xD1C760824893B7F5, 0xDFFC5097AF6AA3F1);
    Made(n, 1168, 0xDFFC5097AF6AA3F1, 0xE5EFC4A7765375BD, 0x90642B0F4C5DFB19, 0xA3E624B1B4D806C5, 0xFAE779AA02A2C81,
          0x478790925DC34D0D, 0xD60F12E63B4CB229, 0x9669EAE906757A95, 0x6A2365FD31351611);
    Made(n, 1176, 0x6A2365FD31351611, 0xE6BF003B1441915D, 0x5528DD88A62F7239, 0x8D20F5B36F95E365, 0xB1872D70F1B2F0A1,
          0x969A7483DA3892AD, 0x30071B8F5AB44B49, 0xFF4DC89E41B81135, 0x38584692C49C4C31);
    Made(n, 1184, 0x38584692C49C4C31, 0x25C933EA042FA0FD, 0xF327B97B1C824D59, 0x57D4B6A2C27FD405, 0xF764EE11374AB8C1,
          0xBD6C3F21481B0C4D, 0xCA812CAF5A498869, 0xE02800CA8585FBD5, 0x2E5D36001908C651);
  }

  lemma Buffer22(n: nat)
    ensures Generator(1248) == 0xB48C532915FD8D31
    ensures n >= 1200 ==> ReadLE64(TestBuffer(n), 1192) == 0x145FEAF34D6AC32E
    ensures n >= 1208 ==> ReadLE64(TestBuffer(n), 1200) == 0x2B0608DAAB3F1D75
    ensures n >= 1216 ==> ReadLE64(TestBuffer(n), 1208) == 0xC5FB9DDB8FE33459
    ensures n >= 1224 ==> ReadLE64(TestBuffer(n), 1216) == 0xBDDE7574F1631618
    ensures n >= 1232 ==> ReadLE64(TestBuffer(n), 1224) == 0x76A9F8FA7F867D52
    ensures n >= 1240 ==> ReadLE64(TestBuffer(n), 1232) == 0xC28EB97F3A38CFF9
    ensures n >= 1248 ==> ReadLE64(TestBuffer(n), 1240) == 0xA312DE88B24E0DE7
  {
    hide Generator, TestBuffer, ReadLE64;
    Buffer21(n);
    Made(n, 1192, 0x2E5D36001908C651, 0xC33FC2E5D7AC249D, 0x6AFFA45DCBD30C79, 0x4D4E1B5E1B2858A5, 0xF35A7F6EE3A204E1,
          0xEA1E8A8597A139ED, 0x5F4DBB2F0910E989, 0x14E88AA2E459BA75, 0x75F1580884F30471);
    Made(n, 1200, 0x75F1580884F30471, 0x1DAEFD1DC4159C3D, 0x3F31FB4D2A2E2F99, 0xABDF3DB1DB71F145, 0xDA8E63C419795501,
          0x8AD595751D19B8D, 0x6604E5E809EEEA9, 0x2B74434621FDCD15, 0x59152C7F27E38691);
    Made(n, 1208, 0x59152C7F27E38691, 0x344A3D895C9A87DD, 0xE330F6F7793036B9, 0x8FEBDE87238F1DE5, 0xDB4F19BAEDA12921,
          0x9DE09195F282B12D, 0xFBF9CA13B71817C9, 0xC555E5C71D8CB3B5, 0x18DCB2A74C72CCB1);
    Made(n, 1216, 0x18DCB2A74C72CCB1, 0x16F769928C39677D, 0x6368F63F7805A1D9, 0xF1BF47F3DC025E85, 0x742C7526E8FA0141,
          0x7518915A825AFACD, 0xDE85B4435130E4E9, 0xBDEABC0C7B70EE55, 0x52405E890A4956D1);
    Made(n, 1224, 0x52405E890A4956D1, 0x7DD58E86CFC0BB1D, 0x86B2CB5D556AF0F9, 0x7F54ED53FF9E3325, 0xFA74AF56CA745D61,
          0xF8E7C4F370D0F86D, 0xA976FA5BB42DD609, 0x76A8B42D8F64FCF5, 0xF96EFBC2281FA4F1);
    Made(n, 1232, 0xF96EFBC2281FA4F1, 0xCF7916F7AFCF02BD, 0x388D4045E1ACA419, 0x3A34AB9425851BC5, 0x7F5D4F068910BD81,
          0xB9D132C3AE2B2A0D, 0x8EE7E3AA57E36B29, 0xC2171AF486735F95, 0xE745AA5B3DBE3711);
    Made(n, 1240, 0xE745AA5B3DBE3711, 0xDD26EF27AD2BE5D, 0x4E83402000A73B39, 0xB277F0D54B299865, 0x886DA8F995DFA1A1,
          0xDE4F9E4D05800FAD, 0x1271271358B62449, 0xA3C5712DD0F69635, 0xB48C532915FD8D31);
  }

  lemma Buffer23(n: nat)
    ensures Generator(1304) == 0x1141507997785811
    ensures n >= 1256 ==> ReadLE64(TestBuffer(n), 1248) == 0xFAECC1C690779B4
    ensures n >= 1264 ==> ReadLE64(TestBuffer(n), 1256) == 0x839DD9AE574C6D64
    ensures n >= 1272 ==> ReadLE64(TestBuffer(n), 1264) == 0xAA0337E2339A105F
    ensures n >= 1280 ==> ReadLE64(TestBuffer(n), 1272) == 0x64FC1DE1E992BCA9
    ensures n >= 1288 ==> ReadLE64(TestBuffer(n), 1280) == 0x690DE1D2EC26B981
    ensures n >= 1296 ==> ReadLE64(TestBuffer(n), 1288) == 0x1323A62F02FE6BF6
    ensures n >= 1304 ==> ReadLE64(TestBuffer(n), 1296) == 0xC6E12C70FFE48687
  {
    hide Generator, TestBuffer, ReadLE64;
    Buffer22(n);
    Made(n, 1248, 0xB48C532915FD8D31, 0x799DEAF73F0A6DFD, 0x7A66C905BC73659, 0x69121791DE4E2905, 0x1C767B455E0189C1,
          0xCCAE30CDB6B6294D, 0xAE398363499A8169, 0xF48A66CCC9920D5, 0x64A8424250C62751);
    Made(n, 1256, 0x64A8424250C62751, 0x6DC962970484919D, 0x4CE75EA354091579, 0x571FE66C07054DA5, 0xAE0406540CA6F5E1,
          0xD9EE82D95083F6ED, 0x9DCDC28346150289, 0x83E278EDAE557F75, 0x5F68071145108571);
    Made(n, 1264, 0x5F68071145108571, 0x10612CA1471FA93D, 0x9AB96C1D33F95899, 0x33646ACD31B18645, 0xE2CA07A78D106601,
          0x372C6F54CA6FF88D, 0x384B8D7443A27A9, 0xAA44CF3CAC763215, 0xA99F4A8A22E52791);
    Made(n, 1272, 0xA99F4A8A22E52791, 0xBCC707C8B08A34DD, 0x92BB82F8A1B47FB9, 0xE9C8497ED90552E5, 0xE18F1B64CC8E5A21,
          0x1D5A453DDED0AE2D, 0xFC2F9B0EA6AE70C9, 0x64B7954A6895B8B5, 0x8142FD0D555C8DB1);
    Made(n, 1280, 0x8142FD0D555C8DB1, 0xB925F7A71242B47D, 0x267685DB50E70AD9, 0xECC0256490033385, 0xD29B4AAF3C815241,
          0xE103BAA5A4CC97CD, 0xD40EDAF0EA65DE9, 0x6916FB95999E9355, 0xF6DA0E7E249F37D1);
    Made(n, 1288, 0xF6DA0E7E249F37D1, 0x6BBA3B089F97A81D, 0xFE878D48F4CD79F9, 0x282E17F4BFDA825, 0x2F27EDDC9459CE61,
          0xA6B770466A5A356D, 0x238F5AA16DE66F09, 0x137DEC11F5CB41F5, 0x8728D41597E5A5F1);
    Made(n, 1296, 0x8728D41597E5A5F1, 0x86903D6667A78FBD, 0xE4258A5C72344D19, 0xFF054861EE9730C5, 0x70C98A88D3984E81,
          0x2CF9E21CCE40070D, 0xE109E20958C32429, 0xC6511D745CA64495, 0x1141507997785811);
  }

  lemma Buffer24(n: nat)
    ensures Generator(1360) == 0xD897CA0C1FBCA6F1
    ensures n >= 1312 ==> ReadLE64(TestBuffer(n), 1304) == 0xD9EF685081921B11
    ensures n >= 1320 ==> ReadLE64(TestBuffer(n), 1312) == 0xF399CC578B6D9423
    ensures n >= 1328 ==> ReadLE64(TestBuffer(n), 1320) == 0x433972F87C9A1239
    ensures n >= 1336 ==> ReadLE64(TestBuffer(n), 1328) == 0xEED8A489546CF160
    ensures n >= 1344 ==> ReadLE64(TestBuffer(n), 1336) == 0x75728BB411199E7F
    ensures n >= 1352 ==> ReadLE64(TestBuffer(n), 1344) == 0x149958D3FE7600AB
    ensures n >= 1360 ==> ReadLE64(TestBuffer(n), 1352) == 0x7EFF6A60EA4CA339
  {
    hide Generator, TestBuffer, ReadLE64;
    Buffer23(n);
    Made(n, 1304, 0x1141507997785811, 0x1B44C2780F60EB5D, 0x92C200CF51780439, 0x815A083F0FC24D65, 0x50CAF69283CD52A1,
          0x68ED4E6C1A148CAD, 0xEF3C24AE9820FD49, 0xD996628C410A1B35, 0x235CC3A04EAFCE31);
    Made(n, 1312, 0x235CC3A04EAFCE31, 0x940787C4CB823AFD, 0x6DEFE71770851F59, 0x8B6EF7B807C17E05, 0x57F7CA073A995AC1,
          0xCC5C6995DC3E464D, 0x9907EF40FB747A69, 0xF365A852532145D5, 0x39573907CDF48851);
    Made(n, 1320, 0x39573907CDF48851, 0x121C351B9A99FE9D, 0x9AA63462F4D81E79, 0x7CBF3C95392742A5, 0xF8E70B085BACE6E1,
          0x7245A22CC1F3B3ED, 0x39A0B6BE6AC21B89, 0x43A18A546A664475, 0x60183BC9ECBF0671);
    Made(n, 1328, 0x60183BC9ECBF0671, 0xF147B1DABF06B63D, 0x6CC13D3A7D7D8199, 0x5489328F9AD61B45, 0x8979FFB01AC87701,
          0xA49645AAB13B558D, 0xD8425F43389E60A9, 0xEE587A26AFA39715, 0x7FE869146B97C891);
    Made(n, 1336, 0x7FE869146B97C891, 0x9E75D1EE78F6E1DD, 0x193AB8919511C8B9, 0x11FAD553820087E5, 0xB47A32FEBDBC8B21,
          0x8B2C033222EBAB2D, 0x72726F8CB42DC9C9, 0x75092B8206F3BDB5, 0xAB6E4A8D56174EB1);
    Made(n, 1344, 0xAB6E4A8D56174EB1, 0x60CA6F0069017D, 0x7650200D63C173D9, 0xFEABF5E4AC290885, 0xD310FAD81E69A341,
          0x58A416C2BCAB34CD, 0x997DBC75FB24D6E9, 0x14D94BB7B9C13855, 0x3911B32BA4E618D1);
    Made(n, 1352, 0x3911B32BA4E618D1, 0xA394FAC5BF2B951D, 0x4C9E1749A14902F9, 0xEA36A88B89221D25, 0x60BE2E196CC03F61,
          0x6AADD4492AF0726D, 0xFF78A0B70BC80809, 0x7E70802260C686F5, 0xD897CA0C1FBCA6F1);
  }

  lemma Buffer25(n: nat)
    ensures Generator(1416) == 0x97C153288C1DF9D1
    ensures n >= 1368 ==> ReadLE64(TestBuffer(n), 1360) == 0xB50C4DC53FAB8ED8
    ensures n >= 1376 ==> ReadLE64(TestBuffer(n), 1368) == 0x5BAF396B3E0866C7
    ensures n >= 1384 ==> ReadLE64(TestBuffer(n), 1376) == 0xCB50270B104AE311
    ensures n >= 1392 ==> ReadLE64(TestBuffer(n), 1384) == 0x31C27F04B3DC31C0
    ensures n >= 1400 ==> ReadLE64(TestBuffer(n), 1392) == 0xA0D7897EA492090B
    ensures n >= 1408 ==> ReadLE64(TestBuffer(n), 1400) == 0x7D028C1BD2FE7098
    ensures n >= 1416 ==> ReadLE64(TestBuffer(n), 1408) == 0xFB0749363480948C
  {
    hide Generator, TestBuffer, ReadLE64;
    Buffer24(n);
    Made(n, 1360, 0xD897CA0C1FBCA6F1, 0x8EC45441CADD1CBD, 0xAB799EE3C6F4F619, 0x3FE01D73C50E45C5, 0xC57F3ACF30C0DF81,
          0x4DB656F23B01E40D, 0xCF0FE2E16EBDD29, 0xB5EF3C3C0E0E2995, 0xC72EFFCA7F637911);
    Made(n, 1368, 0xC72EFFCA7F637911, 0x667107039EEC185D, 0x869111481A1CD39, 0x3EA27B2412600265, 0x6B876D938C7C03A1,
          0x3988C62934F609AD, 0xAFE38EFB11F4D649, 0x5B353501B6F2A035, 0x119D5BE6CFB30F31);
    Made(n, 1376, 0x119D5BE6CFB30F31, 0xE37B1828169707FD, 0x4AF33E9F63BC0859, 0x109756F733D9D305, 0xB41FC1CBE122BC1,
          0x271DEEA975B3634D, 0x500575B588D77369, 0xCBB20C4BDE1E6AD5, 0xC018E0BF1193E951);
    Made(n, 1384, 0xC018E0BF1193E951, 0x3184221AA6EC6B9D, 0xDCEE7BE0D7402779, 0xB3560CBE468E37A5, 0x4DA4603E1B3D7E1,
          0x7F02DB0B48F070ED, 0xC2338504B0183489, 0x312043C47D8C0975, 0xB4535A51CFE8771);
    Made(n, 1392, 0xB4535A51CFE8771, 0x95BBCF6D8CAC33D, 0x927006C24FBAAA99, 0xA4657BB44BDFB045, 0x7E3ABFCBF3A18801,
          0x89ACA4340333B28D, 0xD77E5FE1B6CB99A9, 0xA0229C223085FC15, 0x98275798C2FB6991);
    Made(n, 1400, 0x98275798C2FB6991, 0x7031E9E102E08EDD, 0xFE59E75CBC4811B9, 0xD2F993EAF380BCE5, 0x1BDB1D31122BBC21,
          0x8C73DF115BD3A82D, 0x2F95CCC589622C9, 0x7D9ABA509DA6C2B5, 0x8C5BC22E2FA30FB1);
    Made(n, 1408, 0x8C5BC22E2FA30FB1, 0x9417593E43AC4E7D, 0x80AE46113994DCD9, 0x34EEA458A573DD85, 0x36D690C7FFB2F441,
          0x49FFDA0806F6D1CD, 0x7CDFF39AFAC4FE9, 0xFB09412E20D8DD55, 0x97C153288C1DF9D1);
  }

  lemma Buffer26(n: nat)
    ensures Generator(1472) == 0x7FEAB1E7C2FFD0B1
    ensures n >= 1424 ==> ReadLE64(TestBuffer(n), 1416) == 0x55EFDD899C363D97
    ensures n >= 1432 ==> ReadLE64(TestBuffer(n), 1424) == 0xE241CB07C9E5D290
    ensures n >= 1440 ==> ReadLE64(TestBuffer(n), 1432) == 0xC187934C46BE3F9
    ensures n >= 1448 ==> ReadLE64(TestBuffer(n), 1440) == 0x4723197973399C11
    ensures n >= 1456 ==> ReadLE64(TestBuffer(n), 1448) == 0xE0D70965400830BB
    ensures n >= 1464 ==> ReadLE64(TestBuffer(n), 1456) == 0x6F9AEE8741878CCE
    ensures n >= 1472 ==> ReadLE64(TestBuffer(n), 1464) == 0xBF3EB9CEFA50D1ED
  {
    hide Generator, TestBuffer, ReadLE64;
    Buffer25(n);
    Made(n, 1416, 0x97C153288C1DF9D1, 0x3DD180B3BB7C821D, 0x36272AE003DD8BF9, 0x9CE27EAFCC0B9225, 0x891F57F5E4A7B061,
          0xDD55497D8F93AF6D, 0xEF42E38546D2A109, 0x552F8386B556CBF5, 0x90DF1C50E0A4A7F1);
    Made(n, 1424, 0x90DF1C50E0A4A7F1, 0xD22E32D5066FA9BD, 0xE57CB2C5A8EE9F19, 0xC9824B275DEA5AC5, 0x7414B48518A7081,
          0xCBB90FE57170C10D, 0x410722AC6B5D9629, 0xE2D586F41FAB0E95, 0xF9D16811367F9A11);
    Made(n, 1432, 0xF9D16811367F9A11, 0xE343C769F674455D, 0x6B2600E67A249639, 0xC4374B5CA802B765, 0x3485CC3580EBB4A1,
          0x79DA7AB9732486AD, 0x184E7C1BBF31AF49, 0xCD8454B57B02535, 0x1146665BFA075031);
    Made(n, 1440, 0x1146665BFA075031, 0x9C5BE0338D48D4FD, 0x399E8A503E6BF159, 0x7360D07657972805, 0x79742A4CD96BFCC1,
          0x19749AC54015804D, 0x23C2FCD70AC36C69, 0x47CFEF3F32908FD5, 0xBB4948679CA44A51);
    Made(n, 1448, 0xBB4948679CA44A51, 0x301B7318367BD89D, 0x835D41A24413079, 0x40D24DB0C43A2CA5, 0x651E7ADFAFBBC8E1,
          0x9804B2D427A2DED, 0xD72A64434F174D89, 0xE08867E04CC6CE75, 0xCE0F02C676CF0871);
    Made(n, 1456, 0xCE0F02C676CF0871, 0x8CC6FF9F416BD03D, 0x878F54AAF3B0D399, 0x416DB57B79CE4545, 0x876FDF2A489B9901,
          0xEE5C0798BD590F8D, 0x9A7C2FDB17C1D2A9, 0x6F8345A2341D6115, 0xEDEE7E62EA100A91);
    Made(n, 1464, 0xEDEE7E62EA100A91, 0xD1B9B2A39B473BDD, 0x501EE1ED80575AB9, 0xFA0034500285F1E5, 0xCE4A56051ADBED21,
          0xB9AFDEE72688A52D, 0x3E2D00150CE77BC9, 0xBF9E5A8DD1AEC7B5, 0x7FEAB1E7C2FFD0B1);
  }

  lemma Buffer27(n: nat)
    ensures Generator(1528) == 0x70E3BF8FA1D5AB91
    ensures n >= 1480 ==> ReadLE64(TestBuffer(n), 1472) == 0xF6CF5AF1C6CF2D7F
    ensures n >= 1488 ==> ReadLE64(TestBuffer(n), 1480) == 0xA6B33A66EF0D935A
    ensures n >= 1496 ==> ReadLE64(TestBuffer(n), 1488) == 0xC38AA61BF546C85
    ensures n >= 1504 ==> ReadLE64(TestBuffer(n), 1496) == 0x234DA8AEA9979EFC
    ensures n >= 1512 ==> ReadLE64(TestBuffer(n), 1504) == 0x8CDF9B7594B632A7
    ensures n >= 1520 ==> ReadLE64(TestBuffer(n), 1512) == 0x276E18E9286D2E60
    ensures n >= 1528 ==> ReadLE64(TestBuffer(n), 1520) == 0xDE866B9938351DE6
  {
    hide Generator, TestBuffer, ReadLE64;
    Buffer26(n);
    Made(n, 1472, 0x7FEAB1E7C2FFD0B1, 0x2D3DB825C90C9B7D, 0xCF7FEF3B5B6145D9, 0xC615E169F0E3B285, 0xF1B37726515D4541,
          0x5A7E9CD8C0AF6ECD, 0xCF48F1C4C53CC8E9, 0xF6181A4913E58255, 0x5AFBEE1CDB46DAD1);
    Made(n, 1480, 0x5AFBEE1CDB46DAD1, 0x935F1825218A6F1D, 0xD66D6C5C58B14F9, 0xEFDC228829BA0725, 0x661CD6FB8D102161,
          0x3A7DB2127543EC6D, 0xB3BC903DD8063A09, 0xA658299BD87C10F5, 0x855A98BFFB9DA8F1);
    Made(n, 1488, 0x855A98BFFB9DA8F1, 0x6C053868475F36BD, 0x547F8344E1214819, 0xBF7644DF6E2B6FC5, 0x61025323E6F50181,
          0xAAA76EE4EE8C9E0D, 0x38872D812F184F29, 0xC71F81A167CF395, 0xFCB4A261FDCCBB11);
    Made(n, 1496, 0xFCB4A261FDCCBB11, 0x9E0D7A1CE2F9725D, 0x97B807B524005F39, 0xA9F0326625AA6C65, 0xAE2A2892321C65A1,
          0xA8BAD23EF1A003AD, 0x4DA5B6BC98D78849, 0x231D799B4842AA35, 0xA73434D02EAC9131);
    Made(n, 1504, 0xA73434D02EAC9131, 0x323F67369C97A1FD, 0xB69C0BEB0994DA59, 0x94542FA167F97D05, 0x75CC755F7DA6CDC1,
          0x9B357B32F8649D4D, 0xDFF684649A386569, 0x8C32EA271577B4D5, 0x60D56891F025AB51);
    Made(n, 1512, 0x60D56891F025AB51, 0x2E3480755648459D, 0x6D6B6DC504DB3979, 0x28E6331B472B21A5, 0xE94DA955D6C4B9E1,
          0x18FB38780B90EAED, 0x6E492E3080BF6689, 0x2765FBFF3D169375, 0xE67E41029B308971);
    Made(n, 1520, 0xE67E41029B308971, 0x1DA6F9FAA5E9DD3D, 0x35DF0FC3B25FFC99, 0x383DACAA59A1DA45, 0x990D693B4AB6AA01,
          0x6B873E4DDCAB6C8D, 0x86E51440B4810BA9, 0xDE5EE46EBF69C615, 0x70E3BF8FA1D5AB91);
  }

  lemma Buffer28(n: nat)
    ensures Generator(1584) == 0x9460DEDF2B230A71
    ensures n >= 1536 ==> ReadLE64(TestBuffer(n), 1528) == 0x5EDD6ACE752E9770
    ensures n >= 1544 ==> ReadLE64(TestBuffer(n), 1536) == 0xD6DFF4E0F684F187
    ensures n >= 1552 ==> ReadLE64(TestBuffer(n), 1544) == 0x452BE6B37833A478
    ensures n >= 1560 ==> ReadLE64(TestBuffer(n), 1552) == 0xD74E43AFEBBA1EC5
    ensures n >= 1568 ==> ReadLE64(TestBuffer(n), 1560) == 0x8536BBF45EC23A9E
    ensures n >= 1576 ==> ReadLE64(TestBuffer(n), 1568) == 0x391D310EF3DDA0E2
    ensures n >= 1584 ==> ReadLE64(TestBuffer(n), 1576) == 0xC4A984ABB7C7706E
  {
    hide Generator, TestBuffer, ReadLE64;
    Buffer27(n);
    Made(n, 1528, 0x70E3BF8FA1D5AB91, 0x977F91568F2AE8DD, 0x2EFE86D04A3FA3B9, 0x757977B2841026E5, 0xCE9589E528CD1E21,
          0x6AE1382C200AA22D, 0xDD3217B74A21D4C9, 0x5E387106480BCCB5, 0x87448FA2F12D91B1);
    Made(n, 1536, 0x87448FA2F12D91B1, 0xF15F24F37D89E87D, 0x846431F95226AED9, 0xF62D388703788785, 0xE037091B84689641,
          0xF4D838A526D50BCD, 0xDF7CE60AD4D641E9, 0xD62DA3EDD7E72755, 0x78A99DC19360BBD1);
    Made(n, 1544, 0x78A99DC19360BBD1, 0xA4B8D1C97E555C1D, 0x33B73FED8F519DF9, 0x787F8A15B72D7C25, 0xB3614B54F6F99261,
          0xE6EAF6E3B901296D, 0x2B2F435B7862D309, 0x45B34AF3AF3655F5, 0xC572DD6691A7A9F1);
    Made(n, 1552, 0xC572DD6691A7A9F1, 0x1ED11940BAABC3BD, 0xBA603EFD388CF119, 0xEB512603AAD184C5, 0xAFBE6652A2009281,
          0x43FBD62C2F557B0D, 0x4EE8E9123B1C0829, 0xD7AE9A007783D895, 0x9EBE9222164ADC11);
    Made(n, 1560, 0x9EBE9222164ADC11, 0x3A91EE2B317B9F5D, 0xC2710D6968352839, 0x5EC29662E0572165, 0xF4E1E1A4710E16A1,
          0xBB2BE0C8CD6880AD, 0x36D2D71297E66149, 0x85C50698ADAA2F35, 0xE277A184CEA2D231);
    Made(n, 1568, 0xE277A184CEA2D231, 0xA00E84BDB1836EFD, 0xDDC858C9CE36C359, 0xF31C05295A00D205, 0xE22171D9BC29EC1,
          0x312E2CC95BA0BA4D, 0x1DF15EC650365E69, 0x393777134BD3D9D5, 0x6ECFC45F8D180C51);
    Made(n, 1576, 0x6ECFC45F8D180C51, 0x70405E701351B29D, 0xC7875450A20E4279, 0xB78D6291646116A5, 0xAB8B3E4167CEAAE1,
          0x84C90DFE0134A7ED, 0xA944B84B7E107F89, 0xC42F4D2DB37B5875, 0x9460DEDF2B230A71);
  }

  lemma Buffer29(n: nat)
    ensures Generator(1640) == 0x50B60A82F47B6D51
    ensures n >= 1592 ==> ReadLE64(TestBuffer(n), 1584) == 0x1735DCDBBA901094
    ensures n >= 1600 ==> ReadLE64(TestBuffer(n), 1592) == 0xD5D484790E39E0A1
    ensures n >= 1608 ==> ReadLE64(TestBuffer(n), 1600) == 0x1B159D72F26A5361
    ensures n >= 1616 ==> ReadLE64(TestBuffer(n), 1608) == 0xF00CB6A145CC9509
    ensures n >= 1624 ==> ReadLE64(TestBuffer(n), 1616) == 0x5520B69C78DDE32C
    ensures n >= 1632 ==> ReadLE64(TestBuffer(n), 1624) == 0xD3EF8C8BC7C1838B
    ensures n >= 1640 ==> ReadLE64(TestBuffer(n), 1632) == 0x7952A36219C22C3E
  {
    hide Generator, TestBuffer, ReadLE64;
    Buffer28(n);
    Made(n, 1584, 0x9460DEDF2B230A71, 0x10ED47ACB344EA3D, 0x9061E6B4D4C82599, 0xBA88608B205A6F45, 0xDBC22EB02AF2BB01,
          0xDC4005955E2AC98D, 0x35D89B0CE60944A9, 0x172AE8A4D76B2B15, 0xA169580CAB4C4C91);
    Made(n, 1592, 0xA169580CAB4C4C91, 0xE037DA372B8B95DD, 0x390A498A8300ECB9, 0xE2DA6674D1F5BE5, 0x79A8069C8CFF4F21,
          0x84BC8CC5E5599F2D, 0xD49D1C0C89452DC9, 0xD524F37BA5BDD1B5, 0x6155FA399B2C52B1);
    Made(n, 1600, 0x6155FA399B2C52B1, 0x530D94324E24357D, 0x6A5CECD1A6E517D9, 0xF27F24E352325C85, 0x72A3235109D4E741,
          0x9DB0A4EA7667A8CD, 0x15A9FD287778BAE9, 0x1B7A1E96B1DDCC55, 0x954B6E0B56B9CD1);
    Made(n, 1608, 0x954B6E0B56B9CD1, 0x95EAB0AD5EDD491D, 0xCCE46A830A3126F9, 0x455697BE8965F125, 0xA1213ACDB3640361,
          0xB650847A37CB666D, 0xC85A1A1E0E86C09, 0xF047EA551E859AF5, 0x2CC29982C3C2AAF1);
    Made(n, 1616, 0x2CC29982C3C2AAF1, 0xE338ABA08D5550BD, 0xDD336EE378319A19, 0x78950700C8DC99C5, 0x9C35E68633AD2381,
          0xB6D4C543B0CB580D, 0x20D6052E6868C129, 0x5558ABCEC7BFBD95, 0x8B304607C0F9FD11);
    Made(n, 1624, 0x8B304607C0F9FD11, 0x8354B840AEFACC5D, 0xC14FB3652FC2F139, 0xC7327F1A2D08D665, 0x8BAC90480EC0C7A1,
          0x8CF02553237DFDAD, 0xEFA85BDBB55E3A49, 0xD381345FACE6B435, 0x3E37902C3AEA1331);
    Made(n, 1632, 0x3E37902C3AEA1331, 0x2C036D92390C3BFD, 0xC26182DF9551AC59, 0x19D83C0422AD2705, 0x6280735124BF6FC1,
          0xA3F738EC26C9D74D, 0x52DF6A0D45BD5769, 0x79EF56289AA4FED5, 0x50B60A82F47B6D51);
  }

  lemma Buffer30(n: nat)
    ensures Generator(1696) == 0x6F236EE9D4825431
    ensures n >= 1648 ==> ReadLE64(TestBuffer(n), 1640) == 0xC8B475A3FECEA250
    ensures n >= 1656 ==> ReadLE64(TestBuffer(n), 1648) == 0x14553B159D836264
    ensures n >= 1664 ==> ReadLE64(TestBuffer(n), 1656) == 0xA2F623D5D07DA116
    ensures n >= 1672 ==> ReadLE64(TestBuffer(n), 1664) == 0x9A7A8BFD59A6A49E
    ensures n >= 1680 ==> ReadLE64(TestBuffer(n), 1672) == 0x65470E58548C0C8E
    ensures n >= 1688 ==> ReadLE64(TestBuffer(n), 1680) == 0x5BD382AE1205FCE0
    ensures n >= 1696 ==> ReadLE64(TestBuffer(n), 1688) == 0x6B87FD92F6921674
  {
    hide Generator, TestBuffer, ReadLE64;
    Buffer29(n);
    Made(n, 1640, 0x50B60A82F47B6D51, 0xA2328A237A981F9D, 0xCEF2B6E524DA4B79, 0xFE17288BB0DC0BA5, 0xA3F5449E73D99BE1,
          0x755958FE806564ED, 0xB47D2CDC800A9889, 0xC821F52D14F51D75, 0x64F7DC92C7A68B71);
    Made(n, 1648, 0x64F7DC92C7A68B71, 0x625CECD6167CF73D, 0x83A2B6FFA3E94E99, 0x9D2CD7ED02F80445, 0x1583167B1A4FCC01,
          0x3B6CA67E3ED7268D, 0x55061423055A7DA9, 0x146F69B681219015, 0x1637C098C773ED91);
    Made(n, 1656, 0x1637C098C773ED91, 0xA123BD9FBD6942DD, 0x7D36BB9A939B35B9, 0xD03604E832B390E5, 0xD5F42C5798728021,
          0x23E7280713759C2D, 0xF64ED877435186C9, 0xA2F1ADA48FC4D6B5, 0x9E58BA76A1FC13B1);
    Made(n, 1664, 0x9E58BA76A1FC13B1, 0xA4AE3E2A27DB827D, 0xA6BA6F63E29C80D9, 0x59BB267752113185, 0xFD77B4F152A23841,
          0x8BE0D432EC6745CD, 0x7A45E063462433E9, 0x9ABD2352E6C97155, 0x8E27EA5542677DD1);
    Made(n, 1672, 0x8E27EA5542677DD1, 0xC93D73A5022361D, 0x8CE102EADF29AFF9, 0x5445CF4DB5636625, 0x588CC1D2534F7461,
          0xE99C80BCEA2A36D, 0x47DA311DCA970509, 0x6542B9BC0B69DFF5, 0xE08CCE83B2EEABF1);
    Made(n, 1680, 0xE08CCE83B2EEABF1, 0xFC6DB4C6EC5BDDBD, 0x565DF45690F4319, 0x123852487D4CAEC5, 0xAE8954314CFAB481,
          0x82B0F600EFEE350D, 0xD3A8100D8FFE7A29, 0x5BFCC6818C30A295, 0x7418591A3EDA1E11);
    Made(n, 1688, 0x7418591A3EDA1E11, 0x16229FA62876F95D, 0x92B25D8363A9BA39, 0xF6088AF860BF8B65, 0x92A5F839DC3478A1,
          0xFDAE46C710E07AAD, 0x87B2C35EEA3F1349, 0x6BDB23816AF83935, 0x6F236EE9D4825431);
  }

  lemma Buffer31(n: nat)
    ensures Generator(1752) == 0x873653B1D0EB3F11
    ensures n >= 1704 ==> ReadLE64(TestBuffer(n), 1696) == 0x1FF298DA6FAA546F
    ensures n >= 1712 ==> ReadLE64(TestBuffer(n), 1704) == 0x6827311217BB4316
    ensures n >= 1720 ==> ReadLE64(TestBuffer(n), 1712) == 0x5E9AEAE492C3447A
    ensures n >= 1728 ==> ReadLE64(TestBuffer(n), 1720) == 0xBDB03B5389F36EB
    ensures n >= 1736 ==> ReadLE64(TestBuffer(n), 1728) == 0x911F016025D28ACF
    ensures n >= 1744 ==> ReadLE64(TestBuffer(n), 1736) == 0x9805055F1A883C49
    ensures n >= 1752 ==> ReadLE64(TestBuffer(n), 1744) == 0x7A1C0A4C56FEFF19
  {
    hide Generator, TestBuffer, ReadLE64;
    Buffer30(n);
    Made(n, 1696, 0x6F236EE9D4825431, 0x5484C0BAA03208FD, 0xAAEF41B867E59559, 0x6F56AE6CB6FE7C05, 0xDAE328C5099D40C1,
          0x98F3728C16DFF44D, 0xF2CF48F393CD5069, 0x1FA2F2A0C6EB23D5, 0x1667B63FA74FCE51);
    Made(n, 1704, 0x1667B63FA74FCE51, 0x43619687991B8C9D, 0xBBC93163B63F5479, 0x17B5AD67C19C00A5, 0x1256968A0BE58CE1,
          0x3104C5E5E62321ED, 0x27A163F4BFADB189, 0x6874DF73C683E275, 0x7A760D0511BB0C71);
    Made(n, 1712, 0x7A760D0511BB0C71, 0x44A4A3147C92043D, 0xC3F2F5FE68C37799, 0x926FF624367A9945, 0xE4776ECF49CDDD01,
          0xEADA92E47BB0838D, 0x9ACF0A4F6B74B6A9, 0x5E3DCB6AC18CF515, 0xEBE88EC3B74C8E91);
    Made(n, 1720, 0xEBE88EC3B74C8E91, 0x3619350791C3EFDD, 0x9FBB1577E50E7EB9, 0x38B548D409CCC5E5, 0xB55DDEA39C26B121,
          0x3413BAF475E992D, 0xDB7A0462F146DFC9, 0xBCD862CAB20DBB5, 0xCF6EC415E69CD4B1);
    Made(n, 1728, 0xCF6EC415E69CD4B1, 0x8AA32BDFF7AFCF7D, 0xD24023688E4CE9D9, 0x2580D70078150685, 0x609F50A7CFD08941,
          0x16C9115C5D3E2CD, 0x1FC87A29D9D8ACE9, 0x910188C6BBAA1655, 0x491D660B3B545ED1);
    Made(n, 1736, 0x491D660B3B545ED1, 0x3CE5B436DF24231D, 0x88D426C2B73B38F9, 0x1ABE0AF35025DB25, 0x5F02447067BBE561,
          0x57FAC7B5A86E06D, 0x56F3224EE6E9E09, 0x98B29F595AE324F5, 0x19841109802BACF1);
    Made(n, 1744, 0x19841109802BACF1, 0xFF35B5F004BF6ABD, 0xFE5788C9D425EC19, 0x56D219517D21C3C5, 0x4CB61F879EE94581,
          0xA18798669BE120D, 0x1C6F6F508ADD3329, 0x7A3801EA49D68795, 0x873653B1D0EB3F11);
  }

  lemma Buffer32(n: nat)
    ensures Generator(1808) == 0x9AE2C9E54C79ADF1
    ensures n >= 1760 ==> ReadLE64(TestBuffer(n), 1752) == 0xE44517F894493A87
    ensures n >= 1768 ==> ReadLE64(TestBuffer(n), 1760) == 0xCF010AECA57992BD
    ensures n >= 1776 ==> ReadLE64(TestBuffer(n), 1768) == 0xDB61D10F0A1F87FD
    ensures n >= 1784 ==> ReadLE64(TestBuffer(n), 1776) == 0xA266A03D95023AB0
    ensures n >= 1792 ==> ReadLE64(TestBuffer(n), 1784) == 0xD9CF7A3A3DD8821F
    ensures n >= 1800 ==> ReadLE64(TestBuffer(n), 1792) == 0xAB7BE2B6AA4379F3
    ensures n >= 1808 ==> ReadLE64(TestBuffer(n), 1800) == 0x253C95A974F472E8
  {
    hide Generator, TestBuffer, ReadLE64;
    Buffer31(n);
    Made(n, 1752, 0x873653B1D0EB3F11, 0x3AD80B416AF0265D, 0x49A33B17ECE98339, 0x944CE40ED07B4065, 0xF890F917AA6929A1,
          0x17A1D0FAB28FF7AD, 0x45B2A46C2F88EC49, 0xE42C92040CDEBE35, 0xBD76B751FC6B9531);
    Made(n, 1760, 0xBD76B751FC6B9531, 0x92DD947A53F4D5FD, 0x79E41B794EF27E59, 0xA530BAE30BF4D105, 0xEC1322453B5C11C1,
          0xA7C5326E8E3114D, 0x1839BDC53664969, 0xCF07C7CA95A648D5, 0xFDCDB06A26952F51);
    Made(n, 1768, 0xFDCDB06A26952F51, 0x87E4D9717BDBF99D, 0x1FF315667F3D5D79, 0xA922A682BA0F5A5, 0xF1A0E4240F27DE1,
          0xD1A91D4D8F6DDEED, 0x613B3C6E75F9CA89, 0xDBDF4E2D2D27A775, 0xB04FD6CEAA608D71);
    Made(n, 1776, 0xB04FD6CEAA608D71, 0x3A9626829284113D, 0x2A219E46C56A099, 0x955B5009EFE22E45, 0x3D463E20EA6CEE01,
          0xA0BE027111B6E08D, 0x6672BC477157EFA9, 0xA29C62DD9DAD5A15, 0x1F7255EE3BD62F91);
    Made(n, 1784, 0x1F7255EE3BD62F91, 0x8247F002F59B9CDD, 0xD889BF92E05AC7B9, 0x3D550DEEA76AFAE5, 0x3AA5F56EE91BE221,
          0x7A3D1CEB1E14962D, 0xCFD1DC440C2538C9, 0xD9ECC3B49CD1E0B5, 0xF34E36C44A0E95B1);
    Made(n, 1792, 0xF34E36C44A0E95B1, 0x79D1C415AAA11C7D, 0x438235B132F652D9, 0xAA4FFF01393DDB85, 0xB63CBDA0F25FDA41,
          0xE2255B373FAD7FCD, 0x7BC1AF13CB9625E9, 0xAB8E482B757FBB55, 0xE85EF5FFA1323FD1);
    Made(n, 1800, 0xE85EF5FFA1323FD1, 0x72A02FC698E3101D, 0xF4802DE13B65C1F9, 0x74F330446EAD5025, 0xA9021F5681A95661,
          0x956B1758B8781D6D, 0x3C0F7856056F3709, 0x251A3A92F1F169F5, 0x9AE2C9E54C79ADF1);
  }

  lemma Buffer33(n: nat)
    ensures Generator(1864) == 0xC5D72540750120D1
    ensures n >= 1816 ==> ReadLE64(TestBuffer(n), 1808) == 0x461FBA9498A2389A
    ensures n >= 1824 ==> ReadLE64(TestBuffer(n), 1816) == 0x4CA89CB88D88F1AE
    ensures n >= 1832 ==> ReadLE64(TestBuffer(n), 1824) == 0x446A9C9CF68BA08C
    ensures n >= 1840 ==> ReadLE64(TestBuffer(n), 1832) == 0xE95680941A82FC50
    ensures n >= 1848 ==> ReadLE64(TestBuffer(n), 1840) == 0x6DA5389DFB13A67D
    ensures n >= 1856 ==> ReadLE64(TestBuffer(n), 1848) == 0x76F05342742ED4
    ensures n >= 1864 ==> ReadLE64(TestBuffer(n), 1856) == 0x891304BA62536F40
  {
    hide Generator, TestBuffer, ReadLE64;
    Buffer32(n);
    Made(n, 1808, 0x9AE2C9E54C79ADF1, 0x388FB955037FF7BD, 0xA26F797082759519, 0x986B69977D5BD8C5, 0x94F4797DDA78D681,
          0xBA32D5439B3AEF0D, 0x1F8359013204EC29, 0x467E19AF85B16C95, 0xAE4F0C77B82D6011);
    Made(n, 1816, 0xAE4F0C77B82D6011, 0xF1646E954366535D, 0x88BD4FEFB4824C39, 0x8D873513D13BF565, 0xB8637F604A5EDAA1,
          0x9CD8F1B1258C74AD, 0xA8BFC75C7E3BC549, 0x4CAEA062B79A4335, 0x8C8D6F6A13A5D631);
    Made(n, 1824, 0x8C8D6F6A13A5D631, 0xA0D28351C154A2FD, 0x8BF78DE053786759, 0xF6CDD92C16902605, 0x9CA4A79EAAFBE2C1,
          0x9C3B57C759D32E4D, 0x6A0D39D39D884269, 0x442BC609CBD66DD5, 0x5032F067F34B9051);
    Made(n, 1832, 0x5032F067F34B9051, 0xFC6F18932FD9669D, 0x8218B340A8D46679, 0x1A661EB483EAEAA5, 0x947EB72624006EE1,
          0x801240FBD9459BED, 0x5624F4ECDBEEE389, 0xE974DF39ADE06C75, 0x7D5BF53932970E71);
    Made(n, 1840, 0x7D5BF53932970E71, 0xA67A82B805531E3D, 0x132E02BDF7A2C999, 0xFB4100FC642EC345, 0x9DC494252D2CFF01,
          0x389E8F99FDEA3D8D, 0xA54295A9700428A9, 0x6DE71B801A82BF15, 0xD495884A1610D091);
    Made(n, 1848, 0xD495884A1610D091, 0x2EBB414335F049DD, 0x74E1DB54EE8010B9, 0x42884B20E08E2FE5, 0x5356AE08D0521321,
          0xF04381543497932D, 0x76E1BA980CEC91C9, 0x8251D209D7E5B5, 0x40FE5F1FAD5156B1);
    Made(n, 1856, 0x40FE5F1FAD5156B1, 0x6F86584A2DAF697D, 0x537C3F285998BBD9, 0x62DDAAC10A8BB085, 0xBA19888A2B502B41,
          0x4FA444896F41CCD, 0x133816E1B45C9EE9, 0x890C624F594A6055, 0xC5D72540750120D1);
  }

  lemma Buffer34(n: nat)
    ensures Generator(1920) == 0x71A5B7B6F16517B1
    ensures n >= 1872 ==> ReadLE64(TestBuffer(n), 1864) == 0x20D7062D51B5E3C5
    ensures n >= 1880 ==> ReadLE64(TestBuffer(n), 1872) == 0xD1419404DCFBE037
    ensures n >= 1888 ==> ReadLE64(TestBuffer(n), 1880) == 0xAA60573395B4441B
    ensures n >= 1896 ==> ReadLE64(TestBuffer(n), 1888) == 0xB276C8FB6E55EEB1
    ensures n >= 1904 ==> ReadLE64(TestBuffer(n), 1896) == 0xCD4DD25161223954
    ensures n >= 1912 ==> ReadLE64(TestBuffer(n), 1904) == 0x4895A465A089BC74
    ensures n >= 1920 ==> ReadLE64(TestBuffer(n), 1912) == 0x6E4A2B715849389
  {
    hide Generator, TestBuffer, ReadLE64;
    Buffer33(n);
    Made(n, 1864, 0xC5D72540750120D1, 0xE30AD86A0A5EFD1D, 0xB502735614A94AF9, 0x5117E53B25F9C525, 0x2DE358D43217C761,
          0x6A465E0C5765A6D, 0xD7D84398C898D009, 0x20D66903B594AEF5, 0x37D4771938D8AEF1);
    Made(n, 1872, 0x37D4771938D8AEF1, 0xE0F71F2C159D84BD, 0xFBA8BD923CFE3E19, 0xDCF5A19B32FAEDC5, 0x4F624C9B0A96781,
          0x944A1FF50164CC0D, 0x419ACC925E75A529, 0xD154924CC4C15195, 0x1BF2096635A08111);
    Made(n, 1880, 0x1BF2096635A08111, 0x440AB6C17ED9805D, 0xB4AA7D50A3741539, 0x95439E62B801AA65, 0x33D375738D158BA1,
          0x57FF359A86D5F1AD, 0x60153F11CF579E49, 0xAA9D968D902AC835, 0xB109AAA87B311731);
    Made(n, 1888, 0xB109AAA87B311731, 0xEE13B8FE55516FFD, 0x553937447E775059, 0x6E4B2F51CBD07B05, 0xFB166E9F497CB3C1,
          0xC8B05E0526B04B4D, 0x762E698E8B333B69, 0xB215B7D72E7B92D5, 0x544E1D2F8E72F151);
    Made(n, 1896, 0x544E1D2F8E72F151, 0x39A6367BC213D39D, 0x226EA2FE5C046F79, 0x619984595F79DFA5, 0x510CFEB5C60F5FE1,
          0xD23028E420AA58ED, 0x4DE784DC2A8CFC89, 0xCDD6912EADAE3175, 0x74C5393F4B5E8F71);
    Made(n, 1904, 0x74C5393F4B5E8F71, 0xBC835FC981FF2B3D, 0x896C637053A7F299, 0xA0647FDEC8605845, 0x6504DAD2430E1001,
          0xA4B0D4A23D4A9A8D, 0x95DFA7FCC07961A9, 0x48251C183D0D2415, 0x893A57DA06FC7191);
    Made(n, 1912, 0x893A57DA06FC7191, 0x93990B969FC1F6DD, 0x84F9CC20787E59B9, 0x1592C7788A3664E5, 0xB7311C21A2C94421,
          0xA224BBF127E7902D, 0xE48DB0E56C9CEAC9, 0x64E060F9732EAB5, 0x71A5B7B6F16517B1);
  }

  lemma Buffer35(n: nat)
    ensures Generator(1976) == 0x36BF9771CF991291
    ensures n >= 1928 ==> ReadLE64(TestBuffer(n), 1920) == 0x3853BC9A3B650F71
    ensures n >= 1936 ==> ReadLE64(TestBuffer(n), 1928) == 0x7C6AA9CD6BB194FB
    ensures n >= 1944 ==> ReadLE64(TestBuffer(n), 1936) == 0xFF03D6DF140189C8
    ensures n >= 1952 ==> ReadLE64(TestBuffer(n), 1944) == 0xC728DBB1A07EAA5
    ensures n >= 1960 ==> ReadLE64(TestBuffer(n), 1952) == 0x43BEE4B66405F236
    ensures n >= 1968 ==> ReadLE64(TestBuffer(n), 1960) == 0x1B05E9948552F315
    ensures n >= 1976 ==> ReadLE64(TestBuffer(n), 1968) == 0x7C023CC1A459C546
  {
    hide Generator, TestBuffer, ReadLE64;
    Buffer34(n);
    Made(n, 1920, 0x71A5B7B6F16517B1, 0xFB4B1B96DDAB67D, 0x6560EDD18B3424D9, 0x3BCE3F4C60FE8585, 0x9AB59491EBA17C41,
          0xBCF4CD0808A7B9CD, 0x5350B57D2D2C17E9, 0x38E1C495AC0A0555, 0xFBF35EECB7C101D1);
    Made(n, 1928, 0xFBF35EECB7C101D1, 0x94EB0FFEC097EA1D, 0xB1EC1E69EC05D3F9, 0x6B9E45368B0B3A25, 0xCD4951DA0A073861,
          0xA9CFE9FD5E81976D, 0x6A6C191DF0EB6909, 0x7C59CB7B8ACCF3F5, 0xC82FECD86648AFF1);
    Made(n, 1936, 0xC82FECD86648AFF1, 0x89436AA8681811BD, 0x19848E0CCBFE719, 0x1465C5E252FF02C5, 0xDF0646E1D27AF881,
          0xD63B1EA4193BA90D, 0x36E8BDFE92F5E29, 0xFF02DE128C063695, 0xA5AFE0C88A44A211);
    Made(n, 1944, 0xA5AFE0C88A44A211, 0xEADEB782EA49AD5D, 0x73A8AF9A2BEDE39, 0x1ADCAAFBD9CC5F65, 0xBBE4B492438D3CA1,
          0x8DB54553F36C6EAD, 0x728681F71BDC7749, 0xC71A8E9BB904D35, 0x368A0AF4940D5831);
    Made(n, 1952, 0x368A0AF4940D5831, 0xF28BFF7A7CEB3CFD, 0x5DCFF95D8EF3959, 0x644826A320B5D005, 0xB611AC1607DE84C1,
          0xE4E501050C7A684D, 0xBE871A6B35673469, 0x431AA6C08295B7D5, 0x15FC2E48790B5251);
    Made(n, 1960, 0x15FC2E48790B5251, 0xF3F7DF973F8B409D, 0x525B0D64C1CD7879, 0x85E60548534DD4A5, 0x944CE592381F50E1,
          0xE919E026C29C15ED, 0x501F5719AD41589, 0x1BB8C8569190F675, 0x46CD4A8C95B71071);
    Made(n, 1968, 0x46CD4A8C95B71071, 0xC5594F48B588383D, 0x59AD2AB9C9661B99, 0xA4C874195176ED45, 0xC1C7275F5D102101,
          0x3C9D0899CCD7F78D, 0x28123B1BBB79AA9, 0x7C536BC10A4C8915, 0x36BF9771CF991291);
  }

  lemma Buffer36(n: nat)
    ensures Generator(2032) == 0x2260687DB2A09171
    ensures n >= 1984 ==> ReadLE64(TestBuffer(n), 1976) == 0x1CE196FEFF5ED936
    ensures n >= 1992 ==> ReadLE64(TestBuffer(n), 1984) == 0x3D6F16E4147A56AA
    ensures n >= 2000 ==> ReadLE64(TestBuffer(n), 1992) == 0xE5D005771CD2B90
    ensures n >= 2008 ==> ReadLE64(TestBuffer(n), 2000) == 0x8D007E3E79FD2EED
    ensures n >= 2016 ==> ReadLE64(TestBuffer(n), 2008) == 0x9DCEEB5840AC4D6C
    ensures n >= 2024 ==> ReadLE64(TestBuffer(n), 2016) == 0xBEECF7076F7F0A35
    ensures n >= 2032 ==> ReadLE64(TestBuffer(n), 2024) == 0x3CAEEBA65DC7B4C4
  {
    hide Generator, TestBuffer, ReadLE64;
    Buffer35(n);
    Made(n, 1976, 0x36BF9771CF991291, 0xD91DAEE88010A3DD, 0x5EC2C050E755A2B9, 0xFF558F28796399E5, 0xFE1B9ACAB1817521,
          0x9696FA3595048D2D, 0xE1BC20BBA43643C9, 0x1CBFE4ECE9E2EFB5, 0xAA68EA09F749D8B1);
    Made(n, 1984, 0xAA68EA09F749D8B1, 0x56959E5C5823037D, 0x7AA2ADC950C88DD9, 0x14D48F74B1965A85, 0xE4F7AC67A453CD41,
          0x16E2C240D1C856CD, 0x6F3FB3F8CF0490E9, 0x3DC12DF6B2BEAA55, 0x90970F346A71E2D1);
    Made(n, 1992, 0x90970F346A71E2D1, 0x2B7738BF488DD71D, 0xCDB3EB9E6A7B5CF9, 0x717D95FAB2E1AF25, 0x575A76F99A77A961,
          0xB767456099D46D, 0x5D8E9C5F37670209, 0xE3D4AFF569A38F5, 0xED829686F5C9B0F1);
    Made(n, 2000, 0xED829686F5C9B0F1, 0x2E250EFA27EF9EBD, 0xFDEBDF66FABA9019, 0x7974D5F7926817C5, 0x3E0A38FDF0ED8981,
          0x7ED261A75FBF860D, 0xE4142EAB321729, 0x8DB7822660801B95, 0x6CC19A3AF719C311);
    Made(n, 2008, 0x6CC19A3AF719C311, 0x4D7F983352B6DA5D, 0xAC1330229B62A739, 0x408A45848B9C1465, 0x5877F5DE3EC5EDA1,
          0xEB75A267884FEBAD, 0xCE9D83005CCA5049, 0x9D2CBD515ECAD235, 0x35F141A6BF3A9931);
    Made(n, 2016, 0x35F141A6BF3A9931, 0xA8CCBFDA52209FD, 0x7FC0415D6BE02259, 0x6F9800B40A402505, 0x7CB24D2D72155C1,
          0xF74CF678C831854D, 0xEC8A1D70B5242D69, 0xBEE840688D24DCD5, 0xC4AC0CCB3414B351);
    Made(n, 2024, 0xC4AC0CCB3414B351, 0xB4EB372EB53FAD9D, 0xC7F3F4F2032F8179, 0x5D7F3057F466C9A5, 0xA6BD307D8B3041E1,
          0xEBDD82111C1AD2ED, 0xAE19BAAB65C42E89, 0x3CBE53B0BE88BB75, 0x2260687DB2A09171);
  }

  lemma Buffer37(n: nat)
    ensures Generator(2048) == 0x275ACF899FFF99B1
    ensures n >= 2040 ==> ReadLE64(TestBuffer(n), 2032) == 0xCE8BA6A82E039D22
    ensures n >= 2048 ==> ReadLE64(TestBuffer(n), 2040) == 0xC8169E5D049EDD62
  {
    hide Generator, TestBuffer, ReadLE64;
    Buffer36(n);
    Made(n, 2032, 0x2260687DB2A09171, 0x9DC719444CEE453D, 0x3D5EC31A1DD4499, 0x2E218A9934728245, 0xA84A8B44AC333201,
          0xA6B29C5DA992548D, 0x8B43D121BABED3A9, 0xCEA496EA8740EE15, 0x623A9BB630E6B391);
    Made(n, 2040, 0x623A9BB630E6B391, 0xDD54F54123DC50DD, 0x9EC53A3AA405EBB9, 0x4E068888315CEE5, 0x5D913D764D7AA621,
          0x9EC1810218EE8A2D, 0x162854B32CB89CC9, 0xC8B066DEA6E7F4B5, 0x275ACF899FFF99B1);
  }

  lemma DefaultFoldKeys()
    ensures ReadLE64(KSecret(), 11) == 0x6DD4DE1CAD21F72C
    ensures ReadLE64(KSecret(), 19) == 0xA44072DB979083E9
    ensures ReadLE64(KSecret(), 27) == 0xE679CB1F67B3B7A4
    ensures ReadLE64(KSecret(), 35) == 0xD05A8278E5C0CC4E
    ensures ReadLE64(KSecret(), 43) == 0x4608B82172FFCC7D
    ensures ReadLE64(KSecret(), 51) == 0x9035E08E2443F774
    ensures ReadLE64(KSecret(), 59) == 0x52283C4C263A81E6
    ensures ReadLE64(KSecret(), 67) == 0x65D088CB00C391BB
  {
    hide ReadLE64, KSecret, Pow2;
    assert Pow2(24) == 0x1000000 && Pow2(40) == 0x10000000000 by {
      PowersOfTwo();
    }
    Secret0();
    Secret1();
    Across(KSecret(), 8, 3, 0x1000000, 0x10000000000, 0x1CAD21F72C, 0x81017C, 0xDB979083E9, 0x6DD4DE);
    Across(KSecret(), 16, 3, 0x1000000, 0x10000000000, 0xDB979083E9, 0x6DD4DE, 0x1F67B3B7A4, 0xA44072);
    Across(KSecret(), 24, 3, 0x1000000, 0x10000000000, 0x1F67B3B7A4, 0xA44072, 0x78E5C0CC4E, 0xE679CB);
    Across(KSecret(), 32, 3, 0x1000000, 0x10000000000, 0x78E5C0CC4E, 0xE679CB, 0x2172FFCC7D, 0xD05A82);
    Across(KSecret(), 40, 3, 0x1000000, 0x10000000000, 0x2172FFCC7D, 0xD05A82, 0x8E2443F774, 0x4608B8);
    Across(KSecret(), 48, 3, 0x1000000, 0x10000000000, 0x8E2443F774, 0x4608B8, 0x4C263A81E6, 0x9035E0);
    Across(KSecret(), 56, 3, 0x1000000, 0x10000000000, 0x4C263A81E6, 0x9035E0, 0xCB00C391BB, 0x52283C);
    Across(KSecret(), 64, 3, 0x1000000, 0x10000000000, 0xCB00C391BB, 0x52283C, 0xA32E531B8B, 0x65D088);
  }

  lemma DefaultWideKeys()
    ensures ReadLE64(KSecret(), 117) == 0xD9C97E9FC83159B4
    ensures ReadLE64(KSecret(), 125) == 0x3483ACC5EA647378
    ensures ReadLE64(KSecret(), 133) == 0xFAFFA081C5C3EBD3
    ensures ReadLE64(KSecret(), 141) == 0xB751DD0D17EB6313
    ensures ReadLE64(KSecret(), 149) == 0x29265516D349DAF0
    ensures ReadLE64(KSecret(), 157) == 0x7D58BE162B9E68D4
    ensures ReadLE64(KSecret(), 165) == 0x7AD1B8F88FFCA147
    ensures ReadLE64(KSecret(), 173) == 0x958F3ACB45CE31D0
  {
    hide ReadLE64, KSecret, Pow2;
    assert Pow2(40) == 0x10000000000 && Pow2(24) == 0x1000000 by {
      PowersOfTwo();
    }
    Secret1();
    Secret2();
    Across(KSecret(), 112, 5, 0x10000000000, 0x1000000, 0x3159B4, 0xCD4BE0518A, 0x647378, 0xD9C97E9FC8);
    Across(KSecret(), 120, 5, 0x10000000000, 0x1000000, 0x647378, 0xD9C97E9FC8, 0xC3EBD3, 0x3483ACC5EA);
    Across(KSecret(), 128, 5, 0x10000000000, 0x1000000, 0xC3EBD3, 0x3483ACC5EA, 0xEB6313, 0xFAFFA081C5);
    Across(KSecret(), 136, 5, 0x10000000000, 0x1000000, 0xEB6313, 0xFAFFA081C5, 0x49DAF0, 0xB751DD0D17);
    Across(KSecret(), 144, 5, 0x10000000000, 0x1000000, 0x49DAF0, 0xB751DD0D17, 0x9E68D4, 0x29265516D3);
    Across(KSecret(), 152, 5, 0x10000000000, 0x1000000, 0x9E68D4, 0x29265516D3, 0xFCA147, 0x7D58BE162B);
    Across(KSecret(), 160, 5, 0x10000000000, 0x1000000, 0xFCA147, 0x7D58BE162B, 0xCE31D0, 0x7AD1B8F88F);
    Across(KSecret(), 168, 5, 0x10000000000, 0x1000000, 0xCE31D0, 0x7AD1B8F88F, 0x280416, 0x958F3ACB45);
  }

  lemma DefaultLastKeys()
    ensures ReadLE64(KSecret(), 121) == 0xEA647378D9C97E9F
    ensures ReadLE64(KSecret(), 129) == 0xC5C3EBD33483ACC5
    ensures ReadLE64(KSecret(), 137) == 0x17EB6313FAFFA081
    ensures ReadLE64(KSecret(), 145) == 0xD349DAF0B751DD0D
    ensures ReadLE64(KSecret(), 153) == 0x2B9E68D429265516
    ensures ReadLE64(KSecret(), 161) == 0x8FFCA1477D58BE16
    ensures ReadLE64(KSecret(), 169) == 0x45CE31D07AD1B8F8
    ensures ReadLE64(KSecret(), 177) == 0xAF280416958F3ACB
  {
    hide ReadLE64, KSecret, Pow2;
    assert Pow2(8) == 0x100 && Pow2(56) == 0x100000000000000 by {
      PowersOfTwo();
    }
    Secret1();
    Secret2();
    Across(KSecret(), 120, 1, 0x100, 0x100000000000000, 0x647378D9C97E9F, 0xC8, 0xC3EBD33483ACC5, 0xEA);
    Across(KSecret(), 128, 1, 0x100, 0x100000000000000, 0xC3EBD33483ACC5, 0xEA, 0xEB6313FAFFA081, 0xC5);
    Across(KSecret(), 136, 1, 0x100, 0x100000000000000, 0xEB6313FAFFA081, 0xC5, 0x49DAF0B751DD0D, 0x17);
    Across(KSecret(), 144, 1, 0x100, 0x100000000000000, 0x49DAF0B751DD0D, 0x17, 0x9E68D429265516, 0xD3);
    Across(KSecret(), 152, 1, 0x100, 0x100000000000000, 0x9E68D429265516, 0xD3, 0xFCA1477D58BE16, 0x2B);
    Across(KSecret(), 160, 1, 0x100, 0x100000000000000, 0xFCA1477D58BE16, 0x2B, 0xCE31D07AD1B8F8, 0x8F);
    Across(KSecret(), 168, 1, 0x100, 0x100000000000000, 0xCE31D07AD1B8F8, 0x8F, 0x280416958F3ACB, 0x45);
    Across(KSecret(), 176, 1, 0x100, 0x100000000000000, 0x280416958F3ACB, 0x45, 0x7E404BBBCAFBD7, 0xAF);
  }

  lemma Stripe0()
    ensures Accumulate512([0xC2B2AE3D, 0x9E3779B185EBCA87, 0xC2B2AE3D27D4EB4F, 0x165667B19E3779F9,
          0x85EBCA77C2B2AE63, 0x85EBCA77, 0x27D4EB2F165667C5, 0x9E3779B1], Window(TestBuffer(2048), 0),
          Window(KSecret(), 0)) ==
            [0xF65A36A2039158CA, 0x2A5B24E970F04150, 0xBA1A870F589F167, 0xBC3BFCEA53AC811F, 0xE1EC8AFABC5F44B6,
                  0x3773C5D9C03AF696, 0xD2030499AA8DE48D, 0x7E3EB4A4F7C0A071]
  {
    hide Xor, Generator, ReadLE64, TestBuffer, KSecret, Accumulate512, Window;
    var acc: Acc := [0xC2B2AE3D, 0x9E3779B185EBCA87, 0xC2B2AE3D27D4EB4F, 0x165667B19E3779F9, 0x85EBCA77C2B2AE63,
          0x85EBCA77, 0x27D4EB2F165667C5, 0x9E3779B1];
    var input, secret := TestBuffer(2048), KSecret();
    Buffer0(2048);
    Buffer1(2048);
    Secret0();
    XorIs(0x24, 0xa3, 0x32, 0xb7, 0x9b, 0x92, 0x52, 0x00, 0xbe, 0x4b, 0xa4, 0x23, 0x39, 0x6c, 0xfe, 0xb8);
    LaneIs(acc, input, 0, secret, 0, 0, 0xC2B2AE3D, 0x93B8EC0E95AF002D, 0x24A332B79B925200, 0xBE4BA423396CFEB8,
          0x9AE89694A2FEACB8, 0x9AE89694, 0xA2FEACB8, 0x0, 0xF65A36A2039158CA);
    XorIs(0x93, 0xb8, 0xec, 0x0e, 0x95, 0xaf, 0x00, 0x2d, 0x1c, 0xad, 0x21, 0xf7, 0x2c, 0x81, 0x01, 0x7c);
    LaneIs(acc, input, 0, secret, 0, 1, 0x9E3779B185EBCA87, 0x24A332B79B925200, 0x93B8EC0E95AF002D,
          0x1CAD21F72C81017C, 0x8F15CDF9B92E0151, 0x8F15CDF9, 0xB92E0151, 0x1, 0x2A5B24E970F04150);
    XorIs(0x2a, 0xcd, 0xd6, 0xaa, 0x93, 0xef, 0xdf, 0xe3, 0xdb, 0x97, 0x90, 0x83, 0xe9, 0x6d, 0xd4, 0xde);
    LaneIs(acc, input, 0, secret, 0, 2, 0xC2B2AE3D27D4EB4F, 0xD56F5A543F5C8B53, 0x2ACDD6AA93EFDFE3,
          0xDB979083E96DD4DE, 0xF15A46297A820B3D, 0xF15A4629, 0x7A820B3D, 0x2, 0xBA1A870F589F167);
    XorIs(0xd5, 0x6f, 0x5a, 0x54, 0x3f, 0x5c, 0x8b, 0x53, 0x1f, 0x67, 0xb3, 0xb7, 0xa4, 0xa4, 0x40, 0x72);
    LaneIs(acc, input, 0, secret, 0, 3, 0x165667B19E3779F9, 0x2ACDD6AA93EFDFE3, 0xD56F5A543F5C8B53,
          0x1F67B3B7A4A44072, 0xCA08E9E39BF8CB21, 0xCA08E9E3, 0x9BF8CB21, 0x0, 0xBC3BFCEA53AC811F);
    XorIs(0x33, 0xb9, 0x85, 0x8f, 0xfc, 0xff, 0xc0, 0x59, 0x78, 0xe5, 0xc0, 0xcc, 0x4e, 0xe6, 0x79, 0xcb);
    LaneIs(acc, input, 0, secret, 0, 4, 0x85EBCA77C2B2AE63, 0x279305B6F774AB1D, 0x33B9858FFCFFC059,
          0x78E5C0CC4EE679CB, 0x4B5C4543B219B992, 0x4B5C4543, 0xB219B992, 0x0, 0xE1EC8AFABC5F44B6);
    XorIs(0x27, 0x93, 0x05, 0xb6, 0xf7, 0x74, 0xab, 0x1d, 0x21, 0x72, 0xff, 0xcc, 0x7d, 0xd0, 0x5a, 0x82);
    LaneIs(acc, input, 0, secret, 0, 5, 0x85EBCA77, 0x33B9858FFCFFC059, 0x279305B6F774AB1D, 0x2172FFCC7DD05A82,
          0x6E1FA7A8AA4F19F, 0x6E1FA7A, 0x8AA4F19F, 0x0, 0x3773C5D9C03AF696);
    XorIs(0x76, 0x9f, 0x7c, 0x67, 0xb3, 0x84, 0x70, 0xb0, 0x8e, 0x24, 0x43, 0xf7, 0x74, 0x46, 0x08, 0xb8);
    LaneIs(acc, input, 0, secret, 0, 6, 0x27D4EB2F165667C5, 0xE817987BED720048, 0x769F7C67B38470B0,
          0x8E2443F7744608B8, 0xF8BB3F90C7C27808, 0xF8BB3F90, 0xC7C27808, 0x1, 0xD2030499AA8DE48D);
    XorIs(0xe8, 0x17, 0x98, 0x7b, 0xed, 0x72, 0x00, 0x48, 0x4c, 0x26, 0x3a, 0x81, 0xe6, 0x90, 0x35, 0xe0);
    LaneIs(acc, input, 0, secret, 0, 7, 0x9E3779B1, 0x769F7C67B38470B0, 0xE817987BED720048, 0x4C263A81E69035E0,
          0xA431A2FA0BE235A8, 0xA431A2FA, 0xBE235A8, 0x0, 0x7E3EB4A4F7C0A071);
  }

  lemma Stripe1()
    ensures Accumulate512([0xF65A36A2039158CA, 0x2A5B24E970F04150, 0xBA1A870F589F167, 0xBC3BFCEA53AC811F,
          0xE1EC8AFABC5F44B6, 0x3773C5D9C03AF696, 0xD2030499AA8DE48D, 0x7E3EB4A4F7C0A071], Window(TestBuffer(2048),
          64), Window(KSecret(), 8)) ==
            [0xEE609BB3F41B60E4, 0xA50F5F706A992C7F, 0xC131FA51A06A7C14, 0x3FB58F23D3E54125, 0x3CE602C47BFA88CA,
                  0x464563826DD62A6D, 0x7206CCA2AA226A28, 0xFE83470B00D22618]
  {
    hide Xor, Generator, ReadLE64, TestBuffer, KSecret, Accumulate512, Window;
    var acc: Acc := [0xF65A36A2039158CA, 0x2A5B24E970F04150, 0xBA1A870F589F167, 0xBC3BFCEA53AC811F,
          0xE1EC8AFABC5F44B6, 0x3773C5D9C03AF696, 0xD2030499AA8DE48D, 0x7E3EB4A4F7C0A071];
    var input, secret := TestBuffer(2048), KSecret();
    Buffer1(2048);
    Buffer2(2048);
    Secret0();
    Secret1();
    XorIs(0x65, 0xd0, 0xcb, 0x0c, 0x0c, 0x5e, 0x48, 0xdd, 0x1c, 0xad, 0x21, 0xf7, 0x2c, 0x81, 0x01, 0x7c);
    LaneIs(acc, input, 64, secret, 8, 0, 0xF65A36A2039158CA, 0xE86CB0118FB2AD3F, 0x65D0CB0C0C5E48DD,
          0x1CAD21F72C81017C, 0x797DEAFB20DF49A1, 0x797DEAFB, 0x20DF49A1, 0x1, 0xEE609BB3F41B60E4);
    XorIs(0xe8, 0x6c, 0xb0, 0x11, 0x8f, 0xb2, 0xad, 0x3f, 0xdb, 0x97, 0x90, 0x83, 0xe9, 0x6d, 0xd4, 0xde);
    LaneIs(acc, input, 64, secret, 8, 1, 0x2A5B24E970F04150, 0x65D0CB0C0C5E48DD, 0xE86CB0118FB2AD3F,
          0xDB979083E96DD4DE, 0x33FB209266DF79E1, 0x33FB2092, 0x66DF79E1, 0x0, 0xA50F5F706A992C7F);
    XorIs(0x56, 0x59, 0x61, 0x08, 0x86, 0xf1, 0xb0, 0x8d, 0x1f, 0x67, 0xb3, 0xb7, 0xa4, 0xa4, 0x40, 0x72);
    LaneIs(acc, input, 64, secret, 8, 2, 0xBA1A870F589F167, 0xABBD6313784E8E6C, 0x5659610886F1B08D,
          0x1F67B3B7A4A44072, 0x493ED2BF2255F0FF, 0x493ED2BF, 0x2255F0FF, 0x0, 0xC131FA51A06A7C14);
    XorIs(0xab, 0xbd, 0x63, 0x13, 0x78, 0x4e, 0x8e, 0x6c, 0x78, 0xe5, 0xc0, 0xcc, 0x4e, 0xe6, 0x79, 0xcb);
    LaneIs(acc, input, 64, secret, 8, 3, 0xBC3BFCEA53AC811F, 0x5659610886F1B08D, 0xABBD6313784E8E6C,
          0x78E5C0CC4EE679CB, 0xD358A3DF36A8F7A7, 0xD358A3DF, 0x36A8F7A7, 0x1, 0x3FB58F23D3E54125);
    XorIs(0xd9, 0x2f, 0x71, 0xea, 0x09, 0x73, 0x32, 0x9d, 0x21, 0x72, 0xff, 0xcc, 0x7d, 0xd0, 0x5a, 0x82);
    LaneIs(acc, input, 64, secret, 8, 4, 0xE1EC8AFABC5F44B6, 0xE9D08ACAF0559D7A, 0xD92F71EA0973329D,
          0x2172FFCC7DD05A82, 0xF85D8E2674A3681F, 0xF85D8E26, 0x74A3681F, 0x2, 0x3CE602C47BFA88CA);
    XorIs(0xe9, 0xd0, 0x8a, 0xca, 0xf0, 0x55, 0x9d, 0x7a, 0x8e, 0x24, 0x43, 0xf7, 0x74, 0x46, 0x08, 0xb8);
    LaneIs(acc, input, 64, secret, 8, 5, 0x3773C5D9C03AF696, 0xD92F71EA0973329D, 0xE9D08ACAF0559D7A,
          0x8E2443F7744608B8, 0x67F4C93D841395C2, 0x67F4C93D, 0x841395C2, 0x1, 0x464563826DD62A6D);
    XorIs(0x51, 0xca, 0x0f, 0x6b, 0xb3, 0x36, 0x1a, 0x5e, 0x4c, 0x26, 0x3a, 0x81, 0xe6, 0x90, 0x35, 0xe0);
    LaneIs(acc, input, 64, secret, 8, 6, 0xD2030499AA8DE48D, 0x9600ED62C4A28BEF, 0x51CA0F6BB3361A5E,
          0x4C263A81E69035E0, 0x1DEC35EA55A62FBE, 0x1DEC35EA, 0x55A62FBE, 0x1, 0x7206CCA2AA226A28);
    XorIs(0x96, 0x00, 0xed, 0x62, 0xc4, 0xa2, 0x8b, 0xef, 0xcb, 0x00, 0xc3, 0x91, 0xbb, 0x52, 0x28, 0x3c);
    LaneIs(acc, input, 64, secret, 8, 7, 0x7E3EB4A4F7C0A071, 0x51CA0F6BB3361A5E, 0x9600ED62C4A28BEF,
          0xCB00C391BB52283C, 0x5D002EF37FF0A3D3, 0x5D002EF3, 0x7FF0A3D3, 0x0, 0xFE83470B00D22618);
  }

  lemma Stripe2()
    ensures Accumulate512([0xEE609BB3F41B60E4, 0xA50F5F706A992C7F, 0xC131FA51A06A7C14, 0x3FB58F23D3E54125,
          0x3CE602C47BFA88CA, 0x464563826DD62A6D, 0x7206CCA2AA226A28, 0xFE83470B00D22618], Window(TestBuffer(2048),
          128), Window(KSecret(), 16)) ==
            [0xBE3C7E9ECBD11021, 0x9F4AB9BDDB915859, 0x2F936EC0510B901, 0x627DE00FADA0EB7E, 0xD7C682859C033547,
                  0x9B0D43921773F401, 0x272A6C40C32F2FB2, 0x9E01D9B12D4AAEC1]
  {
    hide Xor, Generator, ReadLE64, TestBuffer, KSecret, Accumulate512, Window;
    var acc: Acc := [0xEE609BB3F41B60E4, 0xA50F5F706A992C7F, 0xC131FA51A06A7C14, 0x3FB58F23D3E54125,
          0x3CE602C47BFA88CA, 0x464563826DD62A6D, 0x7206CCA2AA226A28, 0xFE83470B00D22618];
    var input, secret := TestBuffer(2048), KSecret();
    Buffer2(2048);
    Buffer3(2048);
    Secret0();
    Secret1();
    XorIs(0x92, 0x3b, 0xd1, 0x0f, 0xeb, 0x49, 0x34, 0xf3, 0xdb, 0x97, 0x90, 0x83, 0xe9, 0x6d, 0xd4, 0xde);
    LaneIs(acc, input, 128, secret, 16, 0, 0xEE609BB3F41B60E4, 0xCF3DEDAADB63A9A1, 0x923BD10FEB4934F3,
          0xDB979083E96DD4DE, 0x49AC418C0224E02D, 0x49AC418C, 0x224E02D, 0x1, 0xBE3C7E9ECBD11021);
    XorIs(0xcf, 0x3d, 0xed, 0xaa, 0xdb, 0x63, 0xa9, 0xa1, 0x1f, 0x67, 0xb3, 0xb7, 0xa4, 0xa4, 0x40, 0x72);
    LaneIs(acc, input, 128, secret, 16, 1, 0xA50F5F706A992C7F, 0x923BD10FEB4934F3, 0xCF3DEDAADB63A9A1,
          0x1F67B3B7A4A44072, 0xD05A5E1D7FC7E9D3, 0xD05A5E1D, 0x7FC7E9D3, 0x1, 0x9F4AB9BDDB915859);
    XorIs(0xa2, 0x21, 0xb3, 0xf9, 0xcd, 0x42, 0x09, 0xf1, 0x78, 0xe5, 0xc0, 0xcc, 0x4e, 0xe6, 0x79, 0xcb);
    LaneIs(acc, input, 128, secret, 16, 2, 0xC131FA51A06A7C14, 0xD1482FE4F4C8F2EB, 0xA221B3F9CD4209F1,
          0x78E5C0CC4EE679CB, 0xDAC4733583A4703A, 0xDAC47335, 0x83A4703A, 0x2, 0x2F936EC0510B901);
    XorIs(0xd1, 0x48, 0x2f, 0xe4, 0xf4, 0xc8, 0xf2, 0xeb, 0x21, 0x72, 0xff, 0xcc, 0x7d, 0xd0, 0x5a, 0x82);
    LaneIs(acc, input, 128, secret, 16, 3, 0x3FB58F23D3E54125, 0xA221B3F9CD4209F1, 0xD1482FE4F4C8F2EB,
          0x2172FFCC7DD05A82, 0xF03AD0288918A869, 0xF03AD028, 0x8918A869, 0x1, 0x627DE00FADA0EB7E);
    XorIs(0x4a, 0xf8, 0xec, 0xef, 0xc2, 0xf4, 0x10, 0x4b, 0x8e, 0x24, 0x43, 0xf7, 0x74, 0x46, 0x08, 0xb8);
    LaneIs(acc, input, 128, secret, 16, 4, 0x3CE602C47BFA88CA, 0xE62A6A4C37438B5, 0x4AF8ECEFC2F4104B,
          0x8E2443F7744608B8, 0xC4DCAF18B6B218F3, 0xC4DCAF18, 0xB6B218F3, 0x0, 0xD7C682859C033547);
    XorIs(0x0e, 0x62, 0xa6, 0xa4, 0xc3, 0x74, 0x38, 0xb5, 0x4c, 0x26, 0x3a, 0x81, 0xe6, 0x90, 0x35, 0xe0);
    LaneIs(acc, input, 128, secret, 16, 5, 0x464563826DD62A6D, 0x4AF8ECEFC2F4104B, 0xE62A6A4C37438B5,
          0x4C263A81E69035E0, 0x42449C2525E40D55, 0x42449C25, 0x25E40D55, 0x0, 0x9B0D43921773F401);
    XorIs(0x98, 0x86, 0xe3, 0x41, 0x37, 0x63, 0xfd, 0xbf, 0xcb, 0x00, 0xc3, 0x91, 0xbb, 0x52, 0x28, 0x3c);
    LaneIs(acc, input, 128, secret, 16, 6, 0x7206CCA2AA226A28, 0x87660356BA4CEB1A, 0x9886E3413763FDBF,
          0xCB00C391BB52283C, 0x538620D08C31D583, 0x538620D0, 0x8C31D583, 0x1, 0x272A6C40C32F2FB2);
    XorIs(0x87, 0x66, 0x03, 0x56, 0xba, 0x4c, 0xeb, 0x1a, 0xa3, 0x2e, 0x53, 0x1b, 0x8b, 0x65, 0xd0, 0x88);
    LaneIs(acc, input, 128, secret, 16, 7, 0xFE83470B00D22618, 0x9886E3413763FDBF, 0x87660356BA4CEB1A,
          0xA32E531B8B65D088, 0x2448504D31293B92, 0x2448504D, 0x31293B92, 0x1, 0x9E01D9B12D4AAEC1);
  }

  lemma Stripe3()
    ensures Accumulate512([0xBE3C7E9ECBD11021, 0x9F4AB9BDDB915859, 0x2F936EC0510B901, 0x627DE00FADA0EB7E,
          0xD7C682859C033547, 0x9B0D43921773F401, 0x272A6C40C32F2FB2, 0x9E01D9B12D4AAEC1], Window(TestBuffer(2048),
          192), Window(KSecret(), 24)) ==
            [0xEDF308BF63FCCC2E, 0x64A0DB5D19C3616E, 0xE45EBD40981339F0, 0xADBB6F8A838D9442, 0xA9310E99C04C0E84,
                  0x40B5826009308186, 0xF553ADE632D0E2C5, 0xC47129C94EE206CB]
  {
    hide Xor, Generator, ReadLE64, TestBuffer, KSecret, Accumulate512, Window;
    var acc: Acc := [0xBE3C7E9ECBD11021, 0x9F4AB9BDDB915859, 0x2F936EC0510B901, 0x627DE00FADA0EB7E,
          0xD7C682859C033547, 0x9B0D43921773F401, 0x272A6C40C32F2FB2, 0x9E01D9B12D4AAEC1];
    var input, secret := TestBuffer(2048), KSecret();
    Buffer3(2048);
    Buffer4(2048);
    Secret0();
    Secret1();
    XorIs(0xb6, 0x44, 0x85, 0xc1, 0x59, 0x45, 0x00, 0xed, 0x1f, 0x67, 0xb3, 0xb7, 0xa4, 0xa4, 0x40, 0x72);
    LaneIs(acc, input, 192, secret, 24, 0, 0xBE3C7E9ECBD11021, 0x87F9EAA941F968C3, 0xB64485C1594500ED,
          0x1F67B3B7A4A44072, 0xA9233676FDE1409F, 0xA9233676, 0xFDE1409F, 0x1, 0xEDF308BF63FCCC2E);
    XorIs(0x87, 0xf9, 0xea, 0xa9, 0x41, 0xf9, 0x68, 0xc3, 0x78, 0xe5, 0xc0, 0xcc, 0x4e, 0xe6, 0x79, 0xcb);
    LaneIs(acc, input, 192, secret, 24, 1, 0x9F4AB9BDDB915859, 0xB64485C1594500ED, 0x87F9EAA941F968C3,
          0x78E5C0CC4EE679CB, 0xFF1C2A650F1F1108, 0xFF1C2A65, 0xF1F1108, 0x1, 0x64A0DB5D19C3616E);
    XorIs(0x48, 0x54, 0x14, 0xd5, 0xd0, 0x12, 0x9f, 0xe0, 0x21, 0x72, 0xff, 0xcc, 0x7d, 0xd0, 0x5a, 0x82);
    LaneIs(acc, input, 192, secret, 24, 2, 0x2F936EC0510B901, 0x9A0638E35140445D, 0x485414D5D0129FE0,
          0x2172FFCC7DD05A82, 0x6926EB19ADC2C562, 0x6926EB19, 0xADC2C562, 0x0, 0xE45EBD40981339F0);
    XorIs(0x9a, 0x06, 0x38, 0xe3, 0x51, 0x40, 0x44, 0x5d, 0x8e, 0x24, 0x43, 0xf7, 0x74, 0x46, 0x08, 0xb8);
    LaneIs(acc, input, 192, secret, 24, 3, 0x627DE00FADA0EB7E, 0x485414D5D0129FE0, 0x9A0638E35140445D,
          0x8E2443F7744608B8, 0x14227B1425064CE5, 0x14227B14, 0x25064CE5, 0x0, 0xADBB6F8A838D9442);
    XorIs(0xa3, 0xf8, 0x89, 0x64, 0xef, 0x0d, 0x3c, 0x4c, 0x4c, 0x26, 0x3a, 0x81, 0xe6, 0x90, 0x35, 0xe0);
    LaneIs(acc, input, 192, secret, 24, 4, 0xD7C682859C033547, 0xC868931CC5E3EE61, 0xA3F88964EF0D3C4C,
          0x4C263A81E69035E0, 0xEFDEB3E5099D09AC, 0xEFDEB3E5, 0x99D09AC, 0x1, 0xA9310E99C04C0E84);
    XorIs(0xc8, 0x68, 0x93, 0x1c, 0xc5, 0xe3, 0xee, 0x61, 0xcb, 0x00, 0xc3, 0x91, 0xbb, 0x52, 0x28, 0x3c);
    LaneIs(acc, input, 192, secret, 24, 5, 0x9B0D43921773F401, 0xA3F88964EF0D3C4C, 0xC868931CC5E3EE61,
          0xCB00C391BB52283C, 0x368508D7EB1C65D, 0x368508D, 0x7EB1C65D, 0x1, 0x40B5826009308186);
    XorIs(0xa8, 0x97, 0xff, 0x98, 0x09, 0xd7, 0x97, 0xe5, 0xa3, 0x2e, 0x53, 0x1b, 0x8b, 0x65, 0xd0, 0x88);
    LaneIs(acc, input, 192, secret, 24, 6, 0x272A6C40C32F2FB2, 0xC82CCDAB79A4EA4C, 0xA897FF9809D797E5,
          0xA32E531B8B65D088, 0xBB9AC8382B2476D, 0xBB9AC83, 0x82B2476D, 0x0, 0xF553ADE632D0E2C5);
    XorIs(0xc8, 0x2c, 0xcd, 0xab, 0x79, 0xa4, 0xea, 0x4c, 0x4e, 0xf9, 0x0d, 0xa2, 0x97, 0x48, 0x64, 0x71);
    LaneIs(acc, input, 192, secret, 24, 7, 0x9E01D9B12D4AAEC1, 0xA897FF9809D797E5, 0xC82CCDAB79A4EA4C,
          0x4EF90DA297486471, 0x86D5C009EEEC8E3D, 0x86D5C009, 0xEEEC8E3D, 0x1, 0xC47129C94EE206CB);
  }

  lemma Stripe4()
    ensures Accumulate512([0xEDF308BF63FCCC2E, 0x64A0DB5D19C3616E, 0xE45EBD40981339F0, 0xADBB6F8A838D9442,
          0xA9310E99C04C0E84, 0x40B5826009308186, 0xF553ADE632D0E2C5, 0xC47129C94EE206CB], Window(TestBuffer(2048),
          256), Window(KSecret(), 32)) ==
            [0x94CFEB4DD5AE3B0E, 0x569E696F1C71BA43, 0x430EBD5B803DAEA2, 0xECF909405696407, 0x1DA2BE21C472FA8,
                  0x64DDDFDC0782EB14, 0x1AFC1F6D0D6D64D, 0x3D20FB6CD162E8C2]
  {
    hide Xor, Generator, ReadLE64, TestBuffer, KSecret, Accumulate512, Window;
    var acc: Acc := [0xEDF308BF63FCCC2E, 0x64A0DB5D19C3616E, 0xE45EBD40981339F0, 0xADBB6F8A838D9442,
          0xA9310E99C04C0E84, 0x40B5826009308186, 0xF553ADE632D0E2C5, 0xC47129C94EE206CB];
    var input, secret := TestBuffer(2048), KSecret();
    Buffer4(2048);
    Buffer5(2048);
    Secret0();
    Secret1();
    XorIs(0x50, 0x82, 0xe2, 0xce, 0xf1, 0xf2, 0x1b, 0x9f, 0x78, 0xe5, 0xc0, 0xcc, 0x4e, 0xe6, 0x79, 0xcb);
    LaneIs(acc, input, 256, secret, 32, 0, 0xEDF308BF63FCCC2E, 0x88B4B89B8EAD8238, 0x5082E2CEF1F21B9F,
          0x78E5C0CC4EE679CB, 0x28672202BF146254, 0x28672202, 0xBF146254, 0x1, 0x94CFEB4DD5AE3B0E);
    XorIs(0x88, 0xb4, 0xb8, 0x9b, 0x8e, 0xad, 0x82, 0x38, 0x21, 0x72, 0xff, 0xcc, 0x7d, 0xd0, 0x5a, 0x82);
    LaneIs(acc, input, 256, secret, 32, 1, 0x64A0DB5D19C3616E, 0x5082E2CEF1F21B9F, 0x88B4B89B8EAD8238,
          0x2172FFCC7DD05A82, 0xA9C64757F37DD8BA, 0xA9C64757, 0xF37DD8BA, 0x1, 0x569E696F1C71BA43);
    XorIs(0x48, 0x65, 0xa9, 0xd9, 0x36, 0xb6, 0x8e, 0x81, 0x8e, 0x24, 0x43, 0xf7, 0x74, 0x46, 0x08, 0xb8);
    LaneIs(acc, input, 256, secret, 32, 2, 0xE45EBD40981339F0, 0x2AD8BBFCDBC93C74, 0x4865A9D936B68E81,
          0x8E2443F7744608B8, 0xC641EA2E42F08639, 0xC641EA2E, 0x42F08639, 0x1, 0x430EBD5B803DAEA2);
    XorIs(0x2a, 0xd8, 0xbb, 0xfc, 0xdb, 0xc9, 0x3c, 0x74, 0x4c, 0x26, 0x3a, 0x81, 0xe6, 0x90, 0x35, 0xe0);
    LaneIs(acc, input, 256, secret, 32, 3, 0xADBB6F8A838D9442, 0x4865A9D936B68E81, 0x2AD8BBFCDBC93C74,
          0x4C263A81E69035E0, 0x66FE817D3D590994, 0x66FE817D, 0x3D590994, 0x1, 0xECF909405696407);
    XorIs(0xab, 0x67, 0xb2, 0xe2, 0x24, 0xb4, 0x9e, 0x22, 0xcb, 0x00, 0xc3, 0x91, 0xbb, 0x52, 0x28, 0x3c);
    LaneIs(acc, input, 256, secret, 32, 4, 0xA9310E99C04C0E84, 0x1C71FC4D2AE213AA, 0xAB67B2E224B49E22,
          0xCB00C391BB52283C, 0x606771739FE6B61E, 0x60677173, 0x9FE6B61E, 0x1, 0x1DA2BE21C472FA8);
    XorIs(0x1c, 0x71, 0xfc, 0x4d, 0x2a, 0xe2, 0x13, 0xaa, 0xa3, 0x2e, 0x53, 0x1b, 0x8b, 0x65, 0xd0, 0x88);
    LaneIs(acc, input, 256, secret, 32, 5, 0x40B5826009308186, 0xAB67B2E224B49E22, 0x1C71FC4D2AE213AA,
          0xA32E531B8B65D088, 0xBF5FAF56A187C322, 0xBF5FAF56, 0xA187C322, 0x1, 0x64DDDFDC0782EB14);
    XorIs(0x5d, 0x97, 0xe2, 0xf8, 0xbd, 0x91, 0x62, 0x07, 0x4e, 0xf9, 0x0d, 0xa2, 0x97, 0x48, 0x64, 0x71);
    LaneIs(acc, input, 256, secret, 32, 6, 0xF553ADE632D0E2C5, 0x91B674567FD840C, 0x5D97E2F8BD916207,
          0x4EF90DA297486471, 0x136EEF5A2AD90676, 0x136EEF5A, 0x2AD90676, 0x1, 0x1AFC1F6D0D6D64D);
    XorIs(0x09, 0x1b, 0x67, 0x45, 0x67, 0xfd, 0x84, 0x0c, 0xd8, 0xac, 0xde, 0xa9, 0x46, 0xef, 0x19, 0x38);
    LaneIs(acc, input, 256, secret, 32, 7, 0xC47129C94EE206CB, 0x5D97E2F8BD916207, 0x91B674567FD840C,
          0xD8ACDEA946EF1938, 0xD1B7B9EC21129D34, 0xD1B7B9EC, 0x21129D34, 0x1, 0x3D20FB6CD162E8C2);
  }

  lemma Stripe5()
    ensures Accumulate512([0x94CFEB4DD5AE3B0E, 0x569E696F1C71BA43, 0x430EBD5B803DAEA2, 0xECF909405696407,
          0x1DA2BE21C472FA8, 0x64DDDFDC0782EB14, 0x1AFC1F6D0D6D64D, 0x3D20FB6CD162E8C2], Window(TestBuffer(2048),
          320), Window(KSecret(), 40)) ==
            [0x4D0D0604BC0BD0BE, 0x4A951751ACBAB1ED, 0x24981A52C3BD475A, 0x266100F4A766A5CF, 0xB4D373A7E590D543,
                  0x6EA42278E4D42B8E, 0x6E382A1F6A5D2A39, 0x68F5D2249217DF49]
  {
    hide Xor, Generator, ReadLE64, TestBuffer, KSecret, Accumulate512, Window;
    var acc: Acc := [0x94CFEB4DD5AE3B0E, 0x569E696F1C71BA43, 0x430EBD5B803DAEA2, 0xECF909405696407,
          0x1DA2BE21C472FA8, 0x64DDDFDC0782EB14, 0x1AFC1F6D0D6D64D, 0x3D20FB6CD162E8C2];
    var input, secret := TestBuffer(2048), KSecret();
    Buffer5(2048);
    Buffer6(2048);
    Secret0();
    Secret1();
    XorIs(0xda, 0x95, 0x30, 0x77, 0xa2, 0x20, 0x4b, 0x9a, 0x21, 0x72, 0xff, 0xcc, 0x7d, 0xd0, 0x5a, 0x82);
    LaneIs(acc, input, 320, secret, 40, 0, 0x94CFEB4DD5AE3B0E, 0xDBE1F29E3F86B128, 0xDA953077A2204B9A,
          0x2172FFCC7DD05A82, 0xFBE7CFBBDFF01118, 0xFBE7CFBB, 0xDFF01118, 0x2, 0x4D0D0604BC0BD0BE);
    XorIs(0xdb, 0xe1, 0xf2, 0x9e, 0x3f, 0x86, 0xb1, 0x28, 0x8e, 0x24, 0x43, 0xf7, 0x74, 0x46, 0x08, 0xb8);
    LaneIs(acc, input, 320, secret, 40, 1, 0x569E696F1C71BA43, 0xDA953077A2204B9A, 0xDBE1F29E3F86B128,
          0x8E2443F7744608B8, 0x55C5B1694BC0B990, 0x55C5B169, 0x4BC0B990, 0x1, 0x4A951751ACBAB1ED);
    XorIs(0x06, 0x2f, 0x91, 0x6d, 0xf8, 0x90, 0xdf, 0x10, 0x4c, 0x26, 0x3a, 0x81, 0xe6, 0x90, 0x35, 0xe0);
    LaneIs(acc, input, 320, secret, 40, 2, 0x430EBD5B803DAEA2, 0xD8DBF6DF5B48B378, 0x62F916DF890DF10,
          0x4C263A81E69035E0, 0x4A09ABEC1E00EAF0, 0x4A09ABEC, 0x1E00EAF0, 0x1, 0x24981A52C3BD475A);
    XorIs(0xd8, 0xdb, 0xf6, 0xdf, 0x5b, 0x48, 0xb3, 0x78, 0xcb, 0x00, 0xc3, 0x91, 0xbb, 0x52, 0x28, 0x3c);
    LaneIs(acc, input, 320, secret, 40, 3, 0xECF909405696407, 0x62F916DF890DF10, 0xD8DBF6DF5B48B378,
          0xCB00C391BB52283C, 0x13DB354EE01A9B44, 0x13DB354E, 0xE01A9B44, 0x0, 0x266100F4A766A5CF);
    XorIs(0x02, 0x4c, 0x40, 0x89, 0xa5, 0xae, 0xa7, 0x7c, 0xa3, 0x2e, 0x53, 0x1b, 0x8b, 0x65, 0xd0, 0x88);
    LaneIs(acc, input, 320, secret, 40, 4, 0x1DA2BE21C472FA8, 0x957963DD9FF02073, 0x24C4089A5AEA77C,
          0xA32E531B8B65D088, 0xA16213922ECB77F4, 0xA1621392, 0x2ECB77F4, 0x0, 0xB4D373A7E590D543);
    XorIs(0x95, 0x79, 0x63, 0xdd, 0x9f, 0xf0, 0x20, 0x73, 0x4e, 0xf9, 0x0d, 0xa2, 0x97, 0x48, 0x64, 0x71);
    LaneIs(acc, input, 320, secret, 40, 5, 0x64DDDFDC0782EB14, 0x24C4089A5AEA77C, 0x957963DD9FF02073,
          0x4EF90DA297486471, 0xDB806E7F08B84402, 0xDB806E7F, 0x8B84402, 0x0, 0x6EA42278E4D42B8E);
    XorIs(0x22, 0xe0, 0x2f, 0x6f, 0x7e, 0xc4, 0x03, 0xb1, 0xd8, 0xac, 0xde, 0xa9, 0x46, 0xef, 0x19, 0x38);
    LaneIs(acc, input, 320, secret, 40, 6, 0x1AFC1F6D0D6D64D, 0x359D6E66E988D4F6, 0x22E02F6F7EC403B1,
          0xD8ACDEA946EF1938, 0xFA4CF1C6382B1A89, 0xFA4CF1C6, 0x382B1A89, 0x0, 0x6E382A1F6A5D2A39);
    XorIs(0x35, 0x9d, 0x6e, 0x66, 0xe9, 0x88, 0xd4, 0xf6, 0x3f, 0x34, 0x9c, 0xe3, 0x3f, 0x76, 0xfa, 0xa8);
    LaneIs(acc, input, 320, secret, 40, 7, 0x3D20FB6CD162E8C2, 0x22E02F6F7EC403B1, 0x359D6E66E988D4F6,
          0x3F349CE33F76FAA8, 0xAA9F285D6FE2E5E, 0xAA9F285, 0xD6FE2E5E, 0x0, 0x68F5D2249217DF49);
  }

  lemma Stripe6()
    ensures Accumulate512([0x4D0D0604BC0BD0BE, 0x4A951751ACBAB1ED, 0x24981A52C3BD475A, 0x266100F4A766A5CF,
          0xB4D373A7E590D543, 0x6EA42278E4D42B8E, 0x6E382A1F6A5D2A39, 0x68F5D2249217DF49], Window(TestBuffer(2048),
          384), Window(KSecret(), 48)) ==
            [0x279F682768705EE, 0xA534266DF36E5F1E, 0xE40ED688CA056AC2, 0x8C77EABEF3D031B1, 0xD81FA3BAF02E7CF2,
                  0x92A39733568A90DF, 0xB666EB014B94B017, 0x923272661521AF42]
  {
    hide Xor, Generator, ReadLE64, TestBuffer, KSecret, Accumulate512, Window;
    var acc: Acc := [0x4D0D0604BC0BD0BE, 0x4A951751ACBAB1ED, 0x24981A52C3BD475A, 0x266100F4A766A5CF,
          0xB4D373A7E590D543, 0x6EA42278E4D42B8E, 0x6E382A1F6A5D2A39, 0x68F5D2249217DF49];
    var input, secret := TestBuffer(2048), KSecret();
    Buffer6(2048);
    Buffer7(2048);
    Buffer8(2048);
    Secret0();
    Secret1();
    XorIs(0xd5, 0xcf, 0x1a, 0x4f, 0x1b, 0x41, 0xbd, 0x19, 0x8e, 0x24, 0x43, 0xf7, 0x74, 0x46, 0x08, 0xb8);
    LaneIs(acc, input, 384, secret, 48, 0, 0x4D0D0604BC0BD0BE, 0x8D8F1FF04900B078, 0xD5CF1A4F1B41BD19,
          0x8E2443F7744608B8, 0x5BEB59B86F07B5A1, 0x5BEB59B8, 0x6F07B5A1, 0x1, 0x279F682768705EE);
    XorIs(0x8d, 0x8f, 0x1f, 0xf0, 0x49, 0x00, 0xb0, 0x78, 0x4c, 0x26, 0x3a, 0x81, 0xe6, 0x90, 0x35, 0xe0);
    LaneIs(acc, input, 384, secret, 48, 1, 0x4A951751ACBAB1ED, 0xD5CF1A4F1B41BD19, 0x8D8F1FF04900B078,
          0x4C263A81E69035E0, 0xC1A92571AF908598, 0xC1A92571, 0xAF908598, 0x1, 0xA534266DF36E5F1E);
    XorIs(0x53, 0xc4, 0x6d, 0x94, 0xb5, 0xbc, 0x14, 0xf6, 0xcb, 0x00, 0xc3, 0x91, 0xbb, 0x52, 0x28, 0x3c);
    LaneIs(acc, input, 384, secret, 48, 2, 0x24981A52C3BD475A, 0xB68DCF9153A7A776, 0x53C46D94B5BC14F6,
          0xCB00C391BB52283C, 0x98C4AE050EEE3CCA, 0x98C4AE05, 0xEEE3CCA, 0x0, 0xE40ED688CA056AC2);
    XorIs(0xb6, 0x8d, 0xcf, 0x91, 0x53, 0xa7, 0xa7, 0x76, 0xa3, 0x2e, 0x53, 0x1b, 0x8b, 0x65, 0xd0, 0x88);
    LaneIs(acc, input, 384, secret, 48, 3, 0x266100F4A766A5CF, 0x53C46D94B5BC14F6, 0xB68DCF9153A7A776,
          0xA32E531B8B65D088, 0x15A39C8AD8C277FE, 0x15A39C8A, 0xD8C277FE, 0x0, 0x8C77EABEF3D031B1);
    XorIs(0xf2, 0x06, 0x2f, 0x36, 0x7e, 0x39, 0x6c, 0x16, 0x4e, 0xf9, 0x0d, 0xa2, 0x97, 0x48, 0x64, 0x71);
    LaneIs(acc, input, 384, secret, 48, 4, 0xB4D373A7E590D543, 0x76F486C80F8E1E23, 0xF2062F367E396C16,
          0x4EF90DA297486471, 0xBCFF2294E9710867, 0xBCFF2294, 0xE9710867, 0x1, 0xD81FA3BAF02E7CF2);
    XorIs(0x76, 0xf4, 0x86, 0xc8, 0x0f, 0x8e, 0x1e, 0x23, 0xd8, 0xac, 0xde, 0xa9, 0x46, 0xef, 0x19, 0x38);
    LaneIs(acc, input, 384, secret, 48, 5, 0x6EA42278E4D42B8E, 0xF2062F367E396C16, 0x76F486C80F8E1E23,
          0xD8ACDEA946EF1938, 0xAE5858614961071B, 0xAE585861, 0x4961071B, 0x1, 0x92A39733568A90DF);
    XorIs(0x27, 0x8c, 0xfc, 0x36, 0x64, 0xf6, 0x8e, 0x61, 0x3f, 0x34, 0x9c, 0xe3, 0x3f, 0x76, 0xfa, 0xa8);
    LaneIs(acc, input, 384, secret, 48, 6, 0x6E382A1F6A5D2A39, 0x3F58CEFECB12FAA1, 0x278CFC3664F68E61,
          0x3F349CE33F76FAA8, 0x18B860D55B8074C9, 0x18B860D5, 0x5B8074C9, 0x0, 0xB666EB014B94B017);
    XorIs(0x3f, 0x58, 0xce, 0xfe, 0xcb, 0x12, 0xfa, 0xa1, 0x1d, 0x4f, 0x0b, 0xc7, 0xc7, 0xbb, 0xdc, 0xf9);
    LaneIs(acc, input, 384, secret, 48, 7, 0x68F5D2249217DF49, 0x278CFC3664F68E61, 0x3F58CEFECB12FAA1,
          0x1D4F0BC7C7BBDCF9, 0x2217C5390CA92658, 0x2217C539, 0xCA92658, 0x0, 0x923272661521AF42);
  }

  lemma Stripe7()
    ensures Accumulate512([0x279F682768705EE, 0xA534266DF36E5F1E, 0xE40ED688CA056AC2, 0x8C77EABEF3D031B1,
          0xD81FA3BAF02E7CF2, 0x92A39733568A90DF, 0xB666EB014B94B017, 0x923272661521AF42], Window(TestBuffer(2048),
          448), Window(KSecret(), 56)) ==
            [0xB0EC9BD903C09862, 0x1DCC27263167005B, 0x8D59618CB2A884BD, 0xEDE72D8F071405DE, 0xDB5B533E99FAAD,
                  0x91B41F7E9EAEC2DE, 0xC0BD570C61CEFF7E, 0xCEB184FF3FD4F94E]
  {
    hide Xor, Generator, ReadLE64, TestBuffer, KSecret, Accumulate512, Window;
    var acc: Acc := [0x279F682768705EE, 0xA534266DF36E5F1E, 0xE40ED688CA056AC2, 0x8C77EABEF3D031B1,
          0xD81FA3BAF02E7CF2, 0x92A39733568A90DF, 0xB666EB014B94B017, 0x923272661521AF42];
    var input, secret := TestBuffer(2048), KSecret();
    Buffer8(2048);
    Buffer9(2048);
    Secret0();
    Secret1();
    XorIs(0xe7, 0x81, 0xc0, 0x7d, 0x6c, 0x88, 0x67, 0x81, 0x4c, 0x26, 0x3a, 0x81, 0xe6, 0x90, 0x35, 0xe0);
    LaneIs(acc, input, 448, secret, 56, 0, 0x279F682768705EE, 0x51D9C90E548EC0F8, 0xE781C07D6C886781,
          0x4C263A81E69035E0, 0xABA7FAFC8A185261, 0xABA7FAFC, 0x8A185261, 0x0, 0xB0EC9BD903C09862);
    XorIs(0x51, 0xd9, 0xc9, 0x0e, 0x54, 0x8e, 0xc0, 0xf8, 0xcb, 0x00, 0xc3, 0x91, 0xbb, 0x52, 0x28, 0x3c);
    LaneIs(acc, input, 448, secret, 56, 1, 0xA534266DF36E5F1E, 0xE781C07D6C886781, 0x51D9C90E548EC0F8,
          0xCB00C391BB52283C, 0x9AD90A9FEFDCE8C4, 0x9AD90A9F, 0xEFDCE8C4, 0x2, 0x1DCC27263167005B);
    XorIs(0xac, 0x0b, 0x0a, 0x69, 0x35, 0x90, 0x21, 0x9d, 0xa3, 0x2e, 0x53, 0x1b, 0x8b, 0x65, 0xd0, 0x88);
    LaneIs(acc, input, 448, secret, 56, 2, 0xE40ED688CA056AC2, 0x9DFE459F4B4471A1, 0xAC0B0A693590219D,
          0xA32E531B8B65D088, 0xF255972BEF5F115, 0xF255972, 0xBEF5F115, 0x1, 0x8D59618CB2A884BD);
    XorIs(0x9d, 0xfe, 0x45, 0x9f, 0x4b, 0x44, 0x71, 0xa1, 0x4e, 0xf9, 0x0d, 0xa2, 0x97, 0x48, 0x64, 0x71);
    LaneIs(acc, input, 448, secret, 56, 3, 0x8C77EABEF3D031B1, 0xAC0B0A693590219D, 0x9DFE459F4B4471A1,
          0x4EF90DA297486471, 0xD307483DDC0C15D0, 0xD307483D, 0xDC0C15D0, 0x1, 0xEDE72D8F071405DE);
    XorIs(0xf1, 0x5d, 0x6c, 0x77, 0x1b, 0x1e, 0x1f, 0x98, 0xd8, 0xac, 0xde, 0xa9, 0x46, 0xef, 0x19, 0x38);
    LaneIs(acc, input, 448, secret, 56, 4, 0xD81FA3BAF02E7CF2, 0x19576BFE642C7EFB, 0xF15D6C771B1E1F98,
          0xD8ACDEA946EF1938, 0x29F1B2DE5DF106A0, 0x29F1B2DE, 0x5DF106A0, 0x1, 0xDB5B533E99FAAD);
    XorIs(0x19, 0x57, 0x6b, 0xfe, 0x64, 0x2c, 0x7e, 0xfb, 0x3f, 0x34, 0x9c, 0xe3, 0x3f, 0x76, 0xfa, 0xa8);
    LaneIs(acc, input, 448, secret, 56, 5, 0x92A39733568A90DF, 0xF15D6C771B1E1F98, 0x19576BFE642C7EFB,
          0x3F349CE33F76FAA8, 0x2663F71D5B5A8453, 0x2663F71D, 0x5B5A8453, 0x1, 0x91B41F7E9EAEC2DE);
    XorIs(0x1a, 0x36, 0x09, 0xd0, 0xe4, 0xdd, 0xcd, 0x68, 0x1d, 0x4f, 0x0b, 0xc7, 0xc7, 0xbb, 0xdc, 0xf9);
    LaneIs(acc, input, 448, secret, 56, 6, 0xB666EB014B94B017, 0x94DE607D7629960, 0x1A3609D0E4DDCD68,
          0x1D4F0BC7C7BBDCF9, 0x779021723661191, 0x7790217, 0x23661191, 0x0, 0xC0BD570C61CEFF7E);
    XorIs(0x09, 0x4d, 0xe6, 0x07, 0xd7, 0x62, 0x99, 0x60, 0x31, 0x59, 0xb4, 0xcd, 0x4b, 0xe0, 0x51, 0x8a);
    LaneIs(acc, input, 448, secret, 56, 7, 0x923272661521AF42, 0x1A3609D0E4DDCD68, 0x94DE607D7629960,
          0x3159B4CD4BE0518A, 0x381452CA9C82C8EA, 0x381452CA, 0x9C82C8EA, 0x0, 0xCEB184FF3FD4F94E);
  }

  lemma Stripe8()
    ensures Accumulate512([0xB0EC9BD903C09862, 0x1DCC27263167005B, 0x8D59618CB2A884BD, 0xEDE72D8F071405DE,
          0xDB5B533E99FAAD, 0x91B41F7E9EAEC2DE, 0xC0BD570C61CEFF7E, 0xCEB184FF3FD4F94E], Window(TestBuffer(2048),
          512), Window(KSecret(), 64)) ==
            [0x39BC08C956E00439, 0xC2F1F9EA4249E6CC, 0xD8AE53FF3EAD674A, 0xDEDC690290081BFD, 0xBC22959E65F0E800,
                  0x6F71595647CA1724, 0xA051738DD86C8B00, 0x737FFCE2536EF665]
  {
    hide Xor, Generator, ReadLE64, TestBuffer, KSecret, Accumulate512, Window;
    var acc: Acc := [0xB0EC9BD903C09862, 0x1DCC27263167005B, 0x8D59618CB2A884BD, 0xEDE72D8F071405DE,
          0xDB5B533E99FAAD, 0x91B41F7E9EAEC2DE, 0xC0BD570C61CEFF7E, 0xCEB184FF3FD4F94E];
    var input, secret := TestBuffer(2048), KSecret();
    Buffer9(2048);
    Buffer10(2048);
    Secret1();
    XorIs(0x83, 0xd9, 0x42, 0x2f, 0x9b, 0x8e, 0xf7, 0x86, 0xcb, 0x00, 0xc3, 0x91, 0xbb, 0x52, 0x28, 0x3c);
    LaneIs(acc, input, 512, secret, 64, 0, 0xB0EC9BD903C09862, 0x7F756222ADCAA5CB, 0x83D9422F9B8EF786,
          0xCB00C391BB52283C, 0x48D981BE20DCDFBA, 0x48D981BE, 0x20DCDFBA, 0x1, 0x39BC08C956E00439);
    XorIs(0x7f, 0x75, 0x62, 0x22, 0xad, 0xca, 0xa5, 0xcb, 0xa3, 0x2e, 0x53, 0x1b, 0x8b, 0x65, 0xd0, 0x88);
    LaneIs(acc, input, 512, secret, 64, 1, 0x1DCC27263167005B, 0x83D9422F9B8EF786, 0x7F756222ADCAA5CB,
          0xA32E531B8B65D088, 0xDC5B313926AF7543, 0xDC5B3139, 0x26AF7543, 0x0, 0xC2F1F9EA4249E6CC);
    XorIs(0x75, 0x48, 0xec, 0xaf, 0x1a, 0xef, 0x40, 0x5b, 0x4e, 0xf9, 0x0d, 0xa2, 0x97, 0x48, 0x64, 0x71);
    LaneIs(acc, input, 512, secret, 64, 2, 0x8D59618CB2A884BD, 0x2A4D0005C4B5226B, 0x7548ECAF1AEF405B,
          0x4EF90DA297486471, 0x3BB1E10D8DA7242A, 0x3BB1E10D, 0x8DA7242A, 0x0, 0xD8AE53FF3EAD674A);
    XorIs(0x2a, 0x4d, 0x00, 0x05, 0xc4, 0xb5, 0x22, 0x6b, 0xd8, 0xac, 0xde, 0xa9, 0x46, 0xef, 0x19, 0x38);
    LaneIs(acc, input, 512, secret, 64, 3, 0xEDE72D8F071405DE, 0x7548ECAF1AEF405B, 0x2A4D0005C4B5226B,
          0xD8ACDEA946EF1938, 0xF2E1DEAC825A3B53, 0xF2E1DEAC, 0x825A3B53, 0x1, 0xDEDC690290081BFD);
    XorIs(0xd4, 0x5c, 0xbb, 0x6e, 0x8d, 0x8b, 0x7d, 0x09, 0x3f, 0x34, 0x9c, 0xe3, 0x3f, 0x76, 0xfa, 0xa8);
    LaneIs(acc, input, 512, secret, 64, 4, 0xDB5B533E99FAAD, 0x16AFAC240DA1B2A6, 0xD45CBB6E8D8B7D09,
          0x3F349CE33F76FAA8, 0xEB68278DB2FD87A1, 0xEB68278D, 0xB2FD87A1, 0x0, 0xBC22959E65F0E800);
    XorIs(0x16, 0xaf, 0xac, 0x24, 0x0d, 0xa1, 0xb2, 0xa6, 0x1d, 0x4f, 0x0b, 0xc7, 0xc7, 0xbb, 0xdc, 0xf9);
    LaneIs(acc, input, 512, secret, 64, 5, 0x91B41F7E9EAEC2DE, 0xD45CBB6E8D8B7D09, 0x16AFAC240DA1B2A6,
          0x1D4F0BC7C7BBDCF9, 0xBE0A7E3CA1A6E5F, 0xBE0A7E3, 0xCA1A6E5F, 0x1, 0x6F71595647CA1724);
    XorIs(0x91, 0x07, 0x0d, 0xfd, 0xba, 0x6e, 0x7f, 0xf3, 0x31, 0x59, 0xb4, 0xcd, 0x4b, 0xe0, 0x51, 0x8a);
    LaneIs(acc, input, 512, secret, 64, 6, 0xC0BD570C61CEFF7E, 0x4841DE83BBF163D2, 0x91070DFDBA6E7FF3,
          0x3159B4CD4BE0518A, 0xA05EB930F18E2E79, 0xA05EB930, 0xF18E2E79, 0x1, 0xA051738DD86C8B00);
    XorIs(0x48, 0x41, 0xde, 0x83, 0xbb, 0xf1, 0x63, 0xd2, 0x64, 0x73, 0x78, 0xd9, 0xc9, 0x7e, 0x9f, 0xc8);
    LaneIs(acc, input, 512, secret, 64, 7, 0xCEB184FF3FD4F94E, 0x91070DFDBA6E7FF3, 0x4841DE83BBF163D2,
          0x647378D9C97E9FC8, 0x2C32A65A728FFC1A, 0x2C32A65A, 0x728FFC1A, 0x1, 0x737FFCE2536EF665);
  }

  lemma Stripe9()
    ensures Accumulate512([0x39BC08C956E00439, 0xC2F1F9EA4249E6CC, 0xD8AE53FF3EAD674A, 0xDEDC690290081BFD,
          0xBC22959E65F0E800, 0x6F71595647CA1724, 0xA051738DD86C8B00, 0x737FFCE2536EF665], Window(TestBuffer(2048),
          576), Window(KSecret(), 72)) ==
            [0xCED84A0883E71FC1, 0x1AA6FD4F13E73173, 0xBC4F9ED0F98887E, 0xE4F29961A28542C6, 0xE7763953F1BCFCAA,
                  0x7B31FADE4E74FF22, 0xF012EFE69FD349C9, 0x6520314945E10C92]
  {
    hide Xor, Generator, ReadLE64, TestBuffer, KSecret, Accumulate512, Window;
    var acc: Acc := [0x39BC08C956E00439, 0xC2F1F9EA4249E6CC, 0xD8AE53FF3EAD674A, 0xDEDC690290081BFD,
          0xBC22959E65F0E800, 0x6F71595647CA1724, 0xA051738DD86C8B00, 0x737FFCE2536EF665];
    var input, secret := TestBuffer(2048), KSecret();
    Buffer11(2048);
    Buffer12(2048);
    Secret1();
    Secret2();
    XorIs(0xa7, 0x19, 0x3f, 0xf3, 0xe2, 0x31, 0x74, 0x1b, 0xa3, 0x2e, 0x53, 0x1b, 0x8b, 0x65, 0xd0, 0x88);
    LaneIs(acc, input, 576, secret, 72, 0, 0x39BC08C956E00439, 0x936020AE5B4EF250, 0xA7193FF3E231741B,
          0xA32E531B8B65D088, 0x4376CE86954A493, 0x4376CE8, 0x6954A493, 0x0, 0xCED84A0883E71FC1);
    XorIs(0x93, 0x60, 0x20, 0xae, 0x5b, 0x4e, 0xf2, 0x50, 0x4e, 0xf9, 0x0d, 0xa2, 0x97, 0x48, 0x64, 0x71);
    LaneIs(acc, input, 576, secret, 72, 1, 0xC2F1F9EA4249E6CC, 0xA7193FF3E231741B, 0x936020AE5B4EF250,
          0x4EF90DA297486471, 0xDD992D0CCC069621, 0xDD992D0C, 0xCC069621, 0x2, 0x1AA6FD4F13E73173);
    XorIs(0xec, 0x98, 0x77, 0x52, 0xa5, 0x7e, 0x0c, 0xd5, 0xd8, 0xac, 0xde, 0xa9, 0x46, 0xef, 0x19, 0x38);
    LaneIs(acc, input, 576, secret, 72, 2, 0xD8AE53FF3EAD674A, 0x4AE5CE7520D2CD5, 0xEC987752A57E0CD5,
          0xD8ACDEA946EF1938, 0x3434A9FBE39115ED, 0x3434A9FB, 0xE39115ED, 0x1, 0xBC4F9ED0F98887E);
    XorIs(0x04, 0xae, 0x5c, 0xe7, 0x52, 0x0d, 0x2c, 0xd5, 0x3f, 0x34, 0x9c, 0xe3, 0x3f, 0x76, 0xfa, 0xa8);
    LaneIs(acc, input, 576, secret, 72, 3, 0xDEDC690290081BFD, 0xEC987752A57E0CD5, 0x4AE5CE7520D2CD5,
          0x3F349CE33F76FAA8, 0x3B9AC0046D7BD67D, 0x3B9AC004, 0x6D7BD67D, 0x1, 0xE4F29961A28542C6);
    XorIs(0xba, 0x5c, 0xb4, 0xcd, 0xae, 0xfb, 0xef, 0x84, 0x1d, 0x4f, 0x0b, 0xc7, 0xc7, 0xbb, 0xdc, 0xf9);
    LaneIs(acc, input, 576, secret, 72, 4, 0xBC22959E65F0E800, 0xE6A2A3D02B98CEC8, 0xBA5CB4CDAEFBEF84,
          0x1D4F0BC7C7BBDCF9, 0xA713BF0A6940337D, 0xA713BF0A, 0x6940337D, 0x1, 0xE7763953F1BCFCAA);
    XorIs(0xe6, 0xa2, 0xa3, 0xd0, 0x2b, 0x98, 0xce, 0xc8, 0x31, 0x59, 0xb4, 0xcd, 0x4b, 0xe0, 0x51, 0x8a);
    LaneIs(acc, input, 576, secret, 72, 5, 0x6F71595647CA1724, 0xBA5CB4CDAEFBEF84, 0xE6A2A3D02B98CEC8,
          0x3159B4CD4BE0518A, 0xD7FB171D60789F42, 0xD7FB171D, 0x60789F42, 0x1, 0x7B31FADE4E74FF22);
    XorIs(0x7f, 0xb2, 0x6a, 0x06, 0xcc, 0xb9, 0x6e, 0x25, 0x64, 0x73, 0x78, 0xd9, 0xc9, 0x7e, 0x9f, 0xc8);
    LaneIs(acc, input, 576, secret, 72, 6, 0xA051738DD86C8B00, 0x4F2109AA4C8B5756, 0x7FB26A06CCB96E25,
          0x647378D9C97E9FC8, 0x1BC112DF05C7F1ED, 0x1BC112DF, 0x5C7F1ED, 0x0, 0xF012EFE69FD349C9);
    XorIs(0x4f, 0x21, 0x09, 0xaa, 0x4c, 0x8b, 0x57, 0x56, 0xc3, 0xeb, 0xd3, 0x34, 0x83, 0xac, 0xc5, 0xea);
    LaneIs(acc, input, 576, secret, 72, 7, 0x737FFCE2536EF665, 0x7FB26A06CCB96E25, 0x4F2109AA4C8B5756,
          0xC3EBD33483ACC5EA, 0x8CCADA9ECF2792BC, 0x8CCADA9E, 0xCF2792BC, 0x1, 0x6520314945E10C92);
  }

  lemma Stripe10()
    ensures Accumulate512([0xCED84A0883E71FC1, 0x1AA6FD4F13E73173, 0xBC4F9ED0F98887E, 0xE4F29961A28542C6,
          0xE7763953F1BCFCAA, 0x7B31FADE4E74FF22, 0xF012EFE69FD349C9, 0x6520314945E10C92], Window(TestBuffer(2048),
          640), Window(KSecret(), 80)) ==
            [0x87D9993A3C2F9319, 0xC421563A15500EBF, 0x4F584F57CCA89070, 0xC2EBB049041412BD, 0x7F33EB4B915BC813,
                  0x1A2D59FD9515F8C8, 0xB43348B6B1A70E2D, 0x84A2C50FC537DFCA]
  {
    hide Xor, Generator, ReadLE64, TestBuffer, KSecret, Accumulate512, Window;
    var acc: Acc := [0xCED84A0883E71FC1, 0x1AA6FD4F13E73173, 0xBC4F9ED0F98887E, 0xE4F29961A28542C6,
          0xE7763953F1BCFCAA, 0x7B31FADE4E74FF22, 0xF012EFE69FD349C9, 0x6520314945E10C92];
    var input, secret := TestBuffer(2048), KSecret();
    Buffer12(2048);
    Buffer13(2048);
    Secret1();
    Secret2();
    XorIs(0x36, 0x07, 0xd0, 0xa9, 0x4b, 0x90, 0xc3, 0x4a, 0x4e, 0xf9, 0x0d, 0xa2, 0x97, 0x48, 0x64, 0x71);
    LaneIs(acc, input, 640, secret, 80, 0, 0xCED84A0883E71FC1, 0x509FE3279E1154CF, 0x3607D0A94B90C34A,
          0x4EF90DA297486471, 0x78FEDD0BDCD8A73B, 0x78FEDD0B, 0xDCD8A73B, 0x1, 0x87D9993A3C2F9319);
    XorIs(0x50, 0x9f, 0xe3, 0x27, 0x9e, 0x11, 0x54, 0xcf, 0xd8, 0xac, 0xde, 0xa9, 0x46, 0xef, 0x19, 0x38);
    LaneIs(acc, input, 640, secret, 80, 1, 0x1AA6FD4F13E73173, 0x3607D0A94B90C34A, 0x509FE3279E1154CF,
          0xD8ACDEA946EF1938, 0x88333D8ED8FE4DF7, 0x88333D8E, 0xD8FE4DF7, 0x0, 0xC421563A15500EBF);
    XorIs(0xa7, 0x88, 0x71, 0xd4, 0x94, 0xc2, 0x58, 0x3f, 0x3f, 0x34, 0x9c, 0xe3, 0x3f, 0x76, 0xfa, 0xa8);
    LaneIs(acc, input, 640, secret, 80, 2, 0xBC4F9ED0F98887E, 0xDD215D1E8FD74E81, 0xA78871D494C2583F,
          0x3F349CE33F76FAA8, 0x98BCED37ABB4A297, 0x98BCED37, 0xABB4A297, 0x1, 0x4F584F57CCA89070);
    XorIs(0xdd, 0x21, 0x5d, 0x1e, 0x8f, 0xd7, 0x4e, 0x81, 0x1d, 0x4f, 0x0b, 0xc7, 0xc7, 0xbb, 0xdc, 0xf9);
    LaneIs(acc, input, 640, secret, 80, 3, 0xE4F29961A28542C6, 0xA78871D494C2583F, 0xDD215D1E8FD74E81,
          0x1D4F0BC7C7BBDCF9, 0xC06E56D9486C9278, 0xC06E56D9, 0x486C9278, 0x1, 0xC2EBB049041412BD);
    XorIs(0xb6, 0x94, 0xd1, 0x1f, 0x5a, 0x6d, 0x01, 0xc2, 0x31, 0x59, 0xb4, 0xcd, 0x4b, 0xe0, 0x51, 0x8a);
    LaneIs(acc, input, 640, secret, 80, 4, 0xE7763953F1BCFCAA, 0x8E6E177D375E8859, 0xB694D11F5A6D01C2,
          0x3159B4CD4BE0518A, 0x87CD65D2118D5048, 0x87CD65D2, 0x118D5048, 0x1, 0x7F33EB4B915BC813);
    XorIs(0x8e, 0x6e, 0x17, 0x7d, 0x37, 0x5e, 0x88, 0x59, 0x64, 0x73, 0x78, 0xd9, 0xc9, 0x7e, 0x9f, 0xc8);
    LaneIs(acc, input, 640, secret, 80, 5, 0x7B31FADE4E74FF22, 0xB694D11F5A6D01C2, 0x8E6E177D375E8859,
          0x647378D9C97E9FC8, 0xEA1D6FA4FE201791, 0xEA1D6FA4, 0xFE201791, 0x2, 0x1A2D59FD9515F8C8);
    XorIs(0xe7, 0xea, 0x70, 0xcf, 0x7c, 0x10, 0x55, 0x16, 0xc3, 0xeb, 0xd3, 0x34, 0x83, 0xac, 0xc5, 0xea);
    LaneIs(acc, input, 640, secret, 80, 6, 0xF012EFE69FD349C9, 0xA02830E042A52950, 0xE7EA70CF7C105516,
          0xC3EBD33483ACC5EA, 0x2401A3FBFFBC90FC, 0x2401A3FB, 0xFFBC90FC, 0x1, 0xB43348B6B1A70E2D);
    XorIs(0xa0, 0x28, 0x30, 0xe0, 0x42, 0xa5, 0x29, 0x50, 0xeb, 0x63, 0x13, 0xfa, 0xff, 0xa0, 0x81, 0xc5);
    LaneIs(acc, input, 640, secret, 80, 7, 0x6520314945E10C92, 0xE7EA70CF7C105516, 0xA02830E042A52950,
          0xEB6313FAFFA081C5, 0x4B4B231ABD05A895, 0x4B4B231A, 0xBD05A895, 0x1, 0x84A2C50FC537DFCA);
  }

  lemma Stripe11()
    ensures Accumulate512([0x87D9993A3C2F9319, 0xC421563A15500EBF, 0x4F584F57CCA89070, 0xC2EBB049041412BD,
          0x7F33EB4B915BC813, 0x1A2D59FD9515F8C8, 0xB43348B6B1A70E2D, 0x84A2C50FC537DFCA], Window(TestBuffer(2048),
          704), Window(KSecret(), 88)) ==
            [0x4A86513216ADCDCB, 0x40A7A212941F94DD, 0x19ED65CEDCCE12FE, 0x33A34E3C2970D4B0, 0xA6F9DF77BBC7E109,
                  0xAFDEDE468A213C8A, 0x151CF1FDDF480FA, 0xB5B2D576BA1E8F20]
  {
    hide Xor, Generator, ReadLE64, TestBuffer, KSecret, Accumulate512, Window;
    var acc: Acc := [0x87D9993A3C2F9319, 0xC421563A15500EBF, 0x4F584F57CCA89070, 0xC2EBB049041412BD,
          0x7F33EB4B915BC813, 0x1A2D59FD9515F8C8, 0xB43348B6B1A70E2D, 0x84A2C50FC537DFCA];
    var input, secret := TestBuffer(2048), KSecret();
    Buffer13(2048);
    Buffer14(2048);
    Secret1();
    Secret2();
    XorIs(0x70, 0x73, 0x68, 0xb1, 0x59, 0xd5, 0x3d, 0x1e, 0xd8, 0xac, 0xde, 0xa9, 0x46, 0xef, 0x19, 0x38);
    LaneIs(acc, input, 704, secret, 88, 0, 0x87D9993A3C2F9319, 0xAE1346632A3DD322, 0x707368B159D53D1E,
          0xD8ACDEA946EF1938, 0xA8DFB6181F3A2426, 0xA8DFB618, 0x1F3A2426, 0x1, 0x4A86513216ADCDCB);
    XorIs(0xae, 0x13, 0x46, 0x63, 0x2a, 0x3d, 0xd3, 0x22, 0x3f, 0x34, 0x9c, 0xe3, 0x3f, 0x76, 0xfa, 0xa8);
    LaneIs(acc, input, 704, secret, 88, 1, 0xC421563A15500EBF, 0x707368B159D53D1E, 0xAE1346632A3DD322,
          0x3F349CE33F76FAA8, 0x9127DA80154B298A, 0x9127DA80, 0x154B298A, 0x1, 0x40A7A212941F94DD);
    XorIs(0x56, 0xdd, 0xa1, 0x98, 0x05, 0x35, 0x1e, 0xdb, 0x1d, 0x4f, 0x0b, 0xc7, 0xc7, 0xbb, 0xdc, 0xf9);
    LaneIs(acc, input, 704, secret, 88, 2, 0x4F584F57CCA89070, 0x9125CCB162DCE3F0, 0x56DDA19805351EDB,
          0x1D4F0BC7C7BBDCF9, 0x4B92AA5FC28EC222, 0x4B92AA5F, 0xC28EC222, 0x1, 0x19ED65CEDCCE12FE);
    XorIs(0x91, 0x25, 0xcc, 0xb1, 0x62, 0xdc, 0xe3, 0xf0, 0x31, 0x59, 0xb4, 0xcd, 0x4b, 0xe0, 0x51, 0x8a);
    LaneIs(acc, input, 704, secret, 88, 3, 0xC2EBB049041412BD, 0x56DDA19805351EDB, 0x9125CCB162DCE3F0,
          0x3159B4CD4BE0518A, 0xA07C787C293CB27A, 0xA07C787C, 0x293CB27A, 0x1, 0x33A34E3C2970D4B0);
    XorIs(0x37, 0x81, 0x8c, 0x99, 0xfc, 0x36, 0xdb, 0x22, 0x64, 0x73, 0x78, 0xd9, 0xc9, 0x7e, 0x9f, 0xc8);
    LaneIs(acc, input, 704, secret, 88, 4, 0x7F33EB4B915BC813, 0x164CF4ACF377D676, 0x37818C99FC36DB22,
          0x647378D9C97E9FC8, 0x53F2F440354844EA, 0x53F2F440, 0x354844EA, 0x0, 0xA6F9DF77BBC7E109);
    XorIs(0x16, 0x4c, 0xf4, 0xac, 0xf3, 0x77, 0xd6, 0x76, 0xc3, 0xeb, 0xd3, 0x34, 0x83, 0xac, 0xc5, 0xea);
    LaneIs(acc, input, 704, secret, 88, 5, 0x1A2D59FD9515F8C8, 0x37818C99FC36DB22, 0x164CF4ACF377D676,
          0xC3EBD33483ACC5EA, 0xD5A7279870DB139C, 0xD5A72798, 0x70DB139C, 0x0, 0xAFDEDE468A213C8A);
    XorIs(0x1f, 0xfc, 0x82, 0x10, 0xda, 0xff, 0x84, 0xa6, 0xeb, 0x63, 0x13, 0xfa, 0xff, 0xa0, 0x81, 0xc5);
    LaneIs(acc, input, 704, secret, 88, 6, 0xB43348B6B1A70E2D, 0x2968A9F57CE8734F, 0x1FFC8210DAFF84A6,
          0xEB6313FAFFA081C5, 0xF49F91EA255F0563, 0xF49F91EA, 0x255F0563, 0x1, 0x151CF1FDDF480FA);
    XorIs(0x29, 0x68, 0xa9, 0xf5, 0x7c, 0xe8, 0x73, 0x4f, 0x49, 0xda, 0xf0, 0xb7, 0x51, 0xdd, 0x0d, 0x17);
    LaneIs(acc, input, 704, secret, 88, 7, 0x84A2C50FC537DFCA, 0x1FFC8210DAFF84A6, 0x2968A9F57CE8734F,
          0x49DAF0B751DD0D17, 0x60B259422D357E58, 0x60B25942, 0x2D357E58, 0x0, 0xB5B2D576BA1E8F20);
  }

  lemma Stripe12()
    ensures Accumulate512([0x4A86513216ADCDCB, 0x40A7A212941F94DD, 0x19ED65CEDCCE12FE, 0x33A34E3C2970D4B0,
          0xA6F9DF77BBC7E109, 0xAFDEDE468A213C8A, 0x151CF1FDDF480FA, 0xB5B2D576BA1E8F20], Window(TestBuffer(2048),
          768), Window(KSecret(), 96)) ==
            [0xE9FE898FC650D0A, 0x7FB36242C402F684, 0xDD20A5B9B8E631FE, 0x3F295121257F9703, 0x129F4C74106DE76C,
                  0x47D56A9469EA60C2, 0x61AAA352328637D9, 0x1900CEC2C9E1A2FC]
  {
    hide Xor, Generator, ReadLE64, TestBuffer, KSecret, Accumulate512, Window;
    var acc: Acc := [0x4A86513216ADCDCB, 0x40A7A212941F94DD, 0x19ED65CEDCCE12FE, 0x33A34E3C2970D4B0,
          0xA6F9DF77BBC7E109, 0xAFDEDE468A213C8A, 0x151CF1FDDF480FA, 0xB5B2D576BA1E8F20];
    var input, secret := TestBuffer(2048), KSecret();
    Buffer14(2048);
    Buffer15(2048);
    Secret1();
    Secret2();
    XorIs(0x10, 0xa0, 0x2c, 0x1f, 0x7b, 0xa4, 0x7f, 0xb3, 0x3f, 0x34, 0x9c, 0xe3, 0x3f, 0x76, 0xfa, 0xa8);
    LaneIs(acc, input, 768, secret, 96, 0, 0x4A86513216ADCDCB, 0xB74EF7AD825DA8AB, 0x10A02C1F7BA47FB3,
          0x3F349CE33F76FAA8, 0x2F94B0FC44D2851B, 0x2F94B0FC, 0x44D2851B, 0x1, 0xE9FE898FC650D0A);
    XorIs(0xb7, 0x4e, 0xf7, 0xad, 0x82, 0x5d, 0xa8, 0xab, 0x1d, 0x4f, 0x0b, 0xc7, 0xc7, 0xbb, 0xdc, 0xf9);
    LaneIs(acc, input, 768, secret, 96, 1, 0x40A7A212941F94DD, 0x10A02C1F7BA47FB3, 0xB74EF7AD825DA8AB,
          0x1D4F0BC7C7BBDCF9, 0xAA01FC6A45E67452, 0xAA01FC6A, 0x45E67452, 0x0, 0x7FB36242C402F684);
    XorIs(0x93, 0xa3, 0x3f, 0xf5, 0x4e, 0x4d, 0x0c, 0x13, 0x31, 0x59, 0xb4, 0xcd, 0x4b, 0xe0, 0x51, 0x8a);
    LaneIs(acc, input, 768, secret, 96, 2, 0x19ED65CEDCCE12FE, 0xBF95FC4C42EF9288, 0x93A33FF54E4D0C13,
          0x3159B4CD4BE0518A, 0xA2FA8B3805AD5D99, 0xA2FA8B38, 0x5AD5D99, 0x0, 0xDD20A5B9B8E631FE);
    XorIs(0xbf, 0x95, 0xfc, 0x4c, 0x42, 0xef, 0x92, 0x88, 0x64, 0x73, 0x78, 0xd9, 0xc9, 0x7e, 0x9f, 0xc8);
    LaneIs(acc, input, 768, secret, 96, 3, 0x33A34E3C2970D4B0, 0x93A33FF54E4D0C13, 0xBF95FC4C42EF9288,
          0x647378D9C97E9FC8, 0xDBE684958B910D40, 0xDBE68495, 0x8B910D40, 0x1, 0x3F295121257F9703);
    XorIs(0x3b, 0x90, 0x86, 0x8f, 0x92, 0xc2, 0x76, 0xd2, 0xc3, 0xeb, 0xd3, 0x34, 0x83, 0xac, 0xc5, 0xea);
    LaneIs(acc, input, 768, secret, 96, 4, 0xA6F9DF77BBC7E109, 0x5AB9C9577B5F847B, 0x3B90868F92C276D2,
          0xC3EBD33483ACC5EA, 0xF87B55BB116EB338, 0xF87B55BB, 0x116EB338, 0x1, 0x129F4C74106DE76C);
    XorIs(0x5a, 0xb9, 0xc9, 0x57, 0x7b, 0x5f, 0x84, 0x7b, 0xeb, 0x63, 0x13, 0xfa, 0xff, 0xa0, 0x81, 0xc5);
    LaneIs(acc, input, 768, secret, 96, 5, 0xAFDEDE468A213C8A, 0x3B90868F92C276D2, 0x5AB9C9577B5F847B,
          0xEB6313FAFFA081C5, 0xB1DADAAD84FF05BE, 0xB1DADAAD, 0x84FF05BE, 0x1, 0x47D56A9469EA60C2);
    XorIs(0xde, 0x1e, 0x41, 0x3d, 0x26, 0xb3, 0x23, 0xf8, 0x49, 0xda, 0xf0, 0xb7, 0x51, 0xdd, 0x0d, 0x17);
    LaneIs(acc, input, 768, secret, 96, 6, 0x151CF1FDDF480FA, 0x198B1353DCBD2B09, 0xDE1E413D26B323F8,
          0x49DAF0B751DD0D17, 0x97C4B18A776E2EEF, 0x97C4B18A, 0x776E2EEF, 0x0, 0x61AAA352328637D9);
    XorIs(0x19, 0x8b, 0x13, 0x53, 0xdc, 0xbd, 0x2b, 0x09, 0x9e, 0x68, 0xd4, 0x29, 0x26, 0x55, 0x16, 0xd3);
    LaneIs(acc, input, 768, secret, 96, 7, 0xB5B2D576BA1E8F20, 0xDE1E413D26B323F8, 0x198B1353DCBD2B09,
          0x9E68D429265516D3, 0x87E3C77AFAE83DDA, 0x87E3C77A, 0xFAE83DDA, 0x2, 0x1900CEC2C9E1A2FC);
  }

  lemma Stripe13()
    ensures Accumulate512([0xE9FE898FC650D0A, 0x7FB36242C402F684, 0xDD20A5B9B8E631FE, 0x3F295121257F9703,
          0x129F4C74106DE76C, 0x47D56A9469EA60C2, 0x61AAA352328637D9, 0x1900CEC2C9E1A2FC], Window(TestBuffer(2048),
          832), Window(KSecret(), 104)) ==
            [0xA0CC4FDA603BE985, 0x5385DA2C802160F1, 0x40BF6AEED0ABF1C8, 0x7030055F4CF62D9, 0x52245856851318E0,
                  0x9FD4907B5BBFB221, 0x961A298215998E49, 0x213F086D8F10B38A]
  {
    hide Xor, Generator, ReadLE64, TestBuffer, KSecret, Accumulate512, Window;
    var acc: Acc := [0xE9FE898FC650D0A, 0x7FB36242C402F684, 0xDD20A5B9B8E631FE, 0x3F295121257F9703,
          0x129F4C74106DE76C, 0x47D56A9469EA60C2, 0x61AAA352328637D9, 0x1900CEC2C9E1A2FC];
    var input, secret := TestBuffer(2048), KSecret();
    Buffer15(2048);
    Buffer16(2048);
    Secret1();
    Secret2();
    XorIs(0x90, 0x73, 0x31, 0x8c, 0xf5, 0xf7, 0xa2, 0x9b, 0x1d, 0x4f, 0x0b, 0xc7, 0xc7, 0xbb, 0xdc, 0xf9);
    LaneIs(acc, input, 832, secret, 104, 0, 0xE9FE898FC650D0A, 0x766C7043B9D3A1C5, 0x9073318CF5F7A29B,
          0x1D4F0BC7C7BBDCF9, 0x8D3C3A4B324C7E62, 0x8D3C3A4B, 0x324C7E62, 0x0, 0xA0CC4FDA603BE985);
    XorIs(0x76, 0x6c, 0x70, 0x43, 0xb9, 0xd3, 0xa1, 0xc5, 0x31, 0x59, 0xb4, 0xcd, 0x4b, 0xe0, 0x51, 0x8a);
    LaneIs(acc, input, 832, secret, 104, 1, 0x7FB36242C402F684, 0x9073318CF5F7A29B, 0x766C7043B9D3A1C5,
          0x3159B4CD4BE0518A, 0x4735C48EF233F04F, 0x4735C48E, 0xF233F04F, 0x1, 0x5385DA2C802160F1);
    XorIs(0x84, 0x9d, 0xf5, 0x06, 0xd3, 0x8f, 0xfe, 0x8e, 0x64, 0x73, 0x78, 0xd9, 0xc9, 0x7e, 0x9f, 0xc8);
    LaneIs(acc, input, 832, secret, 104, 2, 0xDD20A5B9B8E631FE, 0x4BF274C0FDDA75D0, 0x849DF506D38FFE8E,
          0x647378D9C97E9FC8, 0xE0EE8DDF1AF16146, 0xE0EE8DDF, 0x1AF16146, 0x1, 0x40BF6AEED0ABF1C8);
    XorIs(0x4b, 0xf2, 0x74, 0xc0, 0xfd, 0xda, 0x75, 0xd0, 0xc3, 0xeb, 0xd3, 0x34, 0x83, 0xac, 0xc5, 0xea);
    LaneIs(acc, input, 832, secret, 104, 3, 0x3F295121257F9703, 0x849DF506D38FFE8E, 0x4BF274C0FDDA75D0,
          0xC3EBD33483ACC5EA, 0x8819A7F47E76B03A, 0x8819A7F4, 0x7E76B03A, 0x1, 0x7030055F4CF62D9);
    XorIs(0x47, 0x4a, 0xbe, 0xd4, 0x6f, 0x77, 0x2a, 0xb4, 0xeb, 0x63, 0x13, 0xfa, 0xff, 0xa0, 0x81, 0xc5);
    LaneIs(acc, input, 832, secret, 104, 4, 0x129F4C74106DE76C, 0xDE1C902C4DF00626, 0x474ABED46F772AB4,
          0xEB6313FAFFA081C5, 0xAC29AD2E90D7AB71, 0xAC29AD2E, 0x90D7AB71, 0x1, 0x52245856851318E0);
    XorIs(0xde, 0x1c, 0x90, 0x2c, 0x4d, 0xf0, 0x06, 0x26, 0x49, 0xda, 0xf0, 0xb7, 0x51, 0xdd, 0x0d, 0x17);
    LaneIs(acc, input, 832, secret, 104, 5, 0x47D56A9469EA60C2, 0x474ABED46F772AB4, 0xDE1C902C4DF00626,
          0x49DAF0B751DD0D17, 0x97C6609B1C2D0B31, 0x97C6609B, 0x1C2D0B31, 0x0, 0x9FD4907B5BBFB221);
    XorIs(0x66, 0x06, 0x16, 0x80, 0x28, 0x38, 0x08, 0x7e, 0x9e, 0x68, 0xd4, 0x29, 0x26, 0x55, 0x16, 0xd3);
    LaneIs(acc, input, 832, secret, 104, 6, 0x61AAA352328637D9, 0x266F929CE574FC3B, 0x660616802838087E,
          0x9E68D429265516D3, 0xF86EC2A90E6D1EAD, 0xF86EC2A9, 0xE6D1EAD, 0x0, 0x961A298215998E49);
    XorIs(0x26, 0x6f, 0x92, 0x9c, 0xe5, 0x74, 0xfc, 0x3b, 0xfc, 0xa1, 0x47, 0x7d, 0x58, 0xbe, 0x16, 0x2b);
    LaneIs(acc, input, 832, secret, 104, 7, 0x1900CEC2C9E1A2FC, 0x660616802838087E, 0x266F929CE574FC3B,
          0xFCA1477D58BE162B, 0xDACED5E1BDCAEA10, 0xDACED5E1, 0xBDCAEA10, 0x1, 0x213F086D8F10B38A);
  }

  lemma Stripe14()
    ensures Accumulate512([0xA0CC4FDA603BE985, 0x5385DA2C802160F1, 0x40BF6AEED0ABF1C8, 0x7030055F4CF62D9,
          0x52245856851318E0, 0x9FD4907B5BBFB221, 0x961A298215998E49, 0x213F086D8F10B38A], Window(TestBuffer(2048),
          896), Window(KSecret(), 112)) ==
            [0xCFE185A011413E3B, 0x83A8FE186AC4EE3A, 0x93CC6F4A015BEA68, 0x67BE9BFC76FA353C, 0xF8A120670664727B,
                  0x83E3357D9D67B7B, 0xB2EDFD7C6F857474, 0xDE1FD2CABC8C308C]
  {
    hide Xor, Generator, ReadLE64, TestBuffer, KSecret, Accumulate512, Window;
    var acc: Acc := [0xA0CC4FDA603BE985, 0x5385DA2C802160F1, 0x40BF6AEED0ABF1C8, 0x7030055F4CF62D9,
          0x52245856851318E0, 0x9FD4907B5BBFB221, 0x961A298215998E49, 0x213F086D8F10B38A];
    var input, secret := TestBuffer(2048), KSecret();
    Buffer16(2048);
    Buffer17(2048);
    Secret1();
    Secret2();
    XorIs(0x1f, 0x42, 0x1f, 0x45, 0x05, 0x25, 0x0e, 0xad, 0x31, 0x59, 0xb4, 0xcd, 0x4b, 0xe0, 0x51, 0x8a);
    LaneIs(acc, input, 896, secret, 112, 0, 0xA0CC4FDA603BE985, 0x20E53B13F67EBAFE, 0x1F421F4505250EAD,
          0x3159B4CD4BE0518A, 0x2E1BAB884EC55F27, 0x2E1BAB88, 0x4EC55F27, 0x0, 0xCFE185A011413E3B);
    XorIs(0x20, 0xe5, 0x3b, 0x13, 0xf6, 0x7e, 0xba, 0xfe, 0x64, 0x73, 0x78, 0xd9, 0xc9, 0x7e, 0x9f, 0xc8);
    LaneIs(acc, input, 896, secret, 112, 1, 0x5385DA2C802160F1, 0x1F421F4505250EAD, 0x20E53B13F67EBAFE,
          0x647378D9C97E9FC8, 0x449643CA3F002536, 0x449643CA, 0x3F002536, 0x0, 0x83A8FE186AC4EE3A);
    XorIs(0x1a, 0x30, 0x31, 0x2a, 0xb2, 0xb0, 0xeb, 0xac, 0xc3, 0xeb, 0xd3, 0x34, 0x83, 0xac, 0xc5, 0xea);
    LaneIs(acc, input, 896, secret, 112, 2, 0x40BF6AEED0ABF1C8, 0x2941F2A5A2A6C06C, 0x1A30312AB2B0EBAC,
          0xC3EBD33483ACC5EA, 0xD9DBE21E311C2E46, 0xD9DBE21E, 0x311C2E46, 0x0, 0x93CC6F4A015BEA68);
    XorIs(0x29, 0x41, 0xf2, 0xa5, 0xa2, 0xa6, 0xc0, 0x6c, 0xeb, 0x63, 0x13, 0xfa, 0xff, 0xa0, 0x81, 0xc5);
    LaneIs(acc, input, 896, secret, 112, 3, 0x7030055F4CF62D9, 0x1A30312AB2B0EBAC, 0x2941F2A5A2A6C06C,
          0xEB6313FAFFA081C5, 0xC222E15F5D0641A9, 0xC222E15F, 0x5D0641A9, 0x0, 0x67BE9BFC76FA353C);
    XorIs(0x3a, 0x71, 0xc4, 0x25, 0xe2, 0x19, 0x48, 0x9e, 0x49, 0xda, 0xf0, 0xb7, 0x51, 0xdd, 0x0d, 0x17);
    LaneIs(acc, input, 896, secret, 112, 4, 0x52245856851318E0, 0x554363CF1FBEDD79, 0x3A71C425E219489E,
          0x49DAF0B751DD0D17, 0x73AB3492B3C44589, 0x73AB3492, 0xB3C44589, 0x0, 0xF8A120670664727B);
    XorIs(0x55, 0x43, 0x63, 0xcf, 0x1f, 0xbe, 0xdd, 0x79, 0x9e, 0x68, 0xd4, 0x29, 0x26, 0x55, 0x16, 0xd3);
    LaneIs(acc, input, 896, secret, 112, 5, 0x9FD4907B5BBFB221, 0x3A71C425E219489E, 0x554363CF1FBEDD79,
          0x9E68D429265516D3, 0xCB2BB7E639EBCBAA, 0xCB2BB7E6, 0x39EBCBAA, 0x1, 0x83E3357D9D67B7B);
    XorIs(0x02, 0x70, 0x3a, 0x3a, 0xbf, 0x36, 0x13, 0x76, 0xfc, 0xa1, 0x47, 0x7d, 0x58, 0xbe, 0x16, 0x2b);
    LaneIs(acc, input, 896, secret, 112, 6, 0x961A298215998E49, 0x365D674E11A70060, 0x2703A3ABF361376,
          0xFCA1477D58BE162B, 0xFED17D47E788055D, 0xFED17D47, 0xE788055D, 0x1, 0xB2EDFD7C6F857474);
    XorIs(0x36, 0x5d, 0x67, 0x4e, 0x11, 0xa7, 0x00, 0x60, 0xce, 0x31, 0xd0, 0x7a, 0xd1, 0xb8, 0xf8, 0x8f);
    LaneIs(acc, input, 896, secret, 112, 7, 0x213F086D8F10B38A, 0x2703A3ABF361376, 0x365D674E11A70060,
          0xCE31D07AD1B8F88F, 0xF86CB734C01FF8EF, 0xF86CB734, 0xC01FF8EF, 0x0, 0xDE1FD2CABC8C308C);
  }

  lemma Stripe15()
    ensures Accumulate512([0xCFE185A011413E3B, 0x83A8FE186AC4EE3A, 0x93CC6F4A015BEA68, 0x67BE9BFC76FA353C,
          0xF8A120670664727B, 0x83E3357D9D67B7B, 0xB2EDFD7C6F857474, 0xDE1FD2CABC8C308C], Window(TestBuffer(2048),
          960), Window(KSecret(), 120)) ==
            [0x79807D3F9416E852, 0x7C40E4E346D96938, 0x9C47A9699F49DE65, 0x37932409FE56A192, 0x7BCE8D63A059B08C,
                  0xF973A09329895DE6, 0xDB4BD374FD7BCBC1, 0x440DBF772236B3BF]
  {
    hide Xor, Generator, ReadLE64, TestBuffer, KSecret, Accumulate512, Window;
    var acc: Acc := [0xCFE185A011413E3B, 0x83A8FE186AC4EE3A, 0x93CC6F4A015BEA68, 0x67BE9BFC76FA353C,
          0xF8A120670664727B, 0x83E3357D9D67B7B, 0xB2EDFD7C6F857474, 0xDE1FD2CABC8C308C];
    var input, secret := TestBuffer(2048), KSecret();
    Buffer17(2048);
    Buffer18(2048);
    Secret1();
    Secret2();
    XorIs(0xc6, 0x16, 0xc0, 0x89, 0xdf, 0xf0, 0x0f, 0x64, 0x64, 0x73, 0x78, 0xd9, 0xc9, 0x7e, 0x9f, 0xc8);
    LaneIs(acc, input, 960, secret, 120, 0, 0xCFE185A011413E3B, 0x9B4FC9961270D457, 0xC616C089DFF00F64,
          0x647378D9C97E9FC8, 0xA265B850168E90AC, 0xA265B850, 0x168E90AC, 0x1, 0x79807D3F9416E852);
    XorIs(0x9b, 0x4f, 0xc9, 0x96, 0x12, 0x70, 0xd4, 0x57, 0xc3, 0xeb, 0xd3, 0x34, 0x83, 0xac, 0xc5, 0xea);
    LaneIs(acc, input, 960, secret, 120, 1, 0x83A8FE186AC4EE3A, 0xC616C089DFF00F64, 0x9B4FC9961270D457,
          0xC3EBD33483ACC5EA, 0x58A41AA291DC11BD, 0x58A41AA2, 0x91DC11BD, 0x1, 0x7C40E4E346D96938);
    XorIs(0xa0, 0xe1, 0x85, 0x23, 0x57, 0xc7, 0xac, 0xba, 0xeb, 0x63, 0x13, 0xfa, 0xff, 0xa0, 0x81, 0xc5);
    LaneIs(acc, input, 960, secret, 120, 2, 0x93CC6F4A015BEA68, 0xD6CF182B1A51F956, 0xA0E1852357C7ACBA,
          0xEB6313FAFFA081C5, 0x4B8296D9A8672D7F, 0x4B8296D9, 0xA8672D7F, 0x1, 0x9C47A9699F49DE65);
    XorIs(0xd6, 0xcf, 0x18, 0x2b, 0x1a, 0x51, 0xf9, 0x56, 0x49, 0xda, 0xf0, 0xb7, 0x51, 0xdd, 0x0d, 0x17);
    LaneIs(acc, input, 960, secret, 120, 3, 0x67BE9BFC76FA353C, 0xA0E1852357C7ACBA, 0xD6CF182B1A51F956,
          0x49DAF0B751DD0D17, 0x9F15E89C4B8CF441, 0x9F15E89C, 0x4B8CF441, 0x1, 0x37932409FE56A192);
    XorIs(0xea, 0x63, 0xfd, 0xde, 0x01, 0xee, 0x73, 0xa7, 0x9e, 0x68, 0xd4, 0x29, 0x26, 0x55, 0x16, 0xd3);
    LaneIs(acc, input, 960, secret, 120, 4, 0xF8A120670664727B, 0x712AC77354EAC725, 0xEA63FDDE01EE73A7,
          0x9E68D429265516D3, 0x740B29F727BB6574, 0x740B29F7, 0x27BB6574, 0x1, 0x7BCE8D63A059B08C);
    XorIs(0x71, 0x2a, 0xc7, 0x73, 0x54, 0xea, 0xc7, 0x25, 0xfc, 0xa1, 0x47, 0x7d, 0x58, 0xbe, 0x16, 0x2b);
    LaneIs(acc, input, 960, secret, 120, 5, 0x83E3357D9D67B7B, 0xEA63FDDE01EE73A7, 0x712AC77354EAC725,
          0xFCA1477D58BE162B, 0x8D8B800E0C54D10E, 0x8D8B800E, 0xC54D10E, 0x0, 0xF973A09329895DE6);
    XorIs(0x25, 0x19, 0x98, 0x7a, 0x2b, 0xa5, 0xf6, 0xb3, 0xce, 0x31, 0xd0, 0x7a, 0xd1, 0xb8, 0xf8, 0x8f);
    LaneIs(acc, input, 960, secret, 120, 6, 0xB2EDFD7C6F857474, 0x429DCF051495774D, 0x2519987A2BA5F6B3,
          0xCE31D07AD1B8F88F, 0xEB284800FA1D0E3C, 0xEB284800, 0xFA1D0E3C, 0x1, 0xDB4BD374FD7BCBC1);
    XorIs(0x42, 0x9d, 0xcf, 0x05, 0x14, 0x95, 0x77, 0x4d, 0x28, 0x04, 0x16, 0x95, 0x8f, 0x3a, 0xcb, 0x45);
    LaneIs(acc, input, 960, secret, 120, 7, 0xDE1FD2CABC8C308C, 0x2519987A2BA5F6B3, 0x429DCF051495774D,
          0x280416958F3ACB45, 0x6A99D9909BAFBC08, 0x6A99D990, 0x9BAFBC08, 0x1, 0x440DBF772236B3BF);
  }

  lemma Scrambled()
    ensures ScrambleAcc([0x79807D3F9416E852, 0x7C40E4E346D96938, 0x9C47A9699F49DE65, 0x37932409FE56A192,
          0x7BCE8D63A059B08C, 0xF973A09329895DE6, 0xDB4BD374FD7BCBC1, 0x440DBF772236B3BF], Window(KSecret(), 128)) ==
            [0x6BE027E2500F538, 0x76A892A2882301BC, 0xE3A45C8D8B8DBEED, 0x781155323C124E37, 0x519A0E3ACC9931A,
                  0x45C0D07FE650A72E, 0x96A2DC276CE1DE23, 0x385037A2CB4E669B]
  {
    hide Xor, ReadLE64, KSecret, Window, ScrambleAcc;
    var acc: Acc := [0x79807D3F9416E852, 0x7C40E4E346D96938, 0x9C47A9699F49DE65, 0x37932409FE56A192,
          0x7BCE8D63A059B08C, 0xF973A09329895DE6, 0xDB4BD374FD7BCBC1, 0x440DBF772236B3BF];
    var secret := KSecret();
    Secret2();
    XorIs(0x79, 0x80, 0x7d, 0x3f, 0x94, 0x16, 0xe8, 0x52, 0x00, 0x00, 0x00, 0x00, 0x00, 0x00, 0xf3, 0x00);
    XorIs(0x79, 0x80, 0x7d, 0x3f, 0x94, 0x16, 0x1b, 0x52, 0xc3, 0xeb, 0xd3, 0x34, 0x83, 0xac, 0xc5, 0xea);
    ScrambleIs(acc, secret, 128, 0, 0x79807D3F9416E852, 0xF300, 0x7D3F9416E852, 0x79807D3F94161B52,
          0xC3EBD33483ACC5EA, 0xBA6BAE0B17BADEB8, 0x7336DB2B, 0x6BE027E2500F538);
    XorIs(0x7c, 0x40, 0xe4, 0xe3, 0x46, 0xd9, 0x69, 0x38, 0x00, 0x00, 0x00, 0x00, 0x00, 0x00, 0xf8, 0x81);
    XorIs(0x7c, 0x40, 0xe4, 0xe3, 0x46, 0xd9, 0x91, 0xb9, 0xeb, 0x63, 0x13, 0xfa, 0xff, 0xa0, 0x81, 0xc5);
    ScrambleIs(acc, secret, 128, 1, 0x7C40E4E346D96938, 0xF881, 0x64E346D96938, 0x7C40E4E346D991B9,
          0xEB6313FAFFA081C5, 0x9723F719B979107C, 0x5D68F314, 0x76A892A2882301BC);
    XorIs(0x9c, 0x47, 0xa9, 0x69, 0x9f, 0x49, 0xde, 0x65, 0x00, 0x00, 0x00, 0x00, 0x00, 0x01, 0x38, 0x8f);
    XorIs(0x9c, 0x47, 0xa9, 0x69, 0x9f, 0x48, 0xe6, 0xea, 0x49, 0xda, 0xf0, 0xb7, 0x51, 0xdd, 0x0d, 0x17);
    ScrambleIs(acc, secret, 128, 2, 0x9C47A9699F49DE65, 0x1388F, 0x29699F49DE65, 0x9C47A9699F48E6EA,
          0x49DAF0B751DD0D17, 0xD59D59DECE95EBFD, 0x840567D0, 0xE3A45C8D8B8DBEED);
    XorIs(0x37, 0x93, 0x24, 0x09, 0xfe, 0x56, 0xa1, 0x92, 0x00, 0x00, 0x00, 0x00, 0x00, 0x00, 0x6f, 0x26);
    XorIs(0x37, 0x93, 0x24, 0x09, 0xfe, 0x56, 0xce, 0xb4, 0x9e, 0x68, 0xd4, 0x29, 0x26, 0x55, 0x16, 0xd3);
    ScrambleIs(acc, secret, 128, 3, 0x37932409FE56A192, 0x6F26, 0x2409FE56A192, 0x37932409FE56CEB4,
          0x9E68D429265516D3, 0xA9FBF020D803D867, 0x690E5422, 0x781155323C124E37);
    XorIs(0x7b, 0xce, 0x8d, 0x63, 0xa0, 0x59, 0xb0, 0x8c, 0x00, 0x00, 0x00, 0x00, 0x00, 0x00, 0xf7, 0x9d);
    XorIs(0x7b, 0xce, 0x8d, 0x63, 0xa0, 0x59, 0x47, 0x11, 0xfc, 0xa1, 0x47, 0x7d, 0x58, 0xbe, 0x16, 0x2b);
    ScrambleIs(acc, secret, 128, 4, 0x7BCE8D63A059B08C, 0xF79D, 0xD63A059B08C, 0x7BCE8D63A0594711,
          0xFCA1477D58BE162B, 0x876FCA1EF8E7513A, 0x53B45825, 0x519A0E3ACC9931A);
    XorIs(0xf9, 0x73, 0xa0, 0x93, 0x29, 0x89, 0x5d, 0xe6, 0x00, 0x00, 0x00, 0x00, 0x00, 0x01, 0xf2, 0xe7);
    XorIs(0xf9, 0x73, 0xa0, 0x93, 0x29, 0x88, 0xaf, 0x01, 0xce, 0x31, 0xd0, 0x7a, 0xd1, 0xb8, 0xf8, 0x8f);
    ScrambleIs(acc, secret, 128, 5, 0xF973A09329895DE6, 0x1F2E7, 0x209329895DE6, 0xF973A0932988AF01,
          0xCE31D07AD1B8F88F, 0x374270E9F830578E, 0x2226FB3B, 0x45C0D07FE650A72E);
    XorIs(0xdb, 0x4b, 0xd3, 0x74, 0xfd, 0x7b, 0xcb, 0xc1, 0x00, 0x00, 0x00, 0x00, 0x00, 0x01, 0xb6, 0x97);
    XorIs(0xdb, 0x4b, 0xd3, 0x74, 0xfd, 0x7a, 0x7d, 0x56, 0x28, 0x04, 0x16, 0x95, 0x8f, 0x3a, 0xcb, 0x45);
    ScrambleIs(acc, secret, 128, 6, 0xDB4BD374FD7BCBC1, 0x1B697, 0x5374FD7BCBC1, 0xDB4BD374FD7A7D56,
          0x280416958F3ACB45, 0xF34FC5E17240B613, 0x965FF5ED, 0x96A2DC276CE1DE23);
    XorIs(0x44, 0x0d, 0xbf, 0x77, 0x22, 0x36, 0xb3, 0xbf, 0x00, 0x00, 0x00, 0x00, 0x00, 0x00, 0x88, 0x1b);
    XorIs(0x44, 0x0d, 0xbf, 0x77, 0x22, 0x36, 0x3b, 0xa4, 0x7e, 0x40, 0x4b, 0xbb, 0xca, 0xfb, 0xd7, 0xaf);
    ScrambleIs(acc, secret, 128, 7, 0x440DBF772236B3BF, 0x881B, 0x3F772236B3BF, 0x440DBF7722363BA4,
          0x7E404BBBCAFBD7AF, 0x3A4DF4CCE8CDEC0B, 0x2408BF8D, 0x385037A2CB4E669B);
  }

  lemma Stripe16()
    ensures Accumulate512([0x6BE027E2500F538, 0x76A892A2882301BC, 0xE3A45C8D8B8DBEED, 0x781155323C124E37,
          0x519A0E3ACC9931A, 0x45C0D07FE650A72E, 0x96A2DC276CE1DE23, 0x385037A2CB4E669B], Window(TestBuffer(2048),
          1024), Window(KSecret(), 0)) ==
            [0xFF96B2AC05090E9C, 0x29E1C56171662BD2, 0xE9C52179E9489A60, 0x9CC9067B31D4CAFC, 0x2D1AC1474B776CB8,
                  0x426D2BC7DE05B9CE, 0xAD91408496A7AA6, 0xCABCFACD7C583DD2]
  {
    hide Xor, Generator, ReadLE64, TestBuffer, KSecret, Accumulate512, Window;
    var acc: Acc := [0x6BE027E2500F538, 0x76A892A2882301BC, 0xE3A45C8D8B8DBEED, 0x781155323C124E37,
          0x519A0E3ACC9931A, 0x45C0D07FE650A72E, 0x96A2DC276CE1DE23, 0x385037A2CB4E669B];
    var input, secret := TestBuffer(2048), KSecret();
    Buffer19(2048);
    Buffer20(2048);
    Secret0();
    XorIs(0x48, 0x36, 0xec, 0x77, 0x4c, 0x4e, 0x54, 0xf6, 0xbe, 0x4b, 0xa4, 0x23, 0x39, 0x6c, 0xfe, 0xb8);
    LaneIs(acc, input, 1024, secret, 0, 0, 0x6BE027E2500F538, 0x88100D8194AC47CC, 0x4836EC774C4E54F6,
          0xBE4BA423396CFEB8, 0xF67D48547522AA4E, 0xF67D4854, 0x7522AA4E, 0x0, 0xFF96B2AC05090E9C);
    XorIs(0x88, 0x10, 0x0d, 0x81, 0x94, 0xac, 0x47, 0xcc, 0x1c, 0xad, 0x21, 0xf7, 0x2c, 0x81, 0x01, 0x7c);
    LaneIs(acc, input, 1024, secret, 0, 1, 0x76A892A2882301BC, 0x4836EC774C4E54F6, 0x88100D8194AC47CC,
          0x1CAD21F72C81017C, 0x94BD2C76B82D46B0, 0x94BD2C76, 0xB82D46B0, 0x1, 0x29E1C56171662BD2);
    XorIs(0x7b, 0x82, 0xca, 0xc1, 0xd8, 0xa2, 0xf7, 0x50, 0xdb, 0x97, 0x90, 0x83, 0xe9, 0x6d, 0xd4, 0xde);
    LaneIs(acc, input, 1024, secret, 0, 2, 0xE3A45C8D8B8DBEED, 0xE6FB2726092DC4D7, 0x7B82CAC1D8A2F750,
          0xDB979083E96DD4DE, 0xA0155A4231CF238E, 0xA0155A42, 0x31CF238E, 0x1, 0xE9C52179E9489A60);
    XorIs(0xe6, 0xfb, 0x27, 0x26, 0x09, 0x2d, 0xc4, 0xd7, 0x1f, 0x67, 0xb3, 0xb7, 0xa4, 0xa4, 0x40, 0x72);
    LaneIs(acc, input, 1024, secret, 0, 3, 0x781155323C124E37, 0x7B82CAC1D8A2F750, 0xE6FB2726092DC4D7,
          0x1F67B3B7A4A44072, 0xF99C9491AD8984A5, 0xF99C9491, 0xAD8984A5, 0x1, 0x9CC9067B31D4CAFC);
    XorIs(0xa6, 0x0a, 0xd7, 0x1a, 0xc6, 0xe7, 0x5e, 0x06, 0x78, 0xe5, 0xc0, 0xcc, 0x4e, 0xe6, 0x79, 0xcb);
    LaneIs(acc, input, 1024, secret, 0, 4, 0x519A0E3ACC9931A, 0xB1911A21E4C02940, 0xA60AD71AC6E75E06,
          0x78E5C0CC4EE679CB, 0xDEEF17D6880127CD, 0xDEEF17D6, 0x880127CD, 0x1, 0x2D1AC1474B776CB8);
    XorIs(0xb1, 0x91, 0x1a, 0x21, 0xe4, 0xc0, 0x29, 0x40, 0x21, 0x72, 0xff, 0xcc, 0x7d, 0xd0, 0x5a, 0x82);
    LaneIs(acc, input, 1024, secret, 0, 5, 0x45C0D07FE650A72E, 0xA60AD71AC6E75E06, 0xB1911A21E4C02940,
          0x2172FFCC7DD05A82, 0x90E3E5ED991073C2, 0x90E3E5ED, 0x991073C2, 0x1, 0x426D2BC7DE05B9CE);
    XorIs(0x6d, 0xe2, 0xaa, 0xda, 0x7e, 0x00, 0x4d, 0x9f, 0x8e, 0x24, 0x43, 0xf7, 0x74, 0x46, 0x08, 0xb8);
    LaneIs(acc, input, 1024, secret, 0, 6, 0x96A2DC276CE1DE23, 0x6B11ECDA0813F5A8, 0x6DE2AADA7E004D9F,
          0x8E2443F7744608B8, 0xE3C6E92D0A464527, 0xE3C6E92D, 0xA464527, 0x1, 0xAD91408496A7AA6);
    XorIs(0x6b, 0x11, 0xec, 0xda, 0x08, 0x13, 0xf5, 0xa8, 0x4c, 0x26, 0x3a, 0x81, 0xe6, 0x90, 0x35, 0xe0);
    LaneIs(acc, input, 1024, secret, 0, 7, 0x385037A2CB4E669B, 0x6DE2AADA7E004D9F, 0x6B11ECDA0813F5A8,
          0x4C263A81E69035E0, 0x2737D65BEE83C048, 0x2737D65B, 0xEE83C048, 0x0, 0xCABCFACD7C583DD2);
  }

  lemma Stripe17()
    ensures Accumulate512([0xFF96B2AC05090E9C, 0x29E1C56171662BD2, 0xE9C52179E9489A60, 0x9CC9067B31D4CAFC,
          0x2D1AC1474B776CB8, 0x426D2BC7DE05B9CE, 0xAD91408496A7AA6, 0xCABCFACD7C583DD2], Window(TestBuffer(2048),
          1088), Window(KSecret(), 8)) ==
            [0x35B078B2427BB67E, 0x7DDAB2A92CF8389D, 0x9629061AB97930BB, 0xC63ABD046F643686, 0x77A3FB9402E9BB4E,
                  0xFF786696F25402EB, 0x3C04059CBBFF5395, 0xB06FE403256E7C83]
  {
    hide Xor, Generator, ReadLE64, TestBuffer, KSecret, Accumulate512, Window;
    var acc: Acc := [0xFF96B2AC05090E9C, 0x29E1C56171662BD2, 0xE9C52179E9489A60, 0x9CC9067B31D4CAFC,
          0x2D1AC1474B776CB8, 0x426D2BC7DE05B9CE, 0xAD91408496A7AA6, 0xCABCFACD7C583DD2];
    var input, secret := TestBuffer(2048), KSecret();
    Buffer20(2048);
    Buffer21(2048);
    Secret0();
    Secret1();
    XorIs(0x42, 0xe3, 0x50, 0x77, 0x9a, 0xc8, 0x96, 0x33, 0x1c, 0xad, 0x21, 0xf7, 0x2c, 0x81, 0x01, 0x7c);
    LaneIs(acc, input, 1088, secret, 8, 0, 0xFF96B2AC05090E9C, 0xF2F2E53980CB2162, 0x42E350779AC89633,
          0x1CAD21F72C81017C, 0x5E4E7180B649974F, 0x5E4E7180, 0xB649974F, 0x2, 0x35B078B2427BB67E);
    XorIs(0xf2, 0xf2, 0xe5, 0x39, 0x80, 0xcb, 0x21, 0x62, 0xdb, 0x97, 0x90, 0x83, 0xe9, 0x6d, 0xd4, 0xde);
    LaneIs(acc, input, 1088, secret, 8, 1, 0x29E1C56171662BD2, 0x42E350779AC89633, 0xF2F2E53980CB2162,
          0xDB979083E96DD4DE, 0x296575BA69A6F5BC, 0x296575BA, 0x69A6F5BC, 0x0, 0x7DDAB2A92CF8389D);
    XorIs(0xc5, 0x20, 0xcf, 0x16, 0x18, 0x43, 0x20, 0x28, 0x1f, 0x67, 0xb3, 0xb7, 0xa4, 0xa4, 0x40, 0x72);
    LaneIs(acc, input, 1088, secret, 8, 2, 0xE9C52179E9489A60, 0xB521C71930B65C1, 0xC520CF1618432028,
          0x1F67B3B7A4A44072, 0xDA477CA1BCE7605A, 0xDA477CA1, 0xBCE7605A, 0x1, 0x9629061AB97930BB);
    XorIs(0x0b, 0x52, 0x1c, 0x71, 0x93, 0x0b, 0x65, 0xc1, 0x78, 0xe5, 0xc0, 0xcc, 0x4e, 0xe6, 0x79, 0xcb);
    LaneIs(acc, input, 1088, secret, 8, 3, 0x9CC9067B31D4CAFC, 0xC520CF1618432028, 0xB521C71930B65C1,
          0x78E5C0CC4EE679CB, 0x73B7DCBDDDED1C0A, 0x73B7DCBD, 0xDDED1C0A, 0x1, 0xC63ABD046F643686);
    XorIs(0x90, 0xce, 0x07, 0x85, 0xba, 0x1e, 0x98, 0x41, 0x21, 0x72, 0xff, 0xcc, 0x7d, 0xd0, 0x5a, 0x82);
    LaneIs(acc, input, 1088, secret, 8, 4, 0x2D1AC1474B776CB8, 0xBFCFC803969BDCFB, 0x90CE0785BA1E9841,
          0x2172FFCC7DD05A82, 0xB1BCF849C7CEC2C3, 0xB1BCF849, 0xC7CEC2C3, 0x1, 0x77A3FB9402E9BB4E);
    XorIs(0xbf, 0xcf, 0xc8, 0x03, 0x96, 0x9b, 0xdc, 0xfb, 0x8e, 0x24, 0x43, 0xf7, 0x74, 0x46, 0x08, 0xb8);
    LaneIs(acc, input, 1088, secret, 8, 5, 0x426D2BC7DE05B9CE, 0x90CE0785BA1E9841, 0xBFCFC803969BDCFB,
          0x8E2443F7744608B8, 0x31EB8BF4E2DDD443, 0x31EB8BF4, 0xE2DDD443, 0x0, 0xFF786696F25402EB);
    XorIs(0xcd, 0x96, 0xa0, 0x40, 0xaa, 0x8f, 0x0d, 0x4c, 0x4c, 0x26, 0x3a, 0x81, 0xe6, 0x90, 0x35, 0xe0);
    LaneIs(acc, input, 1088, secret, 8, 6, 0xAD91408496A7AA6, 0xA9AB28AA4B3A743, 0xCD96A040AA8F0D4C,
          0x4C263A81E69035E0, 0x81B09AC14C1F38AC, 0x81B09AC1, 0x4C1F38AC, 0x0, 0x3C04059CBBFF5395);
    XorIs(0x0a, 0x9a, 0xb2, 0x8a, 0xa4, 0xb3, 0xa7, 0x43, 0xcb, 0x00, 0xc3, 0x91, 0xbb, 0x52, 0x28, 0x3c);
    LaneIs(acc, input, 1088, secret, 8, 7, 0xCABCFACD7C583DD2, 0xCD96A040AA8F0D4C, 0xA9AB28AA4B3A743,
          0xCB00C391BB52283C, 0xC19A711B1FE18F7F, 0xC19A711B, 0x1FE18F7F, 0x1, 0xB06FE403256E7C83);
  }

  lemma Stripe18()
    ensures Accumulate512([0x35B078B2427BB67E, 0x7DDAB2A92CF8389D, 0x9629061AB97930BB, 0xC63ABD046F643686,
          0x77A3FB9402E9BB4E, 0xFF786696F25402EB, 0x3C04059CBBFF5395, 0xB06FE403256E7C83], Window(TestBuffer(2048),
          1152), Window(KSecret(), 16)) ==
            [0x6721FFC09E42CBFE, 0xF72F9B11D0A243FD, 0x724DAE7664728661, 0x2DE3637C428D81AD, 0x9B7D15F260797E7C,
                  0x1BB33F0C3FEE6FDF, 0x105FA1B2D4D80751, 0xDD4773ED69DE64B8]
  {
    hide Xor, Generator, ReadLE64, TestBuffer, KSecret, Accumulate512, Window;
    var acc: Acc := [0x35B078B2427BB67E, 0x7DDAB2A92CF8389D, 0x9629061AB97930BB, 0xC63ABD046F643686,
          0x77A3FB9402E9BB4E, 0xFF786696F25402EB, 0x3C04059CBBFF5395, 0xB06FE403256E7C83];
    var input, secret := TestBuffer(2048), KSecret();
    Buffer21(2048);
    Buffer22(2048);
    Secret0();
    Secret1();
    XorIs(0x05, 0x0b, 0x99, 0xb6, 0x87, 0x2d, 0x81, 0x5e, 0xdb, 0x97, 0x90, 0x83, 0xe9, 0x6d, 0xd4, 0xde);
    LaneIs(acc, input, 1152, secret, 16, 0, 0x35B078B2427BB67E, 0xD19289BE2B73E200, 0x50B99B6872D815E,
          0xDB979083E96DD4DE, 0xDE9C09356E405580, 0xDE9C0935, 0x6E405580, 0x1, 0x6721FFC09E42CBFE);
    XorIs(0xd1, 0x92, 0x89, 0xbe, 0x2b, 0x73, 0xe2, 0x00, 0x1f, 0x67, 0xb3, 0xb7, 0xa4, 0xa4, 0x40, 0x72);
    LaneIs(acc, input, 1152, secret, 16, 1, 0x7DDAB2A92CF8389D, 0x50B99B6872D815E, 0xD19289BE2B73E200,
          0x1F67B3B7A4A44072, 0xCEF53A098FD7A272, 0xCEF53A09, 0x8FD7A272, 0x0, 0xF72F9B11D0A243FD);
    XorIs(0x96, 0xd6, 0x47, 0x0f, 0xa3, 0x90, 0xe5, 0xdf, 0x78, 0xe5, 0xc0, 0xcc, 0x4e, 0xe6, 0x79, 0xcb);
    LaneIs(acc, input, 1152, secret, 16, 2, 0x9629061AB97930BB, 0xFF3096B18D55E66A, 0x96D6470FA390E5DF,
          0x78E5C0CC4EE679CB, 0xEE3387C3ED769C14, 0xEE3387C3, 0xED769C14, 0x2, 0x724DAE7664728661);
    XorIs(0xff, 0x30, 0x96, 0xb1, 0x8d, 0x55, 0xe6, 0x6a, 0x21, 0x72, 0xff, 0xcc, 0x7d, 0xd0, 0x5a, 0x82);
    LaneIs(acc, input, 1152, secret, 16, 3, 0xC63ABD046F643686, 0x96D6470FA390E5DF, 0xFF3096B18D55E66A,
          0x2172FFCC7DD05A82, 0xDE42697DF085BCE8, 0xDE42697D, 0xF085BCE8, 0x2, 0x2DE3637C428D81AD);
    XorIs(0xe0, 0xca, 0xbd, 0xf7, 0x57, 0xf3, 0x25, 0x38, 0x8e, 0x24, 0x43, 0xf7, 0x74, 0x46, 0x08, 0xb8);
    LaneIs(acc, input, 1152, secret, 16, 4, 0x77A3FB9402E9BB4E, 0x145FEAF34D6AC32E, 0xE0CABDF757F32538,
          0x8E2443F7744608B8, 0x6EEEFE0023B52D80, 0x6EEEFE00, 0x23B52D80, 0x0, 0x9B7D15F260797E7C);
    XorIs(0x14, 0x5f, 0xea, 0xf3, 0x4d, 0x6a, 0xc3, 0x2e, 0x4c, 0x26, 0x3a, 0x81, 0xe6, 0x90, 0x35, 0xe0);
    LaneIs(acc, input, 1152, secret, 16, 5, 0xFF786696F25402EB, 0xE0CABDF757F32538, 0x145FEAF34D6AC32E,
          0x4C263A81E69035E0, 0x5879D072ABFAF6CE, 0x5879D072, 0xABFAF6CE, 0x2, 0x1BB33F0C3FEE6FDF);
    XorIs(0x2b, 0x06, 0x08, 0xda, 0xab, 0x3f, 0x1d, 0x75, 0xcb, 0x00, 0xc3, 0x91, 0xbb, 0x52, 0x28, 0x3c);
    LaneIs(acc, input, 1152, secret, 16, 6, 0x3C04059CBBFF5395, 0xC5FB9DDB8FE33459, 0x2B0608DAAB3F1D75,
          0xCB00C391BB52283C, 0xE006CB4B106D3549, 0xE006CB4B, 0x106D3549, 0x1, 0x105FA1B2D4D80751);
    XorIs(0xc5, 0xfb, 0x9d, 0xdb, 0x8f, 0xe3, 0x34, 0x59, 0xa3, 0x2e, 0x53, 0x1b, 0x8b, 0x65, 0xd0, 0x88);
    LaneIs(acc, input, 1152, secret, 16, 7, 0xB06FE403256E7C83, 0x2B0608DAAB3F1D75, 0xC5FB9DDB8FE33459,
          0xA32E531B8B65D088, 0x66D5CEC00486E4D1, 0x66D5CEC0, 0x486E4D1, 0x0, 0xDD4773ED69DE64B8);
  }

  lemma Stripe19()
    ensures Accumulate512([0x6721FFC09E42CBFE, 0xF72F9B11D0A243FD, 0x724DAE7664728661, 0x2DE3637C428D81AD,
          0x9B7D15F260797E7C, 0x1BB33F0C3FEE6FDF, 0x105FA1B2D4D80751, 0xDD4773ED69DE64B8], Window(TestBuffer(2048),
          1216), Window(KSecret(), 24)) ==
            [0x14525D112810180E, 0xB7D0041FE8B3CA5B, 0x556AA65A2D54BB49, 0x136BC5737B163EC7, 0x44FC5B4EB3887364,
                  0x6E5B756F1E6BEA3B, 0x7BFD8B490B4C5119, 0x9C1D15B82A84B59F]
  {
    hide Xor, Generator, ReadLE64, TestBuffer, KSecret, Accumulate512, Window;
    var acc: Acc := [0x6721FFC09E42CBFE, 0xF72F9B11D0A243FD, 0x724DAE7664728661, 0x2DE3637C428D81AD,
          0x9B7D15F260797E7C, 0x1BB33F0C3FEE6FDF, 0x105FA1B2D4D80751, 0xDD4773ED69DE64B8];
    var input, secret := TestBuffer(2048), KSecret();
    Buffer22(2048);
    Buffer23(2048);
    Secret0();
    Secret1();
    XorIs(0xbd, 0xde, 0x75, 0x74, 0xf1, 0x63, 0x16, 0x18, 0x1f, 0x67, 0xb3, 0xb7, 0xa4, 0xa4, 0x40, 0x72);
    LaneIs(acc, input, 1216, secret, 24, 0, 0x6721FFC09E42CBFE, 0x76A9F8FA7F867D52, 0xBDDE7574F1631618,
          0x1F67B3B7A4A44072, 0xA2B9C6C355C7566A, 0xA2B9C6C3, 0x55C7566A, 0x1, 0x14525D112810180E);
    XorIs(0x76, 0xa9, 0xf8, 0xfa, 0x7f, 0x86, 0x7d, 0x52, 0x78, 0xe5, 0xc0, 0xcc, 0x4e, 0xe6, 0x79, 0xcb);
    LaneIs(acc, input, 1216, secret, 24, 1, 0xF72F9B11D0A243FD, 0xBDDE7574F1631618, 0x76A9F8FA7F867D52,
          0x78E5C0CC4EE679CB, 0xE4C383631600499, 0xE4C3836, 0x31600499, 0x1, 0xB7D0041FE8B3CA5B);
    XorIs(0xc2, 0x8e, 0xb9, 0x7f, 0x3a, 0x38, 0xcf, 0xf9, 0x21, 0x72, 0xff, 0xcc, 0x7d, 0xd0, 0x5a, 0x82);
    LaneIs(acc, input, 1216, secret, 24, 2, 0x724DAE7664728661, 0xA312DE88B24E0DE7, 0xC28EB97F3A38CFF9,
          0x2172FFCC7DD05A82, 0xE3FC46B347E8957B, 0xE3FC46B3, 0x47E8957B, 0x1, 0x556AA65A2D54BB49);
    XorIs(0xa3, 0x12, 0xde, 0x88, 0xb2, 0x4e, 0x0d, 0xe7, 0x8e, 0x24, 0x43, 0xf7, 0x74, 0x46, 0x08, 0xb8);
    LaneIs(acc, input, 1216, secret, 24, 3, 0x2DE3637C428D81AD, 0xC28EB97F3A38CFF9, 0xA312DE88B24E0DE7,
          0x8E2443F7744608B8, 0x2D369D7FC608055F, 0x2D369D7F, 0xC608055F, 0x1, 0x136BC5737B163EC7);
    XorIs(0x0f, 0xae, 0xcc, 0x1c, 0x69, 0x07, 0x79, 0xb4, 0x4c, 0x26, 0x3a, 0x81, 0xe6, 0x90, 0x35, 0xe0);
    LaneIs(acc, input, 1216, secret, 24, 4, 0x9B7D15F260797E7C, 0x839DD9AE574C6D64, 0xFAECC1C690779B4,
          0x4C263A81E69035E0, 0x4388F69D8F974C54, 0x4388F69D, 0x8F974C54, 0x1, 0x44FC5B4EB3887364);
    XorIs(0x83, 0x9d, 0xd9, 0xae, 0x57, 0x4c, 0x6d, 0x64, 0xcb, 0x00, 0xc3, 0x91, 0xbb, 0x52, 0x28, 0x3c);
    LaneIs(acc, input, 1216, secret, 24, 5, 0x1BB33F0C3FEE6FDF, 0xFAECC1C690779B4, 0x839DD9AE574C6D64,
          0xCB00C391BB52283C, 0x489D1A3FEC1E4558, 0x489D1A3F, 0xEC1E4558, 0x0, 0x6E5B756F1E6BEA3B);
    XorIs(0xaa, 0x03, 0x37, 0xe2, 0x33, 0x9a, 0x10, 0x5f, 0xa3, 0x2e, 0x53, 0x1b, 0x8b, 0x65, 0xd0, 0x88);
    LaneIs(acc, input, 1216, secret, 24, 6, 0x105FA1B2D4D80751, 0x64FC1DE1E992BCA9, 0xAA0337E2339A105F,
          0xA32E531B8B65D088, 0x92D64F9B8FFC0D7, 0x92D64F9, 0xB8FFC0D7, 0x0, 0x7BFD8B490B4C5119);
    XorIs(0x64, 0xfc, 0x1d, 0xe1, 0xe9, 0x92, 0xbc, 0xa9, 0x4e, 0xf9, 0x0d, 0xa2, 0x97, 0x48, 0x64, 0x71);
    LaneIs(acc, input, 1216, secret, 24, 7, 0xDD4773ED69DE64B8, 0xAA0337E2339A105F, 0x64FC1DE1E992BCA9,
          0x4EF90DA297486471, 0x2A0510437EDAD8D8, 0x2A051043, 0x7EDAD8D8, 0x1, 0x9C1D15B82A84B59F);
  }

  lemma Stripe20()
    ensures Accumulate512([0x14525D112810180E, 0xB7D0041FE8B3CA5B, 0x556AA65A2D54BB49, 0x136BC5737B163EC7,
          0x44FC5B4EB3887364, 0x6E5B756F1E6BEA3B, 0x7BFD8B490B4C5119, 0x9C1D15B82A84B59F], Window(TestBuffer(2048),
          1280), Window(KSecret(), 32)) ==
            [0x32D863C1437E96B0, 0x39DD55E0F7B5B1B8, 0x570B7798FBC82A93, 0x1692394067054A0F, 0x92E0987E73FAD697,
                  0x3B0B74EFE7A2F251, 0x6B809CD2E1243273, 0xC6B3B8B49B5B8D0A]
  {
    hide Xor, Generator, ReadLE64, TestBuffer, KSecret, Accumulate512, Window;
    var acc: Acc := [0x14525D112810180E, 0xB7D0041FE8B3CA5B, 0x556AA65A2D54BB49, 0x136BC5737B163EC7,
          0x44FC5B4EB3887364, 0x6E5B756F1E6BEA3B, 0x7BFD8B490B4C5119, 0x9C1D15B82A84B59F];
    var input, secret := TestBuffer(2048), KSecret();
    Buffer23(2048);
    Buffer24(2048);
    Secret0();
    Secret1();
    XorIs(0x69, 0x0d, 0xe1, 0xd2, 0xec, 0x26, 0xb9, 0x81, 0x78, 0xe5, 0xc0, 0xcc, 0x4e, 0xe6, 0x79, 0xcb);
    LaneIs(acc, input, 1280, secret, 32, 0, 0x14525D112810180E, 0x1323A62F02FE6BF6, 0x690DE1D2EC26B981,
          0x78E5C0CC4EE679CB, 0x11E8211EA2C0C04A, 0x11E8211E, 0xA2C0C04A, 0x0, 0x32D863C1437E96B0);
    XorIs(0x13, 0x23, 0xa6, 0x2f, 0x02, 0xfe, 0x6b, 0xf6, 0x21, 0x72, 0xff, 0xcc, 0x7d, 0xd0, 0x5a, 0x82);
    LaneIs(acc, input, 1280, secret, 32, 1, 0xB7D0041FE8B3CA5B, 0x690DE1D2EC26B981, 0x1323A62F02FE6BF6,
          0x2172FFCC7DD05A82, 0x325159E37F2E3174, 0x325159E3, 0x7F2E3174, 0x1, 0x39DD55E0F7B5B1B8);
    XorIs(0xc6, 0xe1, 0x2c, 0x70, 0xff, 0xe4, 0x86, 0x87, 0x8e, 0x24, 0x43, 0xf7, 0x74, 0x46, 0x08, 0xb8);
    LaneIs(acc, input, 1280, secret, 32, 2, 0x556AA65A2D54BB49, 0xD9EF685081921B11, 0xC6E12C70FFE48687,
          0x8E2443F7744608B8, 0x48C56F878BA28E3F, 0x48C56F87, 0x8BA28E3F, 0x1, 0x570B7798FBC82A93);
    XorIs(0xd9, 0xef, 0x68, 0x50, 0x81, 0x92, 0x1b, 0x11, 0x4c, 0x26, 0x3a, 0x81, 0xe6, 0x90, 0x35, 0xe0);
    LaneIs(acc, input, 1280, secret, 32, 3, 0x136BC5737B163EC7, 0xC6E12C70FFE48687, 0xD9EF685081921B11,
          0x4C263A81E69035E0, 0x95C952D167022EF1, 0x95C952D1, 0x67022EF1, 0x1, 0x1692394067054A0F);
    XorIs(0xf3, 0x99, 0xcc, 0x57, 0x8b, 0x6d, 0x94, 0x23, 0xcb, 0x00, 0xc3, 0x91, 0xbb, 0x52, 0x28, 0x3c);
    LaneIs(acc, input, 1280, secret, 32, 4, 0x44FC5B4EB3887364, 0x433972F87C9A1239, 0xF399CC578B6D9423,
          0xCB00C391BB52283C, 0x38990FC6303FBC1F, 0x38990FC6, 0x303FBC1F, 0x0, 0x92E0987E73FAD697);
    XorIs(0x43, 0x39, 0x72, 0xf8, 0x7c, 0x9a, 0x12, 0x39, 0xa3, 0x2e, 0x53, 0x1b, 0x8b, 0x65, 0xd0, 0x88);
    LaneIs(acc, input, 1280, secret, 32, 5, 0x6E5B756F1E6BEA3B, 0xF399CC578B6D9423, 0x433972F87C9A1239,
          0xA32E531B8B65D088, 0xE01721E3F7FFC2B1, 0xE01721E3, 0xF7FFC2B1, 0x2, 0x3B0B74EFE7A2F251);
    XorIs(0xee, 0xd8, 0xa4, 0x89, 0x54, 0x6c, 0xf1, 0x60, 0x4e, 0xf9, 0x0d, 0xa2, 0x97, 0x48, 0x64, 0x71);
    LaneIs(acc, input, 1280, secret, 32, 6, 0x7BFD8B490B4C5119, 0x75728BB411199E7F, 0xEED8A489546CF160,
          0x4EF90DA297486471, 0xA021A92BC3249511, 0xA021A92B, 0xC3249511, 0x1, 0x6B809CD2E1243273);
    XorIs(0x75, 0x72, 0x8b, 0xb4, 0x11, 0x19, 0x9e, 0x7f, 0xd8, 0xac, 0xde, 0xa9, 0x46, 0xef, 0x19, 0x38);
    LaneIs(acc, input, 1280, secret, 32, 7, 0x9C1D15B82A84B59F, 0xEED8A489546CF160, 0x75728BB411199E7F,
          0xD8ACDEA946EF1938, 0xADDE551D57F68747, 0xADDE551D, 0x57F68747, 0x1, 0xC6B3B8B49B5B8D0A);
  }

  lemma Stripe21()
    ensures Accumulate512([0x32D863C1437E96B0, 0x39DD55E0F7B5B1B8, 0x570B7798FBC82A93, 0x1692394067054A0F,
          0x92E0987E73FAD697, 0x3B0B74EFE7A2F251, 0x6B809CD2E1243273, 0xC6B3B8B49B5B8D0A], Window(TestBuffer(2048),
          1344), Window(KSecret(), 40)) ==
            [0xCD926E72E463E3E0, 0xE327FC4B8B49847A, 0x8629D31EE0E5543A, 0x16FCFEEB3F981805, 0x3FAEC0FCB7995E7,
                  0x1889B10F4D113828, 0x531AE8541C2D92E0, 0xA4FAA05F6AF67495]
  {
    hide Xor, Generator, ReadLE64, TestBuffer, KSecret, Accumulate512, Window;
    var acc: Acc := [0x32D863C1437E96B0, 0x39DD55E0F7B5B1B8, 0x570B7798FBC82A93, 0x1692394067054A0F,
          0x92E0987E73FAD697, 0x3B0B74EFE7A2F251, 0x6B809CD2E1243273, 0xC6B3B8B49B5B8D0A];
    var input, secret := TestBuffer(2048), KSecret();
    Buffer24(2048);
    Buffer25(2048);
    Secret0();
    Secret1();
    XorIs(0x14, 0x99, 0x58, 0xd3, 0xfe, 0x76, 0x00, 0xab, 0x21, 0x72, 0xff, 0xcc, 0x7d, 0xd0, 0x5a, 0x82);
    LaneIs(acc, input, 1344, secret, 40, 0, 0x32D863C1437E96B0, 0x7EFF6A60EA4CA339, 0x149958D3FE7600AB,
          0x2172FFCC7DD05A82, 0x35EBA71F83A65A29, 0x35EBA71F, 0x83A65A29, 0x0, 0xCD926E72E463E3E0);
    XorIs(0x7e, 0xff, 0x6a, 0x60, 0xea, 0x4c, 0xa3, 0x39, 0x8e, 0x24, 0x43, 0xf7, 0x74, 0x46, 0x08, 0xb8);
    LaneIs(acc, input, 1344, secret, 40, 1, 0x39DD55E0F7B5B1B8, 0x149958D3FE7600AB, 0x7EFF6A60EA4CA339,
          0x8E2443F7744608B8, 0xF0DB29979E0AAB81, 0xF0DB2997, 0x9E0AAB81, 0x0, 0xE327FC4B8B49847A);
    XorIs(0xb5, 0x0c, 0x4d, 0xc5, 0x3f, 0xab, 0x8e, 0xd8, 0x4c, 0x26, 0x3a, 0x81, 0xe6, 0x90, 0x35, 0xe0);
    LaneIs(acc, input, 1344, secret, 40, 2, 0x570B7798FBC82A93, 0x5BAF396B3E0866C7, 0xB50C4DC53FAB8ED8,
          0x4C263A81E69035E0, 0xF92A7744D93BBB38, 0xF92A7744, 0xD93BBB38, 0x1, 0x8629D31EE0E5543A);
    XorIs(0x5b, 0xaf, 0x39, 0x6b, 0x3e, 0x08, 0x66, 0xc7, 0xcb, 0x00, 0xc3, 0x91, 0xbb, 0x52, 0x28, 0x3c);
    LaneIs(acc, input, 1344, secret, 40, 3, 0x1692394067054A0F, 0xB50C4DC53FAB8ED8, 0x5BAF396B3E0866C7,
          0xCB00C391BB52283C, 0x90AFFAFA855A4EFB, 0x90AFFAFA, 0x855A4EFB, 0x1, 0x16FCFEEB3F981805);
    XorIs(0xcb, 0x50, 0x27, 0x0b, 0x10, 0x4a, 0xe3, 0x11, 0xa3, 0x2e, 0x53, 0x1b, 0x8b, 0x65, 0xd0, 0x88);
    LaneIs(acc, input, 1344, secret, 40, 4, 0x92E0987E73FAD697, 0x31C27F04B3DC31C0, 0xCB50270B104AE311,
          0xA32E531B8B65D088, 0x687E74109B2F3399, 0x687E7410, 0x9B2F3399, 0x1, 0x3FAEC0FCB7995E7);
    XorIs(0x31, 0xc2, 0x7f, 0x04, 0xb3, 0xdc, 0x31, 0xc0, 0x4e, 0xf9, 0x0d, 0xa2, 0x97, 0x48, 0x64, 0x71);
    LaneIs(acc, input, 1344, secret, 40, 5, 0x3B0B74EFE7A2F251, 0xCB50270B104AE311, 0x31C27F04B3DC31C0,
          0x4EF90DA297486471, 0x7F3B72A6249455B1, 0x7F3B72A6, 0x249455B1, 0x1, 0x1889B10F4D113828);
    XorIs(0xa0, 0xd7, 0x89, 0x7e, 0xa4, 0x92, 0x09, 0x0b, 0xd8, 0xac, 0xde, 0xa9, 0x46, 0xef, 0x19, 0x38);
    LaneIs(acc, input, 1344, secret, 40, 6, 0x6B809CD2E1243273, 0x7D028C1BD2FE7098, 0xA0D7897EA492090B,
          0xD8ACDEA946EF1938, 0x787B57D7E27D1033, 0x787B57D7, 0xE27D1033, 0x1, 0x531AE8541C2D92E0);
    XorIs(0x7d, 0x02, 0x8c, 0x1b, 0xd2, 0xfe, 0x70, 0x98, 0x3f, 0x34, 0x9c, 0xe3, 0x3f, 0x76, 0xfa, 0xa8);
    LaneIs(acc, input, 1344, secret, 40, 7, 0xC6B3B8B49B5B8D0A, 0xA0D7897EA492090B, 0x7D028C1BD2FE7098,
          0x3F349CE33F76FAA8, 0x423610F8ED888A30, 0x423610F8, 0xED888A30, 0x1, 0xA4FAA05F6AF67495);
  }

  lemma Stripe22()
    ensures Accumulate512([0xCD926E72E463E3E0, 0xE327FC4B8B49847A, 0x8629D31EE0E5543A, 0x16FCFEEB3F981805,
          0x3FAEC0FCB7995E7, 0x1889B10F4D113828, 0x531AE8541C2D92E0, 0xA4FAA05F6AF67495], Window(TestBuffer(2048),
          1408), Window(KSecret(), 48)) ==
            [0x4125EF40378BECAB, 0xEA8A3761AB0CBDBE, 0xA4BEE808CE9F78FB, 0x2F5A3922FA5FE654, 0xED9C92DA4228C0C2,
                  0x6132B27FFE4DED9D, 0x3A5B97FA8CDE10A5, 0x3BDFCCFDB6AD5F17]
  {
    hide Xor, Generator, ReadLE64, TestBuffer, KSecret, Accumulate512, Window;
    var acc: Acc := [0xCD926E72E463E3E0, 0xE327FC4B8B49847A, 0x8629D31EE0E5543A, 0x16FCFEEB3F981805,
          0x3FAEC0FCB7995E7, 0x1889B10F4D113828, 0x531AE8541C2D92E0, 0xA4FAA05F6AF67495];
    var input, secret := TestBuffer(2048), KSecret();
    Buffer25(2048);
    Buffer26(2048);
    Secret0();
    Secret1();
    XorIs(0xfb, 0x07, 0x49, 0x36, 0x34, 0x80, 0x94, 0x8c, 0x8e, 0x24, 0x43, 0xf7, 0x74, 0x46, 0x08, 0xb8);
    LaneIs(acc, input, 1408, secret, 48, 0, 0xCD926E72E463E3E0, 0x55EFDD899C363D97, 0xFB0749363480948C,
          0x8E2443F7744608B8, 0x75230AC140C69C34, 0x75230AC1, 0x40C69C34, 0x1, 0x4125EF40378BECAB);
    XorIs(0x55, 0xef, 0xdd, 0x89, 0x9c, 0x36, 0x3d, 0x97, 0x4c, 0x26, 0x3a, 0x81, 0xe6, 0x90, 0x35, 0xe0);
    LaneIs(acc, input, 1408, secret, 48, 1, 0xE327FC4B8B49847A, 0xFB0749363480948C, 0x55EFDD899C363D97,
          0x4C263A81E69035E0, 0x19C9E7087AA60877, 0x19C9E708, 0x7AA60877, 0x1, 0xEA8A3761AB0CBDBE);
    XorIs(0xe2, 0x41, 0xcb, 0x07, 0xc9, 0xe5, 0xd2, 0x90, 0xcb, 0x00, 0xc3, 0x91, 0xbb, 0x52, 0x28, 0x3c);
    LaneIs(acc, input, 1408, secret, 48, 2, 0x8629D31EE0E5543A, 0xC187934C46BE3F9, 0xE241CB07C9E5D290,
          0xCB00C391BB52283C, 0x2941089672B7FAAC, 0x29410896, 0x72B7FAAC, 0x0, 0xA4BEE808CE9F78FB);
    XorIs(0x0c, 0x18, 0x79, 0x34, 0xc4, 0x6b, 0xe3, 0xf9, 0xa3, 0x2e, 0x53, 0x1b, 0x8b, 0x65, 0xd0, 0x88);
    LaneIs(acc, input, 1408, secret, 48, 3, 0x16FCFEEB3F981805, 0xE241CB07C9E5D290, 0xC187934C46BE3F9,
          0xA32E531B8B65D088, 0xAF362A2F4F0E3371, 0xAF362A2F, 0x4F0E3371, 0x1, 0x2F5A3922FA5FE654);
    XorIs(0x47, 0x23, 0x19, 0x79, 0x73, 0x39, 0x9c, 0x11, 0x4e, 0xf9, 0x0d, 0xa2, 0x97, 0x48, 0x64, 0x71);
    LaneIs(acc, input, 1408, secret, 48, 4, 0x3FAEC0FCB7995E7, 0xE0D70965400830BB, 0x4723197973399C11,
          0x4EF90DA297486471, 0x9DA14DBE471F860, 0x9DA14DB, 0xE471F860, 0x0, 0xED9C92DA4228C0C2);
    XorIs(0xe0, 0xd7, 0x09, 0x65, 0x40, 0x08, 0x30, 0xbb, 0xd8, 0xac, 0xde, 0xa9, 0x46, 0xef, 0x19, 0x38);
    LaneIs(acc, input, 1408, secret, 48, 5, 0x1889B10F4D113828, 0x4723197973399C11, 0xE0D70965400830BB,
          0xD8ACDEA946EF1938, 0x387BD7CC06E72983, 0x387BD7CC, 0x6E72983, 0x0, 0x6132B27FFE4DED9D);
    XorIs(0x6f, 0x9a, 0xee, 0x87, 0x41, 0x87, 0x8c, 0xce, 0x3f, 0x34, 0x9c, 0xe3, 0x3f, 0x76, 0xfa, 0xa8);
    LaneIs(acc, input, 1408, secret, 48, 6, 0x531AE8541C2D92E0, 0xBF3EB9CEFA50D1ED, 0x6F9AEE8741878CCE,
          0x3F349CE33F76FAA8, 0x50AE72647EF17666, 0x50AE7264, 0x7EF17666, 0x1, 0x3A5B97FA8CDE10A5);
    XorIs(0xbf, 0x3e, 0xb9, 0xce, 0xfa, 0x50, 0xd1, 0xed, 0x1d, 0x4f, 0x0b, 0xc7, 0xc7, 0xbb, 0xdc, 0xf9);
    LaneIs(acc, input, 1408, secret, 48, 7, 0xA4FAA05F6AF67495, 0x6F9AEE8741878CCE, 0xBF3EB9CEFA50D1ED,
          0x1D4F0BC7C7BBDCF9, 0xA271B2093DEB0D14, 0xA271B209, 0x3DEB0D14, 0x1, 0x3BDFCCFDB6AD5F17);
  }

  lemma Stripe23()
    ensures Accumulate512([0x4125EF40378BECAB, 0xEA8A3761AB0CBDBE, 0xA4BEE808CE9F78FB, 0x2F5A3922FA5FE654,
          0xED9C92DA4228C0C2, 0x6132B27FFE4DED9D, 0x3A5B97FA8CDE10A5, 0x3BDFCCFDB6AD5F17], Window(TestBuffer(2048),
          1472), Window(KSecret(), 56)) ==
            [0xFF7BC449E826E595, 0x581A6706DD1F0A7, 0xEBBF3F67C3F15B29, 0x56849F383CD4F275, 0x5A6EA588FC6646C6,
                  0xF045159C62219014, 0x5CABC72C9F3A3177, 0x35C279F3FAC39DEB]
  {
    hide Xor, Generator, ReadLE64, TestBuffer, KSecret, Accumulate512, Window;
    var acc: Acc := [0x4125EF40378BECAB, 0xEA8A3761AB0CBDBE, 0xA4BEE808CE9F78FB, 0x2F5A3922FA5FE654,
          0xED9C92DA4228C0C2, 0x6132B27FFE4DED9D, 0x3A5B97FA8CDE10A5, 0x3BDFCCFDB6AD5F17];
    var input, secret := TestBuffer(2048), KSecret();
    Buffer27(2048);
    Buffer28(2048);
    Secret0();
    Secret1();
    XorIs(0xf6, 0xcf, 0x5a, 0xf1, 0xc6, 0xcf, 0x2d, 0x7f, 0x4c, 0x26, 0x3a, 0x81, 0xe6, 0x90, 0x35, 0xe0);
    LaneIs(acc, input, 1472, secret, 56, 0, 0x4125EF40378BECAB, 0xA6B33A66EF0D935A, 0xF6CF5AF1C6CF2D7F,
          0x4C263A81E69035E0, 0xBAE96070205F189F, 0xBAE96070, 0x205F189F, 0x0, 0xFF7BC449E826E595);
    XorIs(0xa6, 0xb3, 0x3a, 0x66, 0xef, 0x0d, 0x93, 0x5a, 0xcb, 0x00, 0xc3, 0x91, 0xbb, 0x52, 0x28, 0x3c);
    LaneIs(acc, input, 1472, secret, 56, 1, 0xEA8A3761AB0CBDBE, 0xF6CF5AF1C6CF2D7F, 0xA6B33A66EF0D935A,
          0xCB00C391BB52283C, 0x6DB3F9F7545FBB66, 0x6DB3F9F7, 0x545FBB66, 0x2, 0x581A6706DD1F0A7);
    XorIs(0x0c, 0x38, 0xaa, 0x61, 0xbf, 0x54, 0x6c, 0x85, 0xa3, 0x2e, 0x53, 0x1b, 0x8b, 0x65, 0xd0, 0x88);
    LaneIs(acc, input, 1472, secret, 56, 2, 0xA4BEE808CE9F78FB, 0x234DA8AEA9979EFC, 0xC38AA61BF546C85,
          0xA32E531B8B65D088, 0xAF16F97A3431BC0D, 0xAF16F97A, 0x3431BC0D, 0x0, 0xEBBF3F67C3F15B29);
    XorIs(0x23, 0x4d, 0xa8, 0xae, 0xa9, 0x97, 0x9e, 0xfc, 0x4e, 0xf9, 0x0d, 0xa2, 0x97, 0x48, 0x64, 0x71);
    LaneIs(acc, input, 1472, secret, 56, 3, 0x2F5A3922FA5FE654, 0xC38AA61BF546C85, 0x234DA8AEA9979EFC,
          0x4EF90DA297486471, 0x6DB4A50C3EDFFA8D, 0x6DB4A50C, 0x3EDFFA8D, 0x0, 0x56849F383CD4F275);
    XorIs(0x8c, 0xdf, 0x9b, 0x75, 0x94, 0xb6, 0x32, 0xa7, 0xd8, 0xac, 0xde, 0xa9, 0x46, 0xef, 0x19, 0x38);
    LaneIs(acc, input, 1472, secret, 56, 4, 0xED9C92DA4228C0C2, 0x276E18E9286D2E60, 0x8CDF9B7594B632A7,
          0xD8ACDEA946EF1938, 0x547345DCD2592B9F, 0x547345DC, 0xD2592B9F, 0x1, 0x5A6EA588FC6646C6);
    XorIs(0x27, 0x6e, 0x18, 0xe9, 0x28, 0x6d, 0x2e, 0x60, 0x3f, 0x34, 0x9c, 0xe3, 0x3f, 0x76, 0xfa, 0xa8);
    LaneIs(acc, input, 1472, secret, 56, 5, 0x6132B27FFE4DED9D, 0x8CDF9B7594B632A7, 0x276E18E9286D2E60,
          0x3F349CE33F76FAA8, 0x185A840A171BD4C8, 0x185A840A, 0x171BD4C8, 0x0, 0xF045159C62219014);
    XorIs(0xde, 0x86, 0x6b, 0x99, 0x38, 0x35, 0x1d, 0xe6, 0x1d, 0x4f, 0x0b, 0xc7, 0xc7, 0xbb, 0xdc, 0xf9);
    LaneIs(acc, input, 1472, secret, 56, 6, 0x3A5B97FA8CDE10A5, 0x5EDD6ACE752E9770, 0xDE866B9938351DE6,
          0x1D4F0BC7C7BBDCF9, 0xC3C9605EFF8EC11F, 0xC3C9605E, 0xFF8EC11F, 0x1, 0x5CABC72C9F3A3177);
    XorIs(0x5e, 0xdd, 0x6a, 0xce, 0x75, 0x2e, 0x97, 0x70, 0x31, 0x59, 0xb4, 0xcd, 0x4b, 0xe0, 0x51, 0x8a);
    LaneIs(acc, input, 1472, secret, 56, 7, 0x3BDFCCFDB6AD5F17, 0xDE866B9938351DE6, 0x5EDD6ACE752E9770,
          0x3159B4CD4BE0518A, 0x6F84DE033ECEC6FA, 0x6F84DE03, 0x3ECEC6FA, 0x1, 0x35C279F3FAC39DEB);
  }

  lemma Stripe24()
    ensures Accumulate512([0xFF7BC449E826E595, 0x581A6706DD1F0A7, 0xEBBF3F67C3F15B29, 0x56849F383CD4F275,
          0x5A6EA588FC6646C6, 0xF045159C62219014, 0x5CABC72C9F3A3177, 0x35C279F3FAC39DEB], Window(TestBuffer(2048),
          1536), Window(KSecret(), 64)) ==
            [0x4DBCE0AABDDCD298, 0xB706B5BD1E714FAE, 0xBBFC5E1FA712A8EB, 0x36A9DD957FE18288, 0x240580D12CAE4FB6,
                  0x892143FF7DAA59AA, 0x56BD32D5F435DAAC, 0xD7438A3259EDAC1F]
  {
    hide Xor, Generator, ReadLE64, TestBuffer, KSecret, Accumulate512, Window;
    var acc: Acc := [0xFF7BC449E826E595, 0x581A6706DD1F0A7, 0xEBBF3F67C3F15B29, 0x56849F383CD4F275,
          0x5A6EA588FC6646C6, 0xF045159C62219014, 0x5CABC72C9F3A3177, 0x35C279F3FAC39DEB];
    var input, secret := TestBuffer(2048), KSecret();
    Buffer28(2048);
    Buffer29(2048);
    Secret1();
    XorIs(0xd6, 0xdf, 0xf4, 0xe0, 0xf6, 0x84, 0xf1, 0x87, 0xcb, 0x00, 0xc3, 0x91, 0xbb, 0x52, 0x28, 0x3c);
    LaneIs(acc, input, 1536, secret, 64, 0, 0xFF7BC449E826E595, 0x452BE6B37833A478, 0xD6DFF4E0F684F187,
          0xCB00C391BB52283C, 0x1DDF37714DD6D9BB, 0x1DDF3771, 0x4DD6D9BB, 0x1, 0x4DBCE0AABDDCD298);
    XorIs(0x45, 0x2b, 0xe6, 0xb3, 0x78, 0x33, 0xa4, 0x78, 0xa3, 0x2e, 0x53, 0x1b, 0x8b, 0x65, 0xd0, 0x88);
    LaneIs(acc, input, 1536, secret, 64, 1, 0x581A6706DD1F0A7, 0xD6DFF4E0F684F187, 0x452BE6B37833A478,
          0xA32E531B8B65D088, 0xE605B5A8F35674F0, 0xE605B5A8, 0xF35674F0, 0x1, 0xB706B5BD1E714FAE);
    XorIs(0xd7, 0x4e, 0x43, 0xaf, 0xeb, 0xba, 0x1e, 0xc5, 0x4e, 0xf9, 0x0d, 0xa2, 0x97, 0x48, 0x64, 0x71);
    LaneIs(acc, input, 1536, secret, 64, 2, 0xEBBF3F67C3F15B29, 0x8536BBF45EC23A9E, 0xD74E43AFEBBA1EC5,
          0x4EF90DA297486471, 0x99B74E0D7CF27AB4, 0x99B74E0D, 0x7CF27AB4, 0x1, 0xBBFC5E1FA712A8EB);
    XorIs(0x85, 0x36, 0xbb, 0xf4, 0x5e, 0xc2, 0x3a, 0x9e, 0xd8, 0xac, 0xde, 0xa9, 0x46, 0xef, 0x19, 0x38);
    LaneIs(acc, input, 1536, secret, 64, 3, 0x56849F383CD4F275, 0xD74E43AFEBBA1EC5, 0x8536BBF45EC23A9E,
          0xD8ACDEA946EF1938, 0x5D9A655D182D23A6, 0x5D9A655D, 0x182D23A6, 0x1, 0x36A9DD957FE18288);
    XorIs(0x39, 0x1d, 0x31, 0x0e, 0xf3, 0xdd, 0xa0, 0xe2, 0x3f, 0x34, 0x9c, 0xe3, 0x3f, 0x76, 0xfa, 0xa8);
    LaneIs(acc, input, 1536, secret, 64, 4, 0x5A6EA588FC6646C6, 0xC4A984ABB7C7706E, 0x391D310EF3DDA0E2,
          0x3F349CE33F76FAA8, 0x629ADEDCCAB5A4A, 0x629ADED, 0xCCAB5A4A, 0x1, 0x240580D12CAE4FB6);
    XorIs(0xc4, 0xa9, 0x84, 0xab, 0xb7, 0xc7, 0x70, 0x6e, 0x1d, 0x4f, 0x0b, 0xc7, 0xc7, 0xbb, 0xdc, 0xf9);
    LaneIs(acc, input, 1536, secret, 64, 5, 0xF045159C62219014, 0x391D310EF3DDA0E2, 0xC4A984ABB7C7706E,
          0x1D4F0BC7C7BBDCF9, 0xD9E68F6C707CAC97, 0xD9E68F6C, 0x707CAC97, 0x1, 0x892143FF7DAA59AA);
    XorIs(0x17, 0x35, 0xdc, 0xdb, 0xba, 0x90, 0x10, 0x94, 0x31, 0x59, 0xb4, 0xcd, 0x4b, 0xe0, 0x51, 0x8a);
    LaneIs(acc, input, 1536, secret, 64, 6, 0x5CABC72C9F3A3177, 0xD5D484790E39E0A1, 0x1735DCDBBA901094,
          0x3159B4CD4BE0518A, 0x266C6816F170411E, 0x266C6816, 0xF170411E, 0x1, 0x56BD32D5F435DAAC);
    XorIs(0xd5, 0xd4, 0x84, 0x79, 0x0e, 0x39, 0xe0, 0xa1, 0x64, 0x73, 0x78, 0xd9, 0xc9, 0x7e, 0x9f, 0xc8);
    LaneIs(acc, input, 1536, secret, 64, 7, 0x35C279F3FAC39DEB, 0x1735DCDBBA901094, 0xD5D484790E39E0A1,
          0x647378D9C97E9FC8, 0xB1A7FCA0C7477F69, 0xB1A7FCA0, 0xC7477F69, 0x0, 0xD7438A3259EDAC1F);
  }

  lemma Stripe25()
    ensures Accumulate512([0x4DBCE0AABDDCD298, 0xB706B5BD1E714FAE, 0xBBFC5E1FA712A8EB, 0x36A9DD957FE18288,
          0x240580D12CAE4FB6, 0x892143FF7DAA59AA, 0x56BD32D5F435DAAC, 0xD7438A3259EDAC1F], Window(TestBuffer(2048),
          1600), Window(KSecret(), 72)) ==
            [0x94E9064B05DF0032, 0x6F25116BCCA51F77, 0xB2501B9ACBEA129A, 0x71E88CC35FCBCBEC, 0x43BB5EE298A2BA49,
                  0xB356D7EEA242A794, 0x1EEF29DCE005A4D2, 0xB64EA21DDB30FFF]
  {
    hide Xor, Generator, ReadLE64, TestBuffer, KSecret, Accumulate512, Window;
    var acc: Acc := [0x4DBCE0AABDDCD298, 0xB706B5BD1E714FAE, 0xBBFC5E1FA712A8EB, 0x36A9DD957FE18288,
          0x240580D12CAE4FB6, 0x892143FF7DAA59AA, 0x56BD32D5F435DAAC, 0xD7438A3259EDAC1F];
    var input, secret := TestBuffer(2048), KSecret();
    Buffer29(2048);
    Buffer30(2048);
    Secret1();
    Secret2();
    XorIs(0x1b, 0x15, 0x9d, 0x72, 0xf2, 0x6a, 0x53, 0x61, 0xa3, 0x2e, 0x53, 0x1b, 0x8b, 0x65, 0xd0, 0x88);
    LaneIs(acc, input, 1600, secret, 72, 0, 0x4DBCE0AABDDCD298, 0xF00CB6A145CC9509, 0x1B159D72F26A5361,
          0xA32E531B8B65D088, 0xB83BCE69790F83E9, 0xB83BCE69, 0x790F83E9, 0x1, 0x94E9064B05DF0032);
    XorIs(0xf0, 0x0c, 0xb6, 0xa1, 0x45, 0xcc, 0x95, 0x09, 0x4e, 0xf9, 0x0d, 0xa2, 0x97, 0x48, 0x64, 0x71);
    LaneIs(acc, input, 1600, secret, 72, 1, 0xB706B5BD1E714FAE, 0x1B159D72F26A5361, 0xF00CB6A145CC9509,
          0x4EF90DA297486471, 0xBEF5BB03D284F178, 0xBEF5BB03, 0xD284F178, 0x1, 0x6F25116BCCA51F77);
    XorIs(0x55, 0x20, 0xb6, 0x9c, 0x78, 0xdd, 0xe3, 0x2c, 0xd8, 0xac, 0xde, 0xa9, 0x46, 0xef, 0x19, 0x38);
    LaneIs(acc, input, 1600, secret, 72, 2, 0xBBFC5E1FA712A8EB, 0xD3EF8C8BC7C1838B, 0x5520B69C78DDE32C,
          0xD8ACDEA946EF1938, 0x8D8C68353E32FA14, 0x8D8C6835, 0x3E32FA14, 0x1, 0xB2501B9ACBEA129A);
    XorIs(0xd3, 0xef, 0x8c, 0x8b, 0xc7, 0xc1, 0x83, 0x8b, 0x3f, 0x34, 0x9c, 0xe3, 0x3f, 0x76, 0xfa, 0xa8);
    LaneIs(acc, input, 1600, secret, 72, 3, 0x36A9DD957FE18288, 0x5520B69C78DDE32C, 0xD3EF8C8BC7C1838B,
          0x3F349CE33F76FAA8, 0xECDB1068F8B77923, 0xECDB1068, 0xF8B77923, 0x1, 0x71E88CC35FCBCBEC);
    XorIs(0x79, 0x52, 0xa3, 0x62, 0x19, 0xc2, 0x2c, 0x3e, 0x1d, 0x4f, 0x0b, 0xc7, 0xc7, 0xbb, 0xdc, 0xf9);
    LaneIs(acc, input, 1600, secret, 72, 4, 0x240580D12CAE4FB6, 0xC8B475A3FECEA250, 0x7952A36219C22C3E,
          0x1D4F0BC7C7BBDCF9, 0x641DA8A5DE79F0C7, 0x641DA8A5, 0xDE79F0C7, 0x1, 0x43BB5EE298A2BA49);
    XorIs(0xc8, 0xb4, 0x75, 0xa3, 0xfe, 0xce, 0xa2, 0x50, 0x31, 0x59, 0xb4, 0xcd, 0x4b, 0xe0, 0x51, 0x8a);
    LaneIs(acc, input, 1600, secret, 72, 5, 0x892143FF7DAA59AA, 0x7952A36219C22C3E, 0xC8B475A3FECEA250,
          0x3159B4CD4BE0518A, 0xF9EDC16EB52EF3DA, 0xF9EDC16E, 0xB52EF3DA, 0x1, 0xB356D7EEA242A794);
    XorIs(0x14, 0x55, 0x3b, 0x15, 0x9d, 0x83, 0x62, 0x64, 0x64, 0x73, 0x78, 0xd9, 0xc9, 0x7e, 0x9f, 0xc8);
    LaneIs(acc, input, 1600, secret, 72, 6, 0x56BD32D5F435DAAC, 0xA2F623D5D07DA116, 0x14553B159D836264,
          0x647378D9C97E9FC8, 0x702643CC54FDFDAC, 0x702643CC, 0x54FDFDAC, 0x1, 0x1EEF29DCE005A4D2);
    XorIs(0xa2, 0xf6, 0x23, 0xd5, 0xd0, 0x7d, 0xa1, 0x16, 0xc3, 0xeb, 0xd3, 0x34, 0x83, 0xac, 0xc5, 0xea);
    LaneIs(acc, input, 1600, secret, 72, 7, 0xD7438A3259EDAC1F, 0x14553B159D836264, 0xA2F623D5D07DA116,
          0xC3EBD33483ACC5EA, 0x611DF0E153D164FC, 0x611DF0E1, 0x53D164FC, 0x1, 0xB64EA21DDB30FFF);
  }

  lemma Stripe26()
    ensures Accumulate512([0x94E9064B05DF0032, 0x6F25116BCCA51F77, 0xB2501B9ACBEA129A, 0x71E88CC35FCBCBEC,
          0x43BB5EE298A2BA49, 0xB356D7EEA242A794, 0x1EEF29DCE005A4D2, 0xB64EA21DDB30FFF], Window(TestBuffer(2048),
          1664), Window(KSecret(), 80)) ==
            [0xA5F81D33C44EBF71, 0x1743B4674349146B, 0x2FC20FCDB3C97CB6, 0xE48BEAC3297D879D, 0xB28020B5C1FEE0F2,
                  0xDE04104705A66E0D, 0x3583462F97A730BD, 0x18E6D7CBD1A2BBAB]
  {
    hide Xor, Generator, ReadLE64, TestBuffer, KSecret, Accumulate512, Window;
    var acc: Acc := [0x94E9064B05DF0032, 0x6F25116BCCA51F77, 0xB2501B9ACBEA129A, 0x71E88CC35FCBCBEC,
          0x43BB5EE298A2BA49, 0xB356D7EEA242A794, 0x1EEF29DCE005A4D2, 0xB64EA21DDB30FFF];
    var input, secret := TestBuffer(2048), KSecret();
    Buffer30(2048);
    Buffer31(2048);
    Secret1();
    Secret2();
    XorIs(0x9a, 0x7a, 0x8b, 0xfd, 0x59, 0xa6, 0xa4, 0x9e, 0x4e, 0xf9, 0x0d, 0xa2, 0x97, 0x48, 0x64, 0x71);
    LaneIs(acc, input, 1664, secret, 80, 0, 0x94E9064B05DF0032, 0x65470E58548C0C8E, 0x9A7A8BFD59A6A49E,
          0x4EF90DA297486471, 0xD483865FCEEEC0EF, 0xD483865F, 0xCEEEC0EF, 0x1, 0xA5F81D33C44EBF71);
    XorIs(0x65, 0x47, 0x0e, 0x58, 0x54, 0x8c, 0x0c, 0x8e, 0xd8, 0xac, 0xde, 0xa9, 0x46, 0xef, 0x19, 0x38);
    LaneIs(acc, input, 1664, secret, 80, 1, 0x6F25116BCCA51F77, 0x9A7A8BFD59A6A49E, 0x65470E58548C0C8E,
          0xD8ACDEA946EF1938, 0xBDEBD0F1126315B6, 0xBDEBD0F1, 0x126315B6, 0x1, 0x1743B4674349146B);
    XorIs(0x5b, 0xd3, 0x82, 0xae, 0x12, 0x05, 0xfc, 0xe0, 0x3f, 0x34, 0x9c, 0xe3, 0x3f, 0x76, 0xfa, 0xa8);
    LaneIs(acc, input, 1664, secret, 80, 2, 0xB2501B9ACBEA129A, 0x6B87FD92F6921674, 0x5BD382AE1205FCE0,
          0x3F349CE33F76FAA8, 0x64E71E4D2D730648, 0x64E71E4D, 0x2D730648, 0x1, 0x2FC20FCDB3C97CB6);
    XorIs(0x6b, 0x87, 0xfd, 0x92, 0xf6, 0x92, 0x16, 0x74, 0x1d, 0x4f, 0x0b, 0xc7, 0xc7, 0xbb, 0xdc, 0xf9);
    LaneIs(acc, input, 1664, secret, 80, 3, 0x71E88CC35FCBCBEC, 0x5BD382AE1205FCE0, 0x6B87FD92F6921674,
          0x1D4F0BC7C7BBDCF9, 0x76C8F6553129CA8D, 0x76C8F655, 0x3129CA8D, 0x0, 0xE48BEAC3297D879D);
    XorIs(0x1f, 0xf2, 0x98, 0xda, 0x6f, 0xaa, 0x54, 0x6f, 0x31, 0x59, 0xb4, 0xcd, 0x4b, 0xe0, 0x51, 0x8a);
    LaneIs(acc, input, 1664, secret, 80, 4, 0x43BB5EE298A2BA49, 0x6827311217BB4316, 0x1FF298DA6FAA546F,
          0x3159B4CD4BE0518A, 0x2EAB2C17244A05E5, 0x2EAB2C17, 0x244A05E5, 0x0, 0xB28020B5C1FEE0F2);
    XorIs(0x68, 0x27, 0x31, 0x12, 0x17, 0xbb, 0x43, 0x16, 0x64, 0x73, 0x78, 0xd9, 0xc9, 0x7e, 0x9f, 0xc8);
    LaneIs(acc, input, 1664, secret, 80, 5, 0xB356D7EEA242A794, 0x1FF298DA6FAA546F, 0x6827311217BB4316,
          0x647378D9C97E9FC8, 0xC5449CBDEC5DCDE, 0xC5449CB, 0xDEC5DCDE, 0x0, 0xDE04104705A66E0D);
    XorIs(0x5e, 0x9a, 0xea, 0xe4, 0x92, 0xc3, 0x44, 0x7a, 0xc3, 0xeb, 0xd3, 0x34, 0x83, 0xac, 0xc5, 0xea);
    LaneIs(acc, input, 1664, secret, 80, 6, 0x1EEF29DCE005A4D2, 0xBDB03B5389F36EB, 0x5E9AEAE492C3447A,
          0xC3EBD33483ACC5EA, 0x9D7139D0116F8190, 0x9D7139D0, 0x116F8190, 0x0, 0x3583462F97A730BD);
    XorIs(0x0b, 0xdb, 0x03, 0xb5, 0x38, 0x9f, 0x36, 0xeb, 0xeb, 0x63, 0x13, 0xfa, 0xff, 0xa0, 0x81, 0xc5);
    LaneIs(acc, input, 1664, secret, 80, 7, 0xB64EA21DDB30FFF, 0x5E9AEAE492C3447A, 0xBDB03B5389F36EB,
          0xEB6313FAFFA081C5, 0xE0B8104FC73FB72E, 0xE0B8104F, 0xC73FB72E, 0x1, 0x18E6D7CBD1A2BBAB);
  }

  lemma Stripe27()
    ensures Accumulate512([0xA5F81D33C44EBF71, 0x1743B4674349146B, 0x2FC20FCDB3C97CB6, 0xE48BEAC3297D879D,
          0xB28020B5C1FEE0F2, 0xDE04104705A66E0D, 0x3583462F97A730BD, 0x18E6D7CBD1A2BBAB], Window(TestBuffer(2048),
          1728), Window(KSecret(), 88)) ==
            [0x5A8F6C9352C951A9, 0xC13346196D232576, 0x4EA913802F6111DD, 0x18D8F0403424F767, 0xD63AF31772AC4C28,
                  0xBA38253A965A6A17, 0x2DBD87EE895B39CF, 0xF819AF6920770DC3]
  {
    hide Xor, Generator, ReadLE64, TestBuffer, KSecret, Accumulate512, Window;
    var acc: Acc := [0xA5F81D33C44EBF71, 0x1743B4674349146B, 0x2FC20FCDB3C97CB6, 0xE48BEAC3297D879D,
          0xB28020B5C1FEE0F2, 0xDE04104705A66E0D, 0x3583462F97A730BD, 0x18E6D7CBD1A2BBAB];
    var input, secret := TestBuffer(2048), KSecret();
    Buffer31(2048);
    Buffer32(2048);
    Secret1();
    Secret2();
    XorIs(0x91, 0x1f, 0x01, 0x60, 0x25, 0xd2, 0x8a, 0xcf, 0xd8, 0xac, 0xde, 0xa9, 0x46, 0xef, 0x19, 0x38);
    LaneIs(acc, input, 1728, secret, 88, 0, 0xA5F81D33C44EBF71, 0x9805055F1A883C49, 0x911F016025D28ACF,
          0xD8ACDEA946EF1938, 0x49B3DFC9633D93F7, 0x49B3DFC9, 0x633D93F7, 0x1, 0x5A8F6C9352C951A9);
    XorIs(0x98, 0x05, 0x05, 0x5f, 0x1a, 0x88, 0x3c, 0x49, 0x3f, 0x34, 0x9c, 0xe3, 0x3f, 0x76, 0xfa, 0xa8);
    LaneIs(acc, input, 1728, secret, 88, 1, 0x1743B4674349146B, 0x911F016025D28ACF, 0x9805055F1A883C49,
          0x3F349CE33F76FAA8, 0xA73199BC25FEC6E1, 0xA73199BC, 0x25FEC6E1, 0x0, 0xC13346196D232576);
    XorIs(0x7a, 0x1c, 0x0a, 0x4c, 0x56, 0xfe, 0xff, 0x19, 0x1d, 0x4f, 0x0b, 0xc7, 0xc7, 0xbb, 0xdc, 0xf9);
    LaneIs(acc, input, 1728, secret, 88, 2, 0x2FC20FCDB3C97CB6, 0xE44517F894493A87, 0x7A1C0A4C56FEFF19,
          0x1D4F0BC7C7BBDCF9, 0x6753018B914523E0, 0x6753018B, 0x914523E0, 0x1, 0x4EA913802F6111DD);
    XorIs(0xe4, 0x45, 0x17, 0xf8, 0x94, 0x49, 0x3a, 0x87, 0x31, 0x59, 0xb4, 0xcd, 0x4b, 0xe0, 0x51, 0x8a);
    LaneIs(acc, input, 1728, secret, 88, 3, 0xE48BEAC3297D879D, 0x7A1C0A4C56FEFF19, 0xE44517F894493A87,
          0x3159B4CD4BE0518A, 0xD51CA335DFA96B0D, 0xD51CA335, 0xDFA96B0D, 0x2, 0x18D8F0403424F767);
    XorIs(0xcf, 0x01, 0x0a, 0xec, 0xa5, 0x79, 0x92, 0xbd, 0x64, 0x73, 0x78, 0xd9, 0xc9, 0x7e, 0x9f, 0xc8);
    LaneIs(acc, input, 1728, secret, 88, 4, 0xB28020B5C1FEE0F2, 0xDB61D10F0A1F87FD, 0xCF010AECA57992BD,
          0x647378D9C97E9FC8, 0xAB7272356C070D75, 0xAB727235, 0x6C070D75, 0x1, 0xD63AF31772AC4C28);
    XorIs(0xdb, 0x61, 0xd1, 0x0f, 0x0a, 0x1f, 0x87, 0xfd, 0xc3, 0xeb, 0xd3, 0x34, 0x83, 0xac, 0xc5, 0xea);
    LaneIs(acc, input, 1728, secret, 88, 5, 0xDE04104705A66E0D, 0xCF010AECA57992BD, 0xDB61D10F0A1F87FD,
          0xC3EBD33483ACC5EA, 0x188A023B89B34217, 0x188A023B, 0x89B34217, 0x1, 0xBA38253A965A6A17);
    XorIs(0xa2, 0x66, 0xa0, 0x3d, 0x95, 0x02, 0x3a, 0xb0, 0xeb, 0x63, 0x13, 0xfa, 0xff, 0xa0, 0x81, 0xc5);
    LaneIs(acc, input, 1728, secret, 88, 6, 0x3583462F97A730BD, 0xD9CF7A3A3DD8821F, 0xA266A03D95023AB0,
          0xEB6313FAFFA081C5, 0x4905B3C76AA2BB75, 0x4905B3C7, 0x6AA2BB75, 0x1, 0x2DBD87EE895B39CF);
    XorIs(0xd9, 0xcf, 0x7a, 0x3a, 0x3d, 0xd8, 0x82, 0x1f, 0x49, 0xda, 0xf0, 0xb7, 0x51, 0xdd, 0x0d, 0x17);
    LaneIs(acc, input, 1728, secret, 88, 7, 0x18E6D7CBD1A2BBAB, 0xA266A03D95023AB0, 0xD9CF7A3A3DD8821F,
          0x49DAF0B751DD0D17, 0x90158A8D6C058F08, 0x90158A8D, 0x6C058F08, 0x0, 0xF819AF6920770DC3);
  }

  lemma Stripe28()
    ensures Accumulate512([0x5A8F6C9352C951A9, 0xC13346196D232576, 0x4EA913802F6111DD, 0x18D8F0403424F767,
          0xD63AF31772AC4C28, 0xBA38253A965A6A17, 0x2DBD87EE895B39CF, 0xF819AF6920770DC3], Window(TestBuffer(2048),
          1792), Window(KSecret(), 96)) ==
            [0xD63D4752CE3E2BC8, 0x943992A73AB4E8B7, 0xFDBF5F0EFB1F6A1B, 0x69FA686AC9BBDCA7, 0xFD94677279BA4D68,
                  0x9CFAEBF9AD8FA9, 0x468ECA7139385807, 0xA39732C462126396]
  {
    hide Xor, Generator, ReadLE64, TestBuffer, KSecret, Accumulate512, Window;
    var acc: Acc := [0x5A8F6C9352C951A9, 0xC13346196D232576, 0x4EA913802F6111DD, 0x18D8F0403424F767,
          0xD63AF31772AC4C28, 0xBA38253A965A6A17, 0x2DBD87EE895B39CF, 0xF819AF6920770DC3];
    var input, secret := TestBuffer(2048), KSecret();
    Buffer32(2048);
    Buffer33(2048);
    Secret1();
    Secret2();
    XorIs(0xab, 0x7b, 0xe2, 0xb6, 0xaa, 0x43, 0x79, 0xf3, 0x3f, 0x34, 0x9c, 0xe3, 0x3f, 0x76, 0xfa, 0xa8);
    LaneIs(acc, input, 1792, secret, 96, 0, 0x5A8F6C9352C951A9, 0x253C95A974F472E8, 0xAB7BE2B6AA4379F3,
          0x3F349CE33F76FAA8, 0x944F7E559535835B, 0x944F7E55, 0x9535835B, 0x0, 0xD63D4752CE3E2BC8);
    XorIs(0x25, 0x3c, 0x95, 0xa9, 0x74, 0xf4, 0x72, 0xe8, 0x1d, 0x4f, 0x0b, 0xc7, 0xc7, 0xbb, 0xdc, 0xf9);
    LaneIs(acc, input, 1792, secret, 96, 1, 0xC13346196D232576, 0xAB7BE2B6AA4379F3, 0x253C95A974F472E8,
          0x1D4F0BC7C7BBDCF9, 0x38739E6EB34FAE11, 0x38739E6E, 0xB34FAE11, 0x1, 0x943992A73AB4E8B7);
    XorIs(0x46, 0x1f, 0xba, 0x94, 0x98, 0xa2, 0x38, 0x9a, 0x31, 0x59, 0xb4, 0xcd, 0x4b, 0xe0, 0x51, 0x8a);
    LaneIs(acc, input, 1792, secret, 96, 2, 0x4EA913802F6111DD, 0x4CA89CB88D88F1AE, 0x461FBA9498A2389A,
          0x3159B4CD4BE0518A, 0x77460E59D3426910, 0x77460E59, 0xD3426910, 0x0, 0xFDBF5F0EFB1F6A1B);
    XorIs(0x4c, 0xa8, 0x9c, 0xb8, 0x8d, 0x88, 0xf1, 0xae, 0x64, 0x73, 0x78, 0xd9, 0xc9, 0x7e, 0x9f, 0xc8);
    LaneIs(acc, input, 1792, secret, 96, 3, 0x18D8F0403424F767, 0x461FBA9498A2389A, 0x4CA89CB88D88F1AE,
          0x647378D9C97E9FC8, 0x28DBE46144F66E66, 0x28DBE461, 0x44F66E66, 0x0, 0x69FA686AC9BBDCA7);
    XorIs(0x44, 0x6a, 0x9c, 0x9c, 0xf6, 0x8b, 0xa0, 0x8c, 0xc3, 0xeb, 0xd3, 0x34, 0x83, 0xac, 0xc5, 0xea);
    LaneIs(acc, input, 1792, secret, 96, 4, 0xD63AF31772AC4C28, 0xE95680941A82FC50, 0x446A9C9CF68BA08C,
          0xC3EBD33483ACC5EA, 0x87814FA875276566, 0x87814FA8, 0x75276566, 0x1, 0xFD94677279BA4D68);
    XorIs(0xe9, 0x56, 0x80, 0x94, 0x1a, 0x82, 0xfc, 0x50, 0xeb, 0x63, 0x13, 0xfa, 0xff, 0xa0, 0x81, 0xc5);
    LaneIs(acc, input, 1792, secret, 96, 5, 0xBA38253A965A6A17, 0x446A9C9CF68BA08C, 0xE95680941A82FC50,
          0xEB6313FAFFA081C5, 0x235936EE5227D95, 0x235936E, 0xE5227D95, 0x1, 0x9CFAEBF9AD8FA9);
    XorIs(0x6d, 0xa5, 0x38, 0x9d, 0xfb, 0x13, 0xa6, 0x7d, 0x49, 0xda, 0xf0, 0xb7, 0x51, 0xdd, 0x0d, 0x17);
    LaneIs(acc, input, 1792, secret, 96, 6, 0x2DBD87EE895B39CF, 0x76F05342742ED4, 0x6DA5389DFB13A67D,
          0x49DAF0B751DD0D17, 0x247FC82AAACEAB6A, 0x247FC82A, 0xAACEAB6A, 0x0, 0x468ECA7139385807);
    XorIs(0x00, 0x76, 0xf0, 0x53, 0x42, 0x74, 0x2e, 0xd4, 0x9e, 0x68, 0xd4, 0x29, 0x26, 0x55, 0x16, 0xd3);
    LaneIs(acc, input, 1792, secret, 96, 7, 0xF819AF6920770DC3, 0x6DA5389DFB13A67D, 0x76F05342742ED4,
          0x9E68D429265516D3, 0x9E1E247A64213807, 0x9E1E247A, 0x64213807, 0x1, 0xA39732C462126396);
  }

  lemma Stripe29()
    ensures Accumulate512([0xD63D4752CE3E2BC8, 0x943992A73AB4E8B7, 0xFDBF5F0EFB1F6A1B, 0x69FA686AC9BBDCA7,
          0xFD94677279BA4D68, 0x9CFAEBF9AD8FA9, 0x468ECA7139385807, 0xA39732C462126396], Window(TestBuffer(2048),
          1856), Window(KSecret(), 104)) ==
            [0x573A7F114F97A7E2, 0x1F1AF62864D14B17, 0xB75B61BE81E04159, 0x4458146F4B3E8E75, 0xFDAD0382DBAE3230,
                  0xCC74480FB1C2588C, 0xBEB5670D23F3A524, 0x37AD13C284FD7BDE]
  {
    hide Xor, Generator, ReadLE64, TestBuffer, KSecret, Accumulate512, Window;
    var acc: Acc := [0xD63D4752CE3E2BC8, 0x943992A73AB4E8B7, 0xFDBF5F0EFB1F6A1B, 0x69FA686AC9BBDCA7,
          0xFD94677279BA4D68, 0x9CFAEBF9AD8FA9, 0x468ECA7139385807, 0xA39732C462126396];
    var input, secret := TestBuffer(2048), KSecret();
    Buffer33(2048);
    Buffer34(2048);
    Secret1();
    Secret2();
    XorIs(0x89, 0x13, 0x04, 0xba, 0x62, 0x53, 0x6f, 0x40, 0x1d, 0x4f, 0x0b, 0xc7, 0xc7, 0xbb, 0xdc, 0xf9);
    LaneIs(acc, input, 1856, secret, 104, 0, 0xD63D4752CE3E2BC8, 0x20D7062D51B5E3C5, 0x891304BA62536F40,
          0x1D4F0BC7C7BBDCF9, 0x945C0F7DA5E8B3B9, 0x945C0F7D, 0xA5E8B3B9, 0x1, 0x573A7F114F97A7E2);
    XorIs(0x20, 0xd7, 0x06, 0x2d, 0x51, 0xb5, 0xe3, 0xc5, 0x31, 0x59, 0xb4, 0xcd, 0x4b, 0xe0, 0x51, 0x8a);
    LaneIs(acc, input, 1856, secret, 104, 1, 0x943992A73AB4E8B7, 0x891304BA62536F40, 0x20D7062D51B5E3C5,
          0x3159B4CD4BE0518A, 0x118EB2E01A55B24F, 0x118EB2E0, 0x1A55B24F, 0x1, 0x1F1AF62864D14B17);
    XorIs(0xd1, 0x41, 0x94, 0x04, 0xdc, 0xfb, 0xe0, 0x37, 0x64, 0x73, 0x78, 0xd9, 0xc9, 0x7e, 0x9f, 0xc8);
    LaneIs(acc, input, 1856, secret, 104, 2, 0xFDBF5F0EFB1F6A1B, 0xAA60573395B4441B, 0xD1419404DCFBE037,
          0x647378D9C97E9FC8, 0xB532ECDD15857FFF, 0xB532ECDD, 0x15857FFF, 0x1, 0xB75B61BE81E04159);
    XorIs(0xaa, 0x60, 0x57, 0x33, 0x95, 0xb4, 0x44, 0x1b, 0xc3, 0xeb, 0xd3, 0x34, 0x83, 0xac, 0xc5, 0xea);
    LaneIs(acc, input, 1856, secret, 104, 3, 0x69FA686AC9BBDCA7, 0xD1419404DCFBE037, 0xAA60573395B4441B,
          0xC3EBD33483ACC5EA, 0x698B8407161881F1, 0x698B8407, 0x161881F1, 0x1, 0x4458146F4B3E8E75);
    XorIs(0xb2, 0x76, 0xc8, 0xfb, 0x6e, 0x55, 0xee, 0xb1, 0xeb, 0x63, 0x13, 0xfa, 0xff, 0xa0, 0x81, 0xc5);
    LaneIs(acc, input, 1856, secret, 104, 4, 0xFD94677279BA4D68, 0xCD4DD25161223954, 0xB276C8FB6E55EEB1,
          0xEB6313FAFFA081C5, 0x5915DB0191F56F74, 0x5915DB01, 0x91F56F74, 0x1, 0xFDAD0382DBAE3230);
    XorIs(0xcd, 0x4d, 0xd2, 0x51, 0x61, 0x22, 0x39, 0x54, 0x49, 0xda, 0xf0, 0xb7, 0x51, 0xdd, 0x0d, 0x17);
    LaneIs(acc, input, 1856, secret, 104, 5, 0x9CFAEBF9AD8FA9, 0xB276C8FB6E55EEB1, 0xCD4DD25161223954,
          0x49DAF0B751DD0D17, 0x849722E630FF3443, 0x849722E6, 0x30FF3443, 0x0, 0xCC74480FB1C2588C);
    XorIs(0x48, 0x95, 0xa4, 0x65, 0xa0, 0x89, 0xbc, 0x74, 0x9e, 0x68, 0xd4, 0x29, 0x26, 0x55, 0x16, 0xd3);
    LaneIs(acc, input, 1856, secret, 104, 6, 0x468ECA7139385807, 0x6E4A2B715849389, 0x4895A465A089BC74,
          0x9E68D429265516D3, 0xD6FD704C86DCAAA7, 0xD6FD704C, 0x86DCAAA7, 0x0, 0xBEB5670D23F3A524);
    XorIs(0x06, 0xe4, 0xa2, 0xb7, 0x15, 0x84, 0x93, 0x89, 0xfc, 0xa1, 0x47, 0x7d, 0x58, 0xbe, 0x16, 0x2b);
    LaneIs(acc, input, 1856, secret, 104, 7, 0xA39732C462126396, 0x4895A465A089BC74, 0x6E4A2B715849389,
          0xFCA1477D58BE162B, 0xFA45E5CA4D3A85A2, 0xFA45E5CA, 0x4D3A85A2, 0x1, 0x37AD13C284FD7BDE);
  }

  lemma Stripe30()
    ensures Accumulate512([0x573A7F114F97A7E2, 0x1F1AF62864D14B17, 0xB75B61BE81E04159, 0x4458146F4B3E8E75,
          0xFDAD0382DBAE3230, 0xCC74480FB1C2588C, 0xBEB5670D23F3A524, 0x37AD13C284FD7BDE], Window(TestBuffer(2048),
          1920), Window(KSecret(), 112)) ==
            [0xD79E4215AC625C2A, 0x66C286FF4082DD84, 0xE7E405E03149B934, 0x12A5CB47C4679B9D, 0x1AE274077DACB866,
                  0x652BD8D407AB1BF0, 0x5AAC699B5E8E2166, 0xDA4E40146D893A88]
  {
    hide Xor, Generator, ReadLE64, TestBuffer, KSecret, Accumulate512, Window;
    var acc: Acc := [0x573A7F114F97A7E2, 0x1F1AF62864D14B17, 0xB75B61BE81E04159, 0x4458146F4B3E8E75,
          0xFDAD0382DBAE3230, 0xCC74480FB1C2588C, 0xBEB5670D23F3A524, 0x37AD13C284FD7BDE];
    var input, secret := TestBuffer(2048), KSecret();
    Buffer35(2048);
    Buffer36(2048);
    Secret1();
    Secret2();
    XorIs(0x38, 0x53, 0xbc, 0x9a, 0x3b, 0x65, 0x0f, 0x71, 0x31, 0x59, 0xb4, 0xcd, 0x4b, 0xe0, 0x51, 0x8a);
    LaneIs(acc, input, 1920, secret, 112, 0, 0x573A7F114F97A7E2, 0x7C6AA9CD6BB194FB, 0x3853BC9A3B650F71,
          0x3159B4CD4BE0518A, 0x90A085770855EFB, 0x90A0857, 0x70855EFB, 0x0, 0xD79E4215AC625C2A);
    XorIs(0x7c, 0x6a, 0xa9, 0xcd, 0x6b, 0xb1, 0x94, 0xfb, 0x64, 0x73, 0x78, 0xd9, 0xc9, 0x7e, 0x9f, 0xc8);
    LaneIs(acc, input, 1920, secret, 112, 1, 0x1F1AF62864D14B17, 0x3853BC9A3B650F71, 0x7C6AA9CD6BB194FB,
          0x647378D9C97E9FC8, 0x1819D114A2CF0B33, 0x1819D114, 0xA2CF0B33, 0x0, 0x66C286FF4082DD84);
    XorIs(0xff, 0x03, 0xd6, 0xdf, 0x14, 0x01, 0x89, 0xc8, 0xc3, 0xeb, 0xd3, 0x34, 0x83, 0xac, 0xc5, 0xea);
    LaneIs(acc, input, 1920, secret, 112, 2, 0xB75B61BE81E04159, 0xC728DBB1A07EAA5, 0xFF03D6DF140189C8,
          0xC3EBD33483ACC5EA, 0x3CE805EB97AD4C22, 0x3CE805EB, 0x97AD4C22, 0x0, 0xE7E405E03149B934);
    XorIs(0x0c, 0x72, 0x8d, 0xbb, 0x1a, 0x07, 0xea, 0xa5, 0xeb, 0x63, 0x13, 0xfa, 0xff, 0xa0, 0x81, 0xc5);
    LaneIs(acc, input, 1920, secret, 112, 3, 0x4458146F4B3E8E75, 0xFF03D6DF140189C8, 0xC728DBB1A07EAA5,
          0xEB6313FAFFA081C5, 0xE7119E41E5A76B60, 0xE7119E41, 0xE5A76B60, 0x2, 0x12A5CB47C4679B9D);
    XorIs(0x43, 0xbe, 0xe4, 0xb6, 0x64, 0x05, 0xf2, 0x36, 0x49, 0xda, 0xf0, 0xb7, 0x51, 0xdd, 0x0d, 0x17);
    LaneIs(acc, input, 1920, secret, 112, 4, 0xFDAD0382DBAE3230, 0x1B05E9948552F315, 0x43BEE4B66405F236,
          0x49DAF0B751DD0D17, 0xA64140135D8FF21, 0xA641401, 0x35D8FF21, 0x1, 0x1AE274077DACB866);
    XorIs(0x1b, 0x05, 0xe9, 0x94, 0x85, 0x52, 0xf3, 0x15, 0x9e, 0x68, 0xd4, 0x29, 0x26, 0x55, 0x16, 0xd3);
    LaneIs(acc, input, 1920, secret, 112, 5, 0xCC74480FB1C2588C, 0x43BEE4B66405F236, 0x1B05E9948552F315,
          0x9E68D429265516D3, 0x856D3DBDA307E5C6, 0x856D3DBD, 0xA307E5C6, 0x1, 0x652BD8D407AB1BF0);
    XorIs(0x7c, 0x02, 0x3c, 0xc1, 0xa4, 0x59, 0xc5, 0x46, 0xfc, 0xa1, 0x47, 0x7d, 0x58, 0xbe, 0x16, 0x2b);
    LaneIs(acc, input, 1920, secret, 112, 6, 0xBEB5670D23F3A524, 0x1CE196FEFF5ED936, 0x7C023CC1A459C546,
          0xFCA1477D58BE162B, 0x80A37BBCFCE7D36D, 0x80A37BBC, 0xFCE7D36D, 0x1, 0x5AAC699B5E8E2166);
    XorIs(0x1c, 0xe1, 0x96, 0xfe, 0xff, 0x5e, 0xd9, 0x36, 0xce, 0x31, 0xd0, 0x7a, 0xd1, 0xb8, 0xf8, 0x8f);
    LaneIs(acc, input, 1920, secret, 112, 7, 0x37AD13C284FD7BDE, 0x7C023CC1A459C546, 0x1CE196FEFF5ED936,
          0xCE31D07AD1B8F88F, 0xD2D046842EE621B9, 0xD2D04684, 0x2EE621B9, 0x0, 0xDA4E40146D893A88);
  }

  lemma FinalStripe()
    ensures Accumulate512([0xD79E4215AC625C2A, 0x66C286FF4082DD84, 0xE7E405E03149B934, 0x12A5CB47C4679B9D,
          0x1AE274077DACB866, 0x652BD8D407AB1BF0, 0x5AAC699B5E8E2166, 0xDA4E40146D893A88], Window(TestBuffer(2048),
          1984), Window(KSecret(), 121)) ==
            [0x92C5E189637FF106, 0xDB51E96E152C0302, 0xD4FACD2C78AF4B9C, 0xEBB8825536951B32, 0x80A2E3C515CA9403,
                  0x3AF280E869575CB7, 0x50E83159ABC452F8, 0xE35B94B6FB15602D]
  {
    hide Xor, Generator, ReadLE64, TestBuffer, KSecret, Accumulate512, Window;
    var acc: Acc := [0xD79E4215AC625C2A, 0x66C286FF4082DD84, 0xE7E405E03149B934, 0x12A5CB47C4679B9D,
          0x1AE274077DACB866, 0x652BD8D407AB1BF0, 0x5AAC699B5E8E2166, 0xDA4E40146D893A88];
    var input, secret := TestBuffer(2048), KSecret();
    Buffer36(2048);
    Buffer37(2048);
    DefaultLastKeys();
    XorIs(0x3d, 0x6f, 0x16, 0xe4, 0x14, 0x7a, 0x56, 0xaa, 0xea, 0x64, 0x73, 0x78, 0xd9, 0xc9, 0x7e, 0x9f);
    LaneIs(acc, input, 1984, secret, 121, 0, 0xD79E4215AC625C2A, 0xE5D005771CD2B90, 0x3D6F16E4147A56AA,
          0xEA647378D9C97E9F, 0xD70B659CCDB32835, 0xD70B659C, 0xCDB32835, 0x1, 0x92C5E189637FF106);
    XorIs(0x0e, 0x5d, 0x00, 0x57, 0x71, 0xcd, 0x2b, 0x90, 0xc5, 0xc3, 0xeb, 0xd3, 0x34, 0x83, 0xac, 0xc5);
    LaneIs(acc, input, 1984, secret, 121, 1, 0x66C286FF4082DD84, 0x3D6F16E4147A56AA, 0xE5D005771CD2B90,
          0xC5C3EBD33483ACC5, 0xCB9EEB84454E8755, 0xCB9EEB84, 0x454E8755, 0x0, 0xDB51E96E152C0302);
    XorIs(0x8d, 0x00, 0x7e, 0x3e, 0x79, 0xfd, 0x2e, 0xed, 0x17, 0xeb, 0x63, 0x13, 0xfa, 0xff, 0xa0, 0x81);
    LaneIs(acc, input, 1984, secret, 121, 2, 0xE7E405E03149B934, 0x9DCEEB5840AC4D6C, 0x8D007E3E79FD2EED,
          0x17EB6313FAFFA081, 0x9AEB1D2D83028E6C, 0x9AEB1D2D, 0x83028E6C, 0x1, 0xD4FACD2C78AF4B9C);
    XorIs(0x9d, 0xce, 0xeb, 0x58, 0x40, 0xac, 0x4d, 0x6c, 0xd3, 0x49, 0xda, 0xf0, 0xb7, 0x51, 0xdd, 0x0d);
    LaneIs(acc, input, 1984, secret, 121, 3, 0x12A5CB47C4679B9D, 0x8D007E3E79FD2EED, 0x9DCEEB5840AC4D6C,
          0xD349DAF0B751DD0D, 0x4E8731A8F7FD9061, 0x4E8731A8, 0xF7FD9061, 0x0, 0xEBB8825536951B32);
    XorIs(0xbe, 0xec, 0xf7, 0x07, 0x6f, 0x7f, 0x0a, 0x35, 0x2b, 0x9e, 0x68, 0xd4, 0x29, 0x26, 0x55, 0x16);
    LaneIs(acc, input, 1984, secret, 121, 4, 0x1AE274077DACB866, 0x3CAEEBA65DC7B4C4, 0xBEECF7076F7F0A35,
          0x2B9E68D429265516, 0x95729FD346595F23, 0x95729FD3, 0x46595F23, 0x0, 0x80A2E3C515CA9403);
    XorIs(0x3c, 0xae, 0xeb, 0xa6, 0x5d, 0xc7, 0xb4, 0xc4, 0x8f, 0xfc, 0xa1, 0x47, 0x7d, 0x58, 0xbe, 0x16);
    LaneIs(acc, input, 1984, secret, 121, 5, 0x652BD8D407AB1BF0, 0xBEECF7076F7F0A35, 0x3CAEEBA65DC7B4C4,
          0x8FFCA1477D58BE16, 0xB3524AE1209F0AD2, 0xB3524AE1, 0x209F0AD2, 0x1, 0x3AF280E869575CB7);
    XorIs(0xce, 0x8b, 0xa6, 0xa8, 0x2e, 0x03, 0x9d, 0x22, 0x45, 0xce, 0x31, 0xd0, 0x7a, 0xd1, 0xb8, 0xf8);
    LaneIs(acc, input, 1984, secret, 121, 6, 0x5AAC699B5E8E2166, 0xC8169E5D049EDD62, 0xCE8BA6A82E039D22,
          0x45CE31D07AD1B8F8, 0x8B45977854D225DA, 0x8B459778, 0x54D225DA, 0x1, 0x50E83159ABC452F8);
    XorIs(0xc8, 0x16, 0x9e, 0x5d, 0x04, 0x9e, 0xdd, 0x62, 0xaf, 0x28, 0x04, 0x16, 0x95, 0x8f, 0x3a, 0xcb);
    LaneIs(acc, input, 1984, secret, 121, 7, 0xDA4E40146D893A88, 0xCE8BA6A82E039D22, 0xC8169E5D049EDD62,
          0xAF280416958F3ACB, 0x673E9A4B9111E7A9, 0x673E9A4B, 0x9111E7A9, 0x1, 0xE35B94B6FB15602D);
  }

  lemma ScrambleKeys()
    ensures |KSecret()| == 192 && ScrambleSecret(KSecret()) == Window(KSecret(), 128)
          && LastSecret(KSecret()) == Window(KSecret(), 121)
  {
    hide KSecret, Window;
  }

  lemma Block0()
    ensures AfterStripes(KSecret(), TestBuffer(2048), 16) == [0x6BE027E2500F538, 0x76A892A2882301BC,
          0xE3A45C8D8B8DBEED, 0x781155323C124E37, 0x519A0E3ACC9931A, 0x45C0D07FE650A72E, 0x96A2DC276CE1DE23,
          0x385037A2CB4E669B]
  {
    hide Generator, TestBuffer, KSecret, Accumulate512, Window, AfterStripes, ScrambleAcc, ScrambleSecret;
    var input, secret := TestBuffer(2048), KSecret();
    ScrambleKeys();
    Start(secret, input);
    Stripe0();
    NextStripe(secret, input, 1);
    assert AfterStripes(secret, input, 1) == [0xF65A36A2039158CA, 0x2A5B24E970F04150, 0xBA1A870F589F167,
          0xBC3BFCEA53AC811F, 0xE1EC8AFABC5F44B6, 0x3773C5D9C03AF696, 0xD2030499AA8DE48D, 0x7E3EB4A4F7C0A071];
    Stripe1();
    NextStripe(secret, input, 2);
    assert AfterStripes(secret, input, 2) == [0xEE609BB3F41B60E4, 0xA50F5F706A992C7F, 0xC131FA51A06A7C14,
          0x3FB58F23D3E54125, 0x3CE602C47BFA88CA, 0x464563826DD62A6D, 0x7206CCA2AA226A28, 0xFE83470B00D22618];
    Stripe2();
    NextStripe(secret, input, 3);
    assert AfterStripes(secret, input, 3) == [0xBE3C7E9ECBD11021, 0x9F4AB9BDDB915859, 0x2F936EC0510B901,
          0x627DE00FADA0EB7E, 0xD7C682859C033547, 0x9B0D43921773F401, 0x272A6C40C32F2FB2, 0x9E01D9B12D4AAEC1];
    Stripe3();
    NextStripe(secret, input, 4);
    assert AfterStripes(secret, input, 4) == [0xEDF308BF63FCCC2E, 0x64A0DB5D19C3616E, 0xE45EBD40981339F0,
          0xADBB6F8A838D9442, 0xA9310E99C04C0E84, 0x40B5826009308186, 0xF553ADE632D0E2C5, 0xC47129C94EE206CB];
    Stripe4();
    NextStripe(secret, input, 5);
    assert AfterStripes(secret, input, 5) == [0x94CFEB4DD5AE3B0E, 0x569E696F1C71BA43, 0x430EBD5B803DAEA2,
          0xECF909405696407, 0x1DA2BE21C472FA8, 0x64DDDFDC0782EB14, 0x1AFC1F6D0D6D64D, 0x3D20FB6CD162E8C2];
    Stripe5();
    NextStripe(secret, input, 6);
    assert AfterStripes(secret, input, 6) == [0x4D0D0604BC0BD0BE, 0x4A951751ACBAB1ED, 0x24981A52C3BD475A,
          0x266100F4A766A5CF, 0xB4D373A7E590D543, 0x6EA42278E4D42B8E, 0x6E382A1F6A5D2A39, 0x68F5D2249217DF49];
    Stripe6();
    NextStripe(secret, input, 7);
    assert AfterStripes(secret, input, 7) == [0x279F682768705EE, 0xA534266DF36E5F1E, 0xE40ED688CA056AC2,
          0x8C77EABEF3D031B1, 0xD81FA3BAF02E7CF2, 0x92A39733568A90DF, 0xB666EB014B94B017, 0x923272661521AF42];
    Stripe7();
    NextStripe(secret, input, 8);
    assert AfterStripes(secret, input, 8) == [0xB0EC9BD903C09862, 0x1DCC27263167005B, 0x8D59618CB2A884BD,
          0xEDE72D8F071405DE, 0xDB5B533E99FAAD, 0x91B41F7E9EAEC2DE, 0xC0BD570C61CEFF7E, 0xCEB184FF3FD4F94E];
    Stripe8();
    NextStripe(secret, input, 9);
    assert AfterStripes(secret, input, 9) == [0x39BC08C956E00439, 0xC2F1F9EA4249E6CC, 0xD8AE53FF3EAD674A,
          0xDEDC690290081BFD, 0xBC22959E65F0E800, 0x6F71595647CA1724, 0xA051738DD86C8B00, 0x737FFCE2536EF665];
    Stripe9();
    NextStripe(secret, input, 10);
    assert AfterStripes(secret, input, 10) == [0xCED84A0883E71FC1, 0x1AA6FD4F13E73173, 0xBC4F9ED0F98887E,
          0xE4F29961A28542C6, 0xE7763953F1BCFCAA, 0x7B31FADE4E74FF22, 0xF012EFE69FD349C9, 0x6520314945E10C92];
    Stripe10();
    NextStripe(secret, input, 11);
    assert AfterStripes(secret, input, 11) == [0x87D9993A3C2F9319, 0xC421563A15500EBF, 0x4F584F57CCA89070,
          0xC2EBB049041412BD, 0x7F33EB4B915BC813, 0x1A2D59FD9515F8C8, 0xB43348B6B1A70E2D, 0x84A2C50FC537DFCA];
    Stripe11();
    NextStripe(secret, input, 12);
    assert AfterStripes(secret, input, 12) == [0x4A86513216ADCDCB, 0x40A7A212941F94DD, 0x19ED65CEDCCE12FE,
          0x33A34E3C2970D4B0, 0xA6F9DF77BBC7E109, 0xAFDEDE468A213C8A, 0x151CF1FDDF480FA, 0xB5B2D576BA1E8F20];
    Stripe12();
    NextStripe(secret, input, 13);
    assert AfterStripes(secret, input, 13) == [0xE9FE898FC650D0A, 0x7FB36242C402F684, 0xDD20A5B9B8E631FE,
          0x3F295121257F9703, 0x129F4C74106DE76C, 0x47D56A9469EA60C2, 0x61AAA352328637D9, 0x1900CEC2C9E1A2FC];
    Stripe13();
    NextStripe(secret, input, 14);
    assert AfterStripes(secret, input, 14) == [0xA0CC4FDA603BE985, 0x5385DA2C802160F1, 0x40BF6AEED0ABF1C8,
          0x7030055F4CF62D9, 0x52245856851318E0, 0x9FD4907B5BBFB221, 0x961A298215998E49, 0x213F086D8F10B38A];
    Stripe14();
    NextStripe(secret, input, 15);
    assert AfterStripes(secret, input, 15) == [0xCFE185A011413E3B, 0x83A8FE186AC4EE3A, 0x93CC6F4A015BEA68,
          0x67BE9BFC76FA353C, 0xF8A120670664727B, 0x83E3357D9D67B7B, 0xB2EDFD7C6F857474, 0xDE1FD2CABC8C308C];
    Stripe15();
    Scrambled();
    NextStripe(secret, input, 16);
    assert AfterStripes(secret, input, 16) == [0x6BE027E2500F538, 0x76A892A2882301BC, 0xE3A45C8D8B8DBEED,
          0x781155323C124E37, 0x519A0E3ACC9931A, 0x45C0D07FE650A72E, 0x96A2DC276CE1DE23, 0x385037A2CB4E669B];
  }

  lemma Block1()
    ensures AfterStripes(KSecret(), TestBuffer(2048), 31) == [0xD79E4215AC625C2A, 0x66C286FF4082DD84,
          0xE7E405E03149B934, 0x12A5CB47C4679B9D, 0x1AE274077DACB866, 0x652BD8D407AB1BF0, 0x5AAC699B5E8E2166,
          0xDA4E40146D893A88]
  {
    hide Generator, TestBuffer, KSecret, Accumulate512, Window, AfterStripes, ScrambleAcc, ScrambleSecret;
    var input, secret := TestBuffer(2048), KSecret();
    ScrambleKeys();
    Block0();
    Stripe16();
    NextStripe(secret, input, 17);
    assert AfterStripes(secret, input, 17) == [0xFF96B2AC05090E9C, 0x29E1C56171662BD2, 0xE9C52179E9489A60,
          0x9CC9067B31D4CAFC, 0x2D1AC1474B776CB8, 0x426D2BC7DE05B9CE, 0xAD91408496A7AA6, 0xCABCFACD7C583DD2];
    Stripe17();
    NextStripe(secret, input, 18);
    assert AfterStripes(secret, input, 18) == [0x35B078B2427BB67E, 0x7DDAB2A92CF8389D, 0x9629061AB97930BB,
          0xC63ABD046F643686, 0x77A3FB9402E9BB4E, 0xFF786696F25402EB, 0x3C04059CBBFF5395, 0xB06FE403256E7C83];
    Stripe18();
    NextStripe(secret, input, 19);
    assert AfterStripes(secret, input, 19) == [0x6721FFC09E42CBFE, 0xF72F9B11D0A243FD, 0x724DAE7664728661,
          0x2DE3637C428D81AD, 0x9B7D15F260797E7C, 0x1BB33F0C3FEE6FDF, 0x105FA1B2D4D80751, 0xDD4773ED69DE64B8];
    Stripe19();
    NextStripe(secret, input, 20);
    assert AfterStripes(secret, input, 20) == [0x14525D112810180E, 0xB7D0041FE8B3CA5B, 0x556AA65A2D54BB49,
          0x136BC5737B163EC7, 0x44FC5B4EB3887364, 0x6E5B756F1E6BEA3B, 0x7BFD8B490B4C5119, 0x9C1D15B82A84B59F];
    Stripe20();
    NextStripe(secret, input, 21);
    assert AfterStripes(secret, input, 21) == [0x32D863C1437E96B0, 0x39DD55E0F7B5B1B8, 0x570B7798FBC82A93,
          0x1692394067054A0F, 0x92E0987E73FAD697, 0x3B0B74EFE7A2F251, 0x6B809CD2E1243273, 0xC6B3B8B49B5B8D0A];
    Stripe21();
    NextStripe(secret, input, 22);
    assert AfterStripes(secret, input, 22) == [0xCD926E72E463E3E0, 0xE327FC4B8B49847A, 0x8629D31EE0E5543A,
          0x16FCFEEB3F981805, 0x3FAEC0FCB7995E7, 0x1889B10F4D113828, 0x531AE8541C2D92E0, 0xA4FAA05F6AF67495];
    Stripe22();
    NextStripe(secret, input, 23);
    assert AfterStripes(secret, input, 23) == [0x4125EF40378BECAB, 0xEA8A3761AB0CBDBE, 0xA4BEE808CE9F78FB,
          0x2F5A3922FA5FE654, 0xED9C92DA4228C0C2, 0x6132B27FFE4DED9D, 0x3A5B97FA8CDE10A5, 0x3BDFCCFDB6AD5F17];
    Stripe23();
    NextStripe(secret, input, 24);
    assert AfterStripes(secret, input, 24) == [0xFF7BC449E826E595, 0x581A6706DD1F0A7, 0xEBBF3F67C3F15B29,
          0x56849F383CD4F275, 0x5A6EA588FC6646C6, 0xF045159C62219014, 0x5CABC72C9F3A3177, 0x35C279F3FAC39DEB];
    Stripe24();
    NextStripe(secret, input, 25);
    assert AfterStripes(secret, input, 25) == [0x4DBCE0AABDDCD298, 0xB706B5BD1E714FAE, 0xBBFC5E1FA712A8EB,
          0x36A9DD957FE18288, 0x240580D12CAE4FB6, 0x892143FF7DAA59AA, 0x56BD32D5F435DAAC, 0xD7438A3259EDAC1F];
    Stripe25();
    NextStripe(secret, input, 26);
    assert AfterStripes(secret, input, 26) == [0x94E9064B05DF0032, 0x6F25116BCCA51F77, 0xB2501B9ACBEA129A,
          0x71E88CC35FCBCBEC, 0x43BB5EE298A2BA49, 0xB356D7EEA242A794, 0x1EEF29DCE005A4D2, 0xB64EA21DDB30FFF];
    Stripe26();
    NextStripe(secret, input, 27);
    assert AfterStripes(secret, input, 27) == [0xA5F81D33C44EBF71, 0x1743B4674349146B, 0x2FC20FCDB3C97CB6,
          0xE48BEAC3297D879D, 0xB28020B5C1FEE0F2, 0xDE04104705A66E0D, 0x3583462F97A730BD, 0x18E6D7CBD1A2BBAB];
    Stripe27();
    NextStripe(secret, input, 28);
    assert AfterStripes(secret, input, 28) == [0x5A8F6C9352C951A9, 0xC13346196D232576, 0x4EA913802F6111DD,
          0x18D8F0403424F767, 0xD63AF31772AC4C28, 0xBA38253A965A6A17, 0x2DBD87EE895B39CF, 0xF819AF6920770DC3];
    Stripe28();
    NextStripe(secret, input, 29);
    assert AfterStripes(secret, input, 29) == [0xD63D4752CE3E2BC8, 0x943992A73AB4E8B7, 0xFDBF5F0EFB1F6A1B,
          0x69FA686AC9BBDCA7, 0xFD94677279BA4D68, 0x9CFAEBF9AD8FA9, 0x468ECA7139385807, 0xA39732C462126396];
    Stripe29();
    NextStripe(secret, input, 30);
    assert AfterStripes(secret, input, 30) == [0x573A7F114F97A7E2, 0x1F1AF62864D14B17, 0xB75B61BE81E04159,
          0x4458146F4B3E8E75, 0xFDAD0382DBAE3230, 0xCC74480FB1C2588C, 0xBEB5670D23F3A524, 0x37AD13C284FD7BDE];
    Stripe30();
    NextStripe(secret, input, 31);
    assert AfterStripes(secret, input, 31) == [0xD79E4215AC625C2A, 0x66C286FF4082DD84, 0xE7E405E03149B934,
          0x12A5CB47C4679B9D, 0x1AE274077DACB866, 0x652BD8D407AB1BF0, 0x5AAC699B5E8E2166, 0xDA4E40146D893A88];
  }

  lemma BlocksFolded0()
    ensures MergeRounds([0x92C5E189637FF106, 0xDB51E96E152C0302, 0xD4FACD2C78AF4B9C, 0xEBB8825536951B32,
          0x80A2E3C515CA9403, 0x3AF280E869575CB7, 0x50E83159ABC452F8, 0xE35B94B6FB15602D], KSecret(), 11,
          0xBBCD8C2F5E543800, 1) == 0x9CC1CE76F9CF751C
  {
    hide Xor, ReadLE64, KSecret, Mul128Fold64, MergeRounds;
    var acc: Acc := [0x92C5E189637FF106, 0xDB51E96E152C0302, 0xD4FACD2C78AF4B9C, 0xEBB8825536951B32,
          0x80A2E3C515CA9403, 0x3AF280E869575CB7, 0x50E83159ABC452F8, 0xE35B94B6FB15602D];
    var secret := KSecret();
    DefaultFoldKeys();
    XorIs(0x92, 0xc5, 0xe1, 0x89, 0x63, 0x7f, 0xf1, 0x06, 0x6d, 0xd4, 0xde, 0x1c, 0xad, 0x21, 0xf7, 0x2c);
    XorIs(0xdb, 0x51, 0xe9, 0x6e, 0x15, 0x2c, 0x03, 0x02, 0xa4, 0x40, 0x72, 0xdb, 0x97, 0x90, 0x83, 0xe9);
    XorIs(0x9e, 0x6f, 0x5b, 0x93, 0x4e, 0x3c, 0xa8, 0x8e, 0x7e, 0x9b, 0x19, 0xd4, 0xd5, 0x47, 0x95, 0x92);
    FoldIs(0xFF113F95CE5E062A, 0x7F119BB582BC80EB, 0x9E6F5B934E3CA88E, 0x7E9B19D4D5479592);
    NoFold(acc, secret, 11, 0xBBCD8C2F5E543800);
    FoldedIs(acc, secret, 11, 0xBBCD8C2F5E543800, 1, 0xBBCD8C2F5E543800, 0x92C5E189637FF106, 0xDB51E96E152C0302,
          0x6DD4DE1CAD21F72C, 0xA44072DB979083E9, 0xFF113F95CE5E062A, 0x7F119BB582BC80EB, 0xE0F442479B7B3D1C, 0x1,
          0x9CC1CE76F9CF751C);
  }

  lemma BlocksFolded1()
    ensures MergeRounds([0x92C5E189637FF106, 0xDB51E96E152C0302, 0xD4FACD2C78AF4B9C, 0xEBB8825536951B32,
          0x80A2E3C515CA9403, 0x3AF280E869575CB7, 0x50E83159ABC452F8, 0xE35B94B6FB15602D], KSecret(), 11,
          0xBBCD8C2F5E543800, 2) == 0x53C48293164C8F11
  {
    hide Xor, ReadLE64, KSecret, Mul128Fold64, MergeRounds;
    var acc: Acc := [0x92C5E189637FF106, 0xDB51E96E152C0302, 0xD4FACD2C78AF4B9C, 0xEBB8825536951B32,
          0x80A2E3C515CA9403, 0x3AF280E869575CB7, 0x50E83159ABC452F8, 0xE35B94B6FB15602D];
    var secret := KSecret();
    DefaultFoldKeys();
    XorIs(0xd4, 0xfa, 0xcd, 0x2c, 0x78, 0xaf, 0x4b, 0x9c, 0xe6, 0x79, 0xcb, 0x1f, 0x67, 0xb3, 0xb7, 0xa4);
    XorIs(0xeb, 0xb8, 0x82, 0x55, 0x36, 0x95, 0x1b, 0x32, 0xd0, 0x5a, 0x82, 0x78, 0xe5, 0xc0, 0xcc, 0x4e);
    XorIs(0xbc, 0xd2, 0x7e, 0x3e, 0x50, 0x75, 0x33, 0x20, 0x0b, 0xd0, 0xca, 0x22, 0x4c, 0x08, 0x2a, 0xd5);
    FoldIs(0x328306331F1CFC38, 0x3BE2002DD355D77C, 0xBCD27E3E50753320, 0xBD0CA224C082AD5);
    BlocksFolded0();
    FoldedIs(acc, secret, 11, 0xBBCD8C2F5E543800, 2, 0x9CC1CE76F9CF751C, 0xD4FACD2C78AF4B9C, 0xEBB8825536951B32,
          0xE679CB1F67B3B7A4, 0xD05A8278E5C0CC4E, 0x328306331F1CFC38, 0x3BE2002DD355D77C, 0xB702B41C1C7D19F5, 0x1,
          0x53C48293164C8F11);
  }

  lemma BlocksFolded2()
    ensures MergeRounds([0x92C5E189637FF106, 0xDB51E96E152C0302, 0xD4FACD2C78AF4B9C, 0xEBB8825536951B32,
          0x80A2E3C515CA9403, 0x3AF280E869575CB7, 0x50E83159ABC452F8, 0xE35B94B6FB15602D], KSecret(), 11,
          0xBBCD8C2F5E543800, 3) == 0x66B17A3D84F831E5
  {
    hide Xor, ReadLE64, KSecret, Mul128Fold64, MergeRounds;
    var acc: Acc := [0x92C5E189637FF106, 0xDB51E96E152C0302, 0xD4FACD2C78AF4B9C, 0xEBB8825536951B32,
          0x80A2E3C515CA9403, 0x3AF280E869575CB7, 0x50E83159ABC452F8, 0xE35B94B6FB15602D];
    var secret := KSecret();
    DefaultFoldKeys();
    XorIs(0x80, 0xa2, 0xe3, 0xc5, 0x15, 0xca, 0x94, 0x03, 0x46, 0x08, 0xb8, 0x21, 0x72, 0xff, 0xcc, 0x7d);
    XorIs(0x3a, 0xf2, 0x80, 0xe8, 0x69, 0x57, 0x5c, 0xb7, 0x90, 0x35, 0xe0, 0x8e, 0x24, 0x43, 0xf7, 0x74);
    XorIs(0x96, 0x6b, 0x2d, 0xe8, 0x0f, 0x96, 0x91, 0xfa, 0x84, 0x87, 0xda, 0x42, 0x61, 0x3d, 0x33, 0x2e);
    FoldIs(0xC6AA5BE46735587E, 0xAAC760664D14ABC3, 0x966B2DE80F9691FA, 0x8487DA42613D332E);
    BlocksFolded1();
    FoldedIs(acc, secret, 11, 0xBBCD8C2F5E543800, 3, 0x53C48293164C8F11, 0x80A2E3C515CA9403, 0x3AF280E869575CB7,
          0x4608B82172FFCC7D, 0x9035E08E2443F774, 0xC6AA5BE46735587E, 0xAAC760664D14ABC3, 0x12ECF7AA6EABA2D4, 0x0,
          0x66B17A3D84F831E5);
  }

  lemma BlocksFolded3()
    ensures MergeRounds([0x92C5E189637FF106, 0xDB51E96E152C0302, 0xD4FACD2C78AF4B9C, 0xEBB8825536951B32,
          0x80A2E3C515CA9403, 0x3AF280E869575CB7, 0x50E83159ABC452F8, 0xE35B94B6FB15602D], KSecret(), 11,
          0xBBCD8C2F5E543800, 4) == 0x6C4855D5C8CA5955
  {
    hide Xor, ReadLE64, KSecret, Mul128Fold64, MergeRounds;
    var acc: Acc := [0x92C5E189637FF106, 0xDB51E96E152C0302, 0xD4FACD2C78AF4B9C, 0xEBB8825536951B32,
          0x80A2E3C515CA9403, 0x3AF280E869575CB7, 0x50E83159ABC452F8, 0xE35B94B6FB15602D];
    var secret := KSecret();
    DefaultFoldKeys();
    XorIs(0x50, 0xe8, 0x31, 0x59, 0xab, 0xc4, 0x52, 0xf8, 0x52, 0x28, 0x3c, 0x4c, 0x26, 0x3a, 0x81, 0xe6);
    XorIs(0xe3, 0x5b, 0x94, 0xb6, 0xfb, 0x15, 0x60, 0x2d, 0x65, 0xd0, 0x88, 0xcb, 0x00, 0xc3, 0x91, 0xbb);
    XorIs(0x04, 0xe4, 0xde, 0xf6, 0xfd, 0x22, 0xf1, 0x94, 0x01, 0x72, 0x05, 0x6e, 0xbe, 0xf0, 0xd6, 0xe4);
    FoldIs(0x2C00D158DFED31E, 0x868B1C7DFBD6F196, 0x4E4DEF6FD22F194, 0x172056EBEF0D6E4);
    BlocksFolded2();
    FoldedIs(acc, secret, 11, 0xBBCD8C2F5E543800, 4, 0x66B17A3D84F831E5, 0x50E83159ABC452F8, 0xE35B94B6FB15602D,
          0x52283C4C263A81E6, 0x65D088CB00C391BB, 0x2C00D158DFED31E, 0x868B1C7DFBD6F196, 0x596DB9843D22770, 0x0,
          0x6C4855D5C8CA5955);
  }

  lemma AvalancheAt0()
    ensures Avalanche(0x6C4855D5C8CA5955) == 0xDD59E2C3A5F038E0
  {
    hide Xor, Avalanche;
    XorIs(0x6c, 0x48, 0x55, 0xd5, 0xc8, 0xca, 0x59, 0x55, 0x00, 0x00, 0x00, 0x00, 0x03, 0x62, 0x42, 0xae);
    XorIs(0xdd, 0x59, 0xe2, 0xc3, 0x78, 0xa9, 0xda, 0x23, 0x00, 0x00, 0x00, 0x00, 0xdd, 0x59, 0xe2, 0xc3);
    AvalancheIs(0x6C4855D5C8CA5955, 0x36242AE, 0x15C8CA5955, 0x6C4855D5CBA81BFB, 0x972C37BE7C09C05,
          0xDD59E2C378A9DA23, 0xDD59E2C3, 0x78A9DA23);
  }

  lemma BlocksFolded()
    ensures MergeAccs([0x92C5E189637FF106, 0xDB51E96E152C0302, 0xD4FACD2C78AF4B9C, 0xEBB8825536951B32,
          0x80A2E3C515CA9403, 0x3AF280E869575CB7, 0x50E83159ABC452F8, 0xE35B94B6FB15602D], KSecret(), 11,
          0xBBCD8C2F5E543800) == 0xDD59E2C3A5F038E0
  {
    hide Xor, KSecret, MergeRounds, Avalanche;
    BlocksFolded3();
    AvalancheAt0();
  }

  lemma BlocksWideFolded0()
    ensures MergeRounds([0x92C5E189637FF106, 0xDB51E96E152C0302, 0xD4FACD2C78AF4B9C, 0xEBB8825536951B32,
          0x80A2E3C515CA9403, 0x3AF280E869575CB7, 0x50E83159ABC452F8, 0xE35B94B6FB15602D], KSecret(), 117,
          0x6A8E16C158A587FF, 1) == 0xF6779845099CE985
  {
    hide Xor, ReadLE64, KSecret, Mul128Fold64, MergeRounds;
    var acc: Acc := [0x92C5E189637FF106, 0xDB51E96E152C0302, 0xD4FACD2C78AF4B9C, 0xEBB8825536951B32,
          0x80A2E3C515CA9403, 0x3AF280E869575CB7, 0x50E83159ABC452F8, 0xE35B94B6FB15602D];
    var secret := KSecret();
    DefaultWideKeys();
    XorIs(0x92, 0xc5, 0xe1, 0x89, 0x63, 0x7f, 0xf1, 0x06, 0xd9, 0xc9, 0x7e, 0x9f, 0xc8, 0x31, 0x59, 0xb4);
    XorIs(0xdb, 0x51, 0xe9, 0x6e, 0x15, 0x2c, 0x03, 0x02, 0x34, 0x83, 0xac, 0xc5, 0xea, 0x64, 0x73, 0x78);
    XorIs(0xcd, 0xa7, 0xec, 0xce, 0xcd, 0x5a, 0x44, 0xd4, 0x46, 0x4e, 0x6d, 0x4d, 0x7d, 0xad, 0x25, 0x52);
    FoldIs(0x4B0C9F16AB4EA8B2, 0xEFD245ABFF48707A, 0xCDA7ECCECD5A44D4, 0x464E6D4D7DAD2552);
    NoFold(acc, secret, 117, 0x6A8E16C158A587FF);
    FoldedIs(acc, secret, 117, 0x6A8E16C158A587FF, 1, 0x6A8E16C158A587FF, 0x92C5E189637FF106, 0xDB51E96E152C0302,
          0xD9C97E9FC83159B4, 0x3483ACC5EA647378, 0x4B0C9F16AB4EA8B2, 0xEFD245ABFF48707A, 0x8BE98183B0F76186, 0x0,
          0xF6779845099CE985);
  }

  lemma BlocksWideFolded1()
    ensures MergeRounds([0x92C5E189637FF106, 0xDB51E96E152C0302, 0xD4FACD2C78AF4B9C, 0xEBB8825536951B32,
          0x80A2E3C515CA9403, 0x3AF280E869575CB7, 0x50E83159ABC452F8, 0xE35B94B6FB15602D], KSecret(), 117,
          0x6A8E16C158A587FF, 2) == 0x79ED734B7C69A94E
  {
    hide Xor, ReadLE64, KSecret, Mul128Fold64, MergeRounds;
    var acc: Acc := [0x92C5E189637FF106, 0xDB51E96E152C0302, 0xD4FACD2C78AF4B9C, 0xEBB8825536951B32,
          0x80A2E3C515CA9403, 0x3AF280E869575CB7, 0x50E83159ABC452F8, 0xE35B94B6FB15602D];
    var secret := KSecret();
    DefaultWideKeys();
    XorIs(0xd4, 0xfa, 0xcd, 0x2c, 0x78, 0xaf, 0x4b, 0x9c, 0xfa, 0xff, 0xa0, 0x81, 0xc5, 0xc3, 0xeb, 0xd3);
    XorIs(0xeb, 0xb8, 0x82, 0x55, 0x36, 0x95, 0x1b, 0x32, 0xb7, 0x51, 0xdd, 0x0d, 0x17, 0xeb, 0x63, 0x13);
    XorIs(0x93, 0xc6, 0x3c, 0x79, 0x6c, 0x07, 0xb2, 0x2f, 0x10, 0xb3, 0xe7, 0x7f, 0x1e, 0xcb, 0x0d, 0xe6);
    FoldIs(0x2E056DADBD6CA04F, 0x5CE95F58217E7821, 0x93C63C796C07B22F, 0x10B3E77F1ECB0DE6);
    BlocksWideFolded0();
    FoldedIs(acc, secret, 117, 0x6A8E16C158A587FF, 2, 0xF6779845099CE985, 0xD4FACD2C78AF4B9C, 0xEBB8825536951B32,
          0xFAFFA081C5C3EBD3, 0xB751DD0D17EB6313, 0x2E056DADBD6CA04F, 0x5CE95F58217E7821, 0x8375DB0672CCBFC9, 0x1,
          0x79ED734B7C69A94E);
  }

  lemma BlocksWideFolded2()
    ensures MergeRounds([0x92C5E189637FF106, 0xDB51E96E152C0302, 0xD4FACD2C78AF4B9C, 0xEBB8825536951B32,
          0x80A2E3C515CA9403, 0x3AF280E869575CB7, 0x50E83159ABC452F8, 0xE35B94B6FB15602D], KSecret(), 117,
          0x6A8E16C158A587FF, 3) == 0x8BC8879631AF2BF6
  {
    hide Xor, ReadLE64, KSecret, Mul128Fold64, MergeRounds;
    var acc: Acc := [0x92C5E189637FF106, 0xDB51E96E152C0302, 0xD4FACD2C78AF4B9C, 0xEBB8825536951B32,
          0x80A2E3C515CA9403, 0x3AF280E869575CB7, 0x50E83159ABC452F8, 0xE35B94B6FB15602D];
    var secret := KSecret();
    DefaultWideKeys();
    XorIs(0x80, 0xa2, 0xe3, 0xc5, 0x15, 0xca, 0x94, 0x03, 0x29, 0x26, 0x55, 0x16, 0xd3, 0x49, 0xda, 0xf0);
    XorIs(0x3a, 0xf2, 0x80, 0xe8, 0x69, 0x57, 0x5c, 0xb7, 0x7d, 0x58, 0xbe, 0x16, 0x2b, 0x9e, 0x68, 0xd4);
    XorIs(0x3e, 0xaf, 0x9e, 0xc6, 0x13, 0x9b, 0xe3, 0xf9, 0x2f, 0x74, 0x8a, 0x8c, 0xa6, 0xde, 0x61, 0x51);
    FoldIs(0xA984B6D3C6834EF3, 0x47AA3EFE42C93463, 0x3EAF9EC6139BE3F9, 0x2F748A8CA6DE6151);
    BlocksWideFolded1();
    FoldedIs(acc, secret, 117, 0x6A8E16C158A587FF, 3, 0x79ED734B7C69A94E, 0x80A2E3C515CA9403, 0x3AF280E869575CB7,
          0x29265516D349DAF0, 0x7D58BE162B9E68D4, 0xA984B6D3C6834EF3, 0x47AA3EFE42C93463, 0x11DB144AB54582A8, 0x0,
          0x8BC8879631AF2BF6);
  }

  lemma BlocksWideFolded3()
    ensures MergeRounds([0x92C5E189637FF106, 0xDB51E96E152C0302, 0xD4FACD2C78AF4B9C, 0xEBB8825536951B32,
          0x80A2E3C515CA9403, 0x3AF280E869575CB7, 0x50E83159ABC452F8, 0xE35B94B6FB15602D], KSecret(), 117,
          0x6A8E16C158A587FF, 4) == 0x291E08DA403EB46C
  {
    hide Xor, ReadLE64, KSecret, Mul128Fold64, MergeRounds;
    var acc: Acc := [0x92C5E189637FF106, 0xDB51E96E152C0302, 0xD4FACD2C78AF4B9C, 0xEBB8825536951B32,
          0x80A2E3C515CA9403, 0x3AF280E869575CB7, 0x50E83159ABC452F8, 0xE35B94B6FB15602D];
    var secret := KSecret();
    DefaultWideKeys();
    XorIs(0x50, 0xe8, 0x31, 0x59, 0xab, 0xc4, 0x52, 0xf8, 0x7a, 0xd1, 0xb8, 0xf8, 0x8f, 0xfc, 0xa1, 0x47);
    XorIs(0xe3, 0x5b, 0x94, 0xb6, 0xfb, 0x15, 0x60, 0x2d, 0x95, 0x8f, 0x3a, 0xcb, 0x45, 0xce, 0x31, 0xd0);
    XorIs(0x8e, 0xcc, 0x18, 0x9a, 0x17, 0xcd, 0x52, 0xc3, 0x13, 0x99, 0x99, 0xde, 0x19, 0x42, 0xda, 0xb5);
    FoldIs(0x2A3989A12438F3BF, 0x76D4AE7DBEDB51FD, 0x8ECC189A17CD52C3, 0x139999DE1942DAB5);
    BlocksWideFolded2();
    FoldedIs(acc, secret, 117, 0x6A8E16C158A587FF, 4, 0x8BC8879631AF2BF6, 0x50E83159ABC452F8, 0xE35B94B6FB15602D,
          0x7AD1B8F88FFCA147, 0x958F3ACB45CE31D0, 0x2A3989A12438F3BF, 0x76D4AE7DBEDB51FD, 0x9D5581440E8F8876, 0x1,
          0x291E08DA403EB46C);
  }

  lemma AvalancheAt1()
    ensures Avalanche(0x291E08DA403EB46C) == 0xF736557FD47073A5
  {
    hide Xor, Avalanche;
    XorIs(0x29, 0x1e, 0x08, 0xda, 0x40, 0x3e, 0xb4, 0x6c, 0x00, 0x00, 0x00, 0x00, 0x01, 0x48, 0xf0, 0x46);
    XorIs(0xf7, 0x36, 0x55, 0x7f, 0x23, 0x46, 0x26, 0xda, 0x00, 0x00, 0x00, 0x00, 0xf7, 0x36, 0x55, 0x7f);
    AvalancheIs(0x291E08DA403EB46C, 0x148F046, 0x1A403EB46C, 0x291E08DA4176442A, 0x396757C33EE6E0D,
          0xF736557F234626DA, 0xF736557F, 0x234626DA);
  }

  lemma BlocksWideFolded()
    ensures MergeAccs([0x92C5E189637FF106, 0xDB51E96E152C0302, 0xD4FACD2C78AF4B9C, 0xEBB8825536951B32,
          0x80A2E3C515CA9403, 0x3AF280E869575CB7, 0x50E83159ABC452F8, 0xE35B94B6FB15602D], KSecret(), 117,
          0x6A8E16C158A587FF) == 0xF736557FD47073A5
  {
    hide Xor, KSecret, MergeRounds, Avalanche;
    BlocksWideFolded3();
    AvalancheAt1();
  }

  /** xxhsum.c lines 1267 and 1356: 2048 bytes without a seed. */
  lemma Known2048()
    ensures Hash64(Seeded(0), TestBuffer(2048)) == 0xDD59E2C3A5F038E0 && Hash128(Seeded(0),
          TestBuffer(2048)) == U128(0xDD59E2C3A5F038E0, 0xF736557FD47073A5)
  {
    hide KSecret, TestBuffer, AfterStripes, Accumulate512, Window, MergeAccs, Generator, Mul64;
    Multiplied(2048, PRIME64_1, 0x4F1, 0xBBCD8C2F5E543800);
    Multiplied(2048, PRIME64_2, 0x615, 0x9571E93EA75A7800);
    Block1();
    FinalStripe();
    BlocksFolded();
    BlocksWideFolded();
    ScrambleKeys();
  }
}

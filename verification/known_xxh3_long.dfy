/** The self-test's hash of 403 bytes under a seed: the derived secret, six stripes, the last 64 bytes and
    the folding, worked out lane by lane. */
module KnownXxh3Long {
  import opened Words
  import opened Bits
  import opened LongMultiply
  import opened Xxh3Kernel
  import opened Xxh3Short
  import opened Xxh3Hash
  import opened Xxh3LongReads
  import opened KnownWords
  import opened KnownXxh3

  const SEED := 0x9E3779B185EBCA8D

  function Secret192(): (s: Secret)
    ensures |s| == SECRET_DEFAULT_SIZE
  {
    DerivedSecret(SEED)
  }

  lemma DerivedWord(i: nat, w: u64)
    requires i < 24 && ReadLE64(KSecret(), 8 * i) == w
    ensures ReadLE64(Secret192(), 8 * i) == if i % 2 == 0 then Add64(w, SEED) else Sub64(w, SEED)
  {
    hide KSecret, LE, LEBytes, Add64, Sub64;
    var s := DerivedSecret(SEED)[8 * i..8 * i + 8];
    var lane := SeedLane(i, SEED);
    forall j | 0 <= j < 8 ensures s[j] == LEBytes(lane, 8)[j] {
      assert (8 * i + j) / 8 == i && (8 * i + j) % 8 == j;
    }
    assert s == LEBytes(lane, 8);
    Pow2Values();
    LoadStore(lane, 8);
  }

  lemma LaneIs(acc: Acc, data: seq<byte>, pos: nat, secret: seq<byte>, sp: nat, j: nat, x: u64, d: u64, w: u64, k: u64,
               dk: u64, hi: nat, lo: nat, c: nat, y: u64)
    requires j < ACC_NB && pos + STRIPE_LEN <= |data| && sp + STRIPE_LEN <= |secret| && acc[j] == x
    requires ReadLE64(data, pos + 8 * Neighbour(j)) == d && ReadLE64(data, pos + 8 * j) == w && ReadLE64(secret,
          sp + 8 * j) == k
    requires Xor(w, k) == dk && dk == hi * 0x1_0000_0000 + lo && lo < 0x1_0000_0000
          && x + d + lo * hi == c * 0x1_0000_0000_0000_0000 + y
    ensures Accumulate512(acc, Window(data, pos), Window(secret, sp))[j] == y
  {
    hide Xor, ReadLE64, Accumulate512, Window, And, Pow2;
    LaneOf(acc, data, pos, secret, sp, j);
    Halves(dk);
    ModUnique(dk, W32, hi, lo);
    MultIsProduct(lo, hi);
    Added(x + d, lo * hi, c, y);
  }

  lemma Derived0()
    ensures ReadLE64(Secret192(), 0) == 0x5C831DD4BF58C945
    ensures ReadLE64(Secret192(), 8) == 0x7E75A845A69536EF
    ensures ReadLE64(Secret192(), 16) == 0x79CF0A356F599F6B
    ensures ReadLE64(Secret192(), 24) == 0x81303A061EB875E5
    ensures ReadLE64(Secret192(), 32) == 0x171D3A7DD4D24458
    ensures ReadLE64(Secret192(), 40) == 0x833B861AF7E48FF5
  {
    hide ReadLE64, KSecret, Secret192, Add64, Sub64;
    Secret0();
    DerivedWord(0, 0xBE4BA423396CFEB8);
    Added(0xBE4BA423396CFEB8, SEED, 0x1, 0x5C831DD4BF58C945);
    DerivedWord(1, 0x1CAD21F72C81017C);
    Subtracted(0x1CAD21F72C81017C, SEED, 0x1, 0x7E75A845A69536EF);
    DerivedWord(2, 0xDB979083E96DD4DE);
    Added(0xDB979083E96DD4DE, SEED, 0x1, 0x79CF0A356F599F6B);
    DerivedWord(3, 0x1F67B3B7A4A44072);
    Subtracted(0x1F67B3B7A4A44072, SEED, 0x1, 0x81303A061EB875E5);
    DerivedWord(4, 0x78E5C0CC4EE679CB);
    Added(0x78E5C0CC4EE679CB, SEED, 0x1, 0x171D3A7DD4D24458);
    DerivedWord(5, 0x2172FFCC7DD05A82);
    Subtracted(0x2172FFCC7DD05A82, SEED, 0x1, 0x833B861AF7E48FF5);
  }

  lemma Derived1()
    ensures ReadLE64(Secret192(), 48) == 0x2C5BBDA8FA31D345
    ensures ReadLE64(Secret192(), 56) == 0xADEEC0D060A46B53
    ensures ReadLE64(Secret192(), 64) == 0x69383D43413DF2C9
    ensures ReadLE64(Secret192(), 72) == 0x4F6D96A057A05FB
    ensures ReadLE64(Secret192(), 80) == 0xED3087541D342EFE
    ensures ReadLE64(Secret192(), 88) == 0x3A7564F7C1034EAB
  {
    hide ReadLE64, KSecret, Secret192, Add64, Sub64;
    Secret0();
    Secret1();
    DerivedWord(6, 0x8E2443F7744608B8);
    Added(0x8E2443F7744608B8, SEED, 0x1, 0x2C5BBDA8FA31D345);
    DerivedWord(7, 0x4C263A81E69035E0);
    Subtracted(0x4C263A81E69035E0, SEED, 0x1, 0xADEEC0D060A46B53);
    DerivedWord(8, 0xCB00C391BB52283C);
    Added(0xCB00C391BB52283C, SEED, 0x1, 0x69383D43413DF2C9);
    DerivedWord(9, 0xA32E531B8B65D088);
    Subtracted(0xA32E531B8B65D088, SEED, 0x0, 0x4F6D96A057A05FB);
    DerivedWord(10, 0x4EF90DA297486471);
    Added(0x4EF90DA297486471, SEED, 0x0, 0xED3087541D342EFE);
    DerivedWord(11, 0xD8ACDEA946EF1938);
    Subtracted(0xD8ACDEA946EF1938, SEED, 0x0, 0x3A7564F7C1034EAB);
  }

  lemma Derived2()
    ensures ReadLE64(Secret192(), 96) == 0xDD6C1694C562C535
    ensures ReadLE64(Secret192(), 104) == 0x7F17921641D0126C
    ensures ReadLE64(Secret192(), 112) == 0xCF912E7ED1CC1C17
    ensures ReadLE64(Secret192(), 120) == 0xC63BFF284392D53B
    ensures ReadLE64(Secret192(), 128) == 0x62234CE609989077
    ensures ReadLE64(Secret192(), 136) == 0x4D2B9A4979B4B738
  {
    hide ReadLE64, KSecret, Secret192, Add64, Sub64;
    Secret1();
    Secret2();
    DerivedWord(12, 0x3F349CE33F76FAA8);
    Added(0x3F349CE33F76FAA8, SEED, 0x0, 0xDD6C1694C562C535);
    DerivedWord(13, 0x1D4F0BC7C7BBDCF9);
    Subtracted(0x1D4F0BC7C7BBDCF9, SEED, 0x1, 0x7F17921641D0126C);
    DerivedWord(14, 0x3159B4CD4BE0518A);
    Added(0x3159B4CD4BE0518A, SEED, 0x0, 0xCF912E7ED1CC1C17);
    DerivedWord(15, 0x647378D9C97E9FC8);
    Subtracted(0x647378D9C97E9FC8, SEED, 0x1, 0xC63BFF284392D53B);
    DerivedWord(16, 0xC3EBD33483ACC5EA);
    Added(0xC3EBD33483ACC5EA, SEED, 0x1, 0x62234CE609989077);
    DerivedWord(17, 0xEB6313FAFFA081C5);
    Subtracted(0xEB6313FAFFA081C5, SEED, 0x0, 0x4D2B9A4979B4B738);
  }

  lemma Derived3()
    ensures ReadLE64(Secret192(), 144) == 0xE8126A68D7C8D7A4
    ensures ReadLE64(Secret192(), 152) == 0x315A77A0694C46
    ensures ReadLE64(Secret192(), 160) == 0x9AD8C12EDEA9E0B8
    ensures ReadLE64(Secret192(), 168) == 0x2FFA56C94BCD2E02
    ensures ReadLE64(Secret192(), 176) == 0xC63B9047152695D2
    ensures ReadLE64(Secret192(), 184) == 0xE008D20A45100D22
  {
    hide ReadLE64, KSecret, Secret192, Add64, Sub64;
    Secret2();
    DerivedWord(18, 0x49DAF0B751DD0D17);
    Added(0x49DAF0B751DD0D17, SEED, 0x0, 0xE8126A68D7C8D7A4);
    DerivedWord(19, 0x9E68D429265516D3);
    Subtracted(0x9E68D429265516D3, SEED, 0x0, 0x315A77A0694C46);
    DerivedWord(20, 0xFCA1477D58BE162B);
    Added(0xFCA1477D58BE162B, SEED, 0x1, 0x9AD8C12EDEA9E0B8);
    DerivedWord(21, 0xCE31D07AD1B8F88F);
    Subtracted(0xCE31D07AD1B8F88F, SEED, 0x0, 0x2FFA56C94BCD2E02);
    DerivedWord(22, 0x280416958F3ACB45);
    Added(0x280416958F3ACB45, SEED, 0x0, 0xC63B9047152695D2);
    DerivedWord(23, 0x7E404BBBCAFBD7AF);
    Subtracted(0x7E404BBBCAFBD7AF, SEED, 0x1, 0xE008D20A45100D22);
  }

  lemma FoldKeys()
    ensures ReadLE64(Secret192(), 11) == 0x599F6B7E75A845A6
    ensures ReadLE64(Secret192(), 19) == 0xB875E579CF0A356F
    ensures ReadLE64(Secret192(), 27) == 0xD2445881303A061E
    ensures ReadLE64(Secret192(), 35) == 0xE48FF5171D3A7DD4
    ensures ReadLE64(Secret192(), 43) == 0x31D345833B861AF7
    ensures ReadLE64(Secret192(), 51) == 0xA46B532C5BBDA8FA
    ensures ReadLE64(Secret192(), 59) == 0x3DF2C9ADEEC0D060
    ensures ReadLE64(Secret192(), 67) == 0x7A05FB69383D4341
  {
    hide ReadLE64, Secret192, Pow2;
    assert Pow2(24) == 0x1000000 && Pow2(40) == 0x10000000000 by {
      PowersOfTwo();
    }
    Derived0();
    Derived1();
    Across(Secret192(), 8, 3, 0x1000000, 0x10000000000, 0x7E75A845A6, 0x9536EF, 0x79CF0A356F, 0x599F6B);
    Across(Secret192(), 16, 3, 0x1000000, 0x10000000000, 0x79CF0A356F, 0x599F6B, 0x81303A061E, 0xB875E5);
    Across(Secret192(), 24, 3, 0x1000000, 0x10000000000, 0x81303A061E, 0xB875E5, 0x171D3A7DD4, 0xD24458);
    Across(Secret192(), 32, 3, 0x1000000, 0x10000000000, 0x171D3A7DD4, 0xD24458, 0x833B861AF7, 0xE48FF5);
    Across(Secret192(), 40, 3, 0x1000000, 0x10000000000, 0x833B861AF7, 0xE48FF5, 0x2C5BBDA8FA, 0x31D345);
    Across(Secret192(), 48, 3, 0x1000000, 0x10000000000, 0x2C5BBDA8FA, 0x31D345, 0xADEEC0D060, 0xA46B53);
    Across(Secret192(), 56, 3, 0x1000000, 0x10000000000, 0xADEEC0D060, 0xA46B53, 0x69383D4341, 0x3DF2C9);
    Across(Secret192(), 64, 3, 0x1000000, 0x10000000000, 0x69383D4341, 0x3DF2C9, 0x4F6D96A05, 0x7A05FB);
  }

  lemma WideFoldKeys()
    ensures ReadLE64(Secret192(), 117) == 0x284392D53BCF912E
    ensures ReadLE64(Secret192(), 125) == 0xE609989077C63BFF
    ensures ReadLE64(Secret192(), 133) == 0x4979B4B73862234C
    ensures ReadLE64(Secret192(), 141) == 0x68D7C8D7A44D2B9A
    ensures ReadLE64(Secret192(), 149) == 0x77A0694C46E8126A
    ensures ReadLE64(Secret192(), 157) == 0x2EDEA9E0B800315A
    ensures ReadLE64(Secret192(), 165) == 0xC94BCD2E029AD8C1
    ensures ReadLE64(Secret192(), 173) == 0x47152695D22FFA56
  {
    hide ReadLE64, Secret192, Pow2;
    assert Pow2(40) == 0x10000000000 && Pow2(24) == 0x1000000 by {
      PowersOfTwo();
    }
    Derived2();
    Derived3();
    Across(Secret192(), 112, 5, 0x10000000000, 0x1000000, 0xCF912E, 0x7ED1CC1C17, 0xC63BFF, 0x284392D53B);
    Across(Secret192(), 120, 5, 0x10000000000, 0x1000000, 0xC63BFF, 0x284392D53B, 0x62234C, 0xE609989077);
    Across(Secret192(), 128, 5, 0x10000000000, 0x1000000, 0x62234C, 0xE609989077, 0x4D2B9A, 0x4979B4B738);
    Across(Secret192(), 136, 5, 0x10000000000, 0x1000000, 0x4D2B9A, 0x4979B4B738, 0xE8126A, 0x68D7C8D7A4);
    Across(Secret192(), 144, 5, 0x10000000000, 0x1000000, 0xE8126A, 0x68D7C8D7A4, 0x315A, 0x77A0694C46);
    Across(Secret192(), 152, 5, 0x10000000000, 0x1000000, 0x315A, 0x77A0694C46, 0x9AD8C1, 0x2EDEA9E0B8);
    Across(Secret192(), 160, 5, 0x10000000000, 0x1000000, 0x9AD8C1, 0x2EDEA9E0B8, 0x2FFA56, 0xC94BCD2E02);
    Across(Secret192(), 168, 5, 0x10000000000, 0x1000000, 0x2FFA56, 0xC94BCD2E02, 0xC63B90, 0x47152695D2);
  }

  lemma LastKeys()
    ensures ReadLE64(Secret192(), 121) == 0x77C63BFF284392D5
    ensures ReadLE64(Secret192(), 129) == 0x3862234CE6099890
    ensures ReadLE64(Secret192(), 137) == 0xA44D2B9A4979B4B7
    ensures ReadLE64(Secret192(), 145) == 0x46E8126A68D7C8D7
    ensures ReadLE64(Secret192(), 153) == 0xB800315A77A0694C
    ensures ReadLE64(Secret192(), 161) == 0x29AD8C12EDEA9E0
    ensures ReadLE64(Secret192(), 169) == 0xD22FFA56C94BCD2E
    ensures ReadLE64(Secret192(), 177) == 0x22C63B9047152695
  {
    hide ReadLE64, Secret192, Pow2;
    assert Pow2(8) == 0x100 && Pow2(56) == 0x100000000000000 by {
      PowersOfTwo();
    }
    Derived2();
    Derived3();
    Across(Secret192(), 120, 1, 0x100, 0x100000000000000, 0xC63BFF284392D5, 0x3B, 0x62234CE6099890, 0x77);
    Across(Secret192(), 128, 1, 0x100, 0x100000000000000, 0x62234CE6099890, 0x77, 0x4D2B9A4979B4B7, 0x38);
    Across(Secret192(), 136, 1, 0x100, 0x100000000000000, 0x4D2B9A4979B4B7, 0x38, 0xE8126A68D7C8D7, 0xA4);
    Across(Secret192(), 144, 1, 0x100, 0x100000000000000, 0xE8126A68D7C8D7, 0xA4, 0x315A77A0694C, 0x46);
    Across(Secret192(), 152, 1, 0x100, 0x100000000000000, 0x315A77A0694C, 0x46, 0x9AD8C12EDEA9E0, 0xB8);
    Across(Secret192(), 160, 1, 0x100, 0x100000000000000, 0x9AD8C12EDEA9E0, 0xB8, 0x2FFA56C94BCD2E, 0x2);
    Across(Secret192(), 168, 1, 0x100, 0x100000000000000, 0x2FFA56C94BCD2E, 0x2, 0xC63B9047152695, 0xD2);
    Across(Secret192(), 176, 1, 0x100, 0x100000000000000, 0xC63B9047152695, 0xD2, 0xE008D20A45100D, 0x22);
  }

  lemma Buffer4(n: nat)
    ensures Generator(280) == 0x74494FD5FACE4811
    ensures n >= 232 ==> ReadLE64(TestBuffer(n), 224) == 0xA3F88964EF0D3C4C
    ensures n >= 240 ==> ReadLE64(TestBuffer(n), 232) == 0xC868931CC5E3EE61
    ensures n >= 248 ==> ReadLE64(TestBuffer(n), 240) == 0xA897FF9809D797E5
    ensures n >= 256 ==> ReadLE64(TestBuffer(n), 248) == 0xC82CCDAB79A4EA4C
    ensures n >= 264 ==> ReadLE64(TestBuffer(n), 256) == 0x5082E2CEF1F21B9F
    ensures n >= 272 ==> ReadLE64(TestBuffer(n), 264) == 0x88B4B89B8EAD8238
    ensures n >= 280 ==> ReadLE64(TestBuffer(n), 272) == 0x4865A9D936B68E81
  {
    hide Generator, TestBuffer, ReadLE64;
    Buffer3(n);
    Made(n, 224, 0x4C217CB2C5E17D31, 0x3C5B42844AF59DFD, 0xDFC417C9030A659, 0xEF4012FFBEC0D905, 0x6422F89C0C0C79C1,
          0x8993019A841C594D, 0xF80FF2011CC2F169, 0xA3266446D23ED0D5, 0x6168CF54B9E81751);
    Made(n, 232, 0x6168CF54B9E81751, 0xEE93B0870395C19D, 0xE338EDCD70608579, 0xC5C8DC6E718DFDA5, 0x1C73ECA224CFE5E1,
          0x93455D313C7026ED, 0x6831DBD8A50B7289, 0xC8096E4A40712F75, 0xE5AF683227307571);
    Made(n, 240, 0xE5AF683227307571, 0x9784B92C5616D93D, 0xD738E75C8DFEC899, 0x97A2FE7E1103645, 0x989183166B175601,
          0xFFCC41A4DDA2288D, 0x975CA01980BE97A9, 0xA8693E3B51C7E215, 0x4C953DAA35C31791);
    Made(n, 248, 0x4C953DAA35C31791, 0xEA36CEC1842764DD, 0xA4058C3A4727EFB9, 0x79D5795BDFFA02E5, 0xAB7711AC44334A21,
          0xCDAEC41B3A08DE2D, 0x2CF442784A80E0C9, 0xC8A64C1A7FDD68B5, 0x9FDC2D4748B87DB1);
    Made(n, 256, 0x9FDC2D4748B87DB1, 0x1B355AADF745E47D, 0xF246933907887AD9, 0xF15A697F594DE385, 0xCE4E354499844241,
          0xE28FA2B080CAC7CD, 0x821A7E86DB86CDE9, 0x50DD2651599C4355, 0x386677B5A03927D1);
    Made(n, 264, 0x386677B5A03927D1, 0x821A561E7AC0D81D, 0xADEC7C003A5CE9F9, 0x8EF3C92F9A5E5825, 0x9BC286019A7ABE61,
          0xB84C206D17DE656D, 0xB42F0A215D94DF09, 0x886E9DF96D3EF1F5, 0x81D1E6763B7D95F1);
    Made(n, 272, 0x81D1E6763B7D95F1, 0x8E60A9DFB5B6BFBD, 0xB6A1BCA57C71BD19, 0x36E35E46DCCDE0C5, 0xD94B033ABE973E81,
          0xA9A2DA3EB60A370D, 0x65EC4F259CFF9429, 0x483EFD88724FF495, 0x74494FD5FACE4811);
  }

  lemma Buffer5(n: nat)
    ensures Generator(336) == 0x1024FC4ABA4496F1
    ensures n >= 288 ==> ReadLE64(TestBuffer(n), 280) == 0x2AD8BBFCDBC93C74
    ensures n >= 296 ==> ReadLE64(TestBuffer(n), 288) == 0xAB67B2E224B49E22
    ensures n >= 304 ==> ReadLE64(TestBuffer(n), 296) == 0x1C71FC4D2AE213AA
    ensures n >= 312 ==> ReadLE64(TestBuffer(n), 304) == 0x5D97E2F8BD916207
    ensures n >= 320 ==> ReadLE64(TestBuffer(n), 312) == 0x91B674567FD840C
    ensures n >= 328 ==> ReadLE64(TestBuffer(n), 320) == 0xDA953077A2204B9A
    ensures n >= 336 ==> ReadLE64(TestBuffer(n), 328) == 0xDBE1F29E3F86B128
  {
    hide Generator, TestBuffer, ReadLE64;
    Buffer4(n);
    Made(n, 280, 0x74494FD5FACE4811, 0x3C71144FE5161B5D, 0xC9DDE2940E237439, 0xDBF1510A108EFD65, 0xFC080059076A42A1,
          0xBBCF9E5CBCE4BCAD, 0xD812DABC9AAB6D49, 0x2A556789B3A9CB35, 0x22505EB10183BE31);
    Made(n, 288, 0x22505EB10183BE31, 0x9EC4514FD59D6AFD, 0xB451358A855E8F59, 0x24AD8657E5E42E05, 0xE24B1CA382944AC1,
          0xB23B9C7FD2D4764D, 0x678C297E5E0CEA69, 0xAB16500CB976F5D5, 0xAAB1D48A58067851);
    Made(n, 296, 0xAAB1D48A58067851, 0x131FDD1B1DDB2E9D, 0xE2B9E476BF9F8E79, 0x2AE007C1175FF2A5, 0x4D61B1040BC5D6E1,
          0xFC013254BD0FE3ED, 0x710500B807288B89, 0x1C6478713331F475, 0x71AED7FCDCEF671);
    Made(n, 304, 0x71AED7FCDCEF671, 0x6254E7EF982DE63D, 0x91715CF813F2F199, 0xBDECD7B1F3E4CB45, 0xF8CD1FCC4EBF6701,
          0xE2C42492799D858D, 0x97DC2E1C2092D0A9, 0x5DD6EA3821A54715, 0xC931EA21B65B891);
    Made(n, 312, 0xC931EA21B65B891, 0x84F6ED6C1CC411DD, 0xFD05274FC4F538B9, 0x678374D528A537E5, 0x453B938309517B21,
          0x67F6421B9953DB2D, 0x1B085025317039C9, 0x9BC228240EB6DB5, 0x9AAA183944633EB1);
    Made(n, 320, 0x9AAA183944633EB1, 0x4B2CDF8E7B9C317D, 0x205E7987B2D2E3D9, 0xA286D4D7CB23B885, 0x7752FAC18D5C9341,
          0x30413B92D9D964CD, 0x95EA32728F7546E9, 0xDA26F4E3B26EE855, 0x282AC67D397008D1);
    Made(n, 328, 0x282AC67D397008D1, 0xB180F238B684C51D, 0x863AAD974D4872F9, 0x3F43C3B6A332CD25, 0x9E3B702982D12F61,
          0xF22CE6CAFFA4A26D, 0xE105526770E67809, 0xDB94A134E6EA36F5, 0x1024FC4ABA4496F1);
  }

  lemma Buffer6(n: nat)
    ensures Generator(392) == 0x7877BF1C2997E9D1
    ensures n >= 344 ==> ReadLE64(TestBuffer(n), 336) == 0x62F916DF890DF10
    ensures n >= 352 ==> ReadLE64(TestBuffer(n), 344) == 0xD8DBF6DF5B48B378
    ensures n >= 360 ==> ReadLE64(TestBuffer(n), 352) == 0x24C4089A5AEA77C
    ensures n >= 368 ==> ReadLE64(TestBuffer(n), 360) == 0x957963DD9FF02073
    ensures n >= 376 ==> ReadLE64(TestBuffer(n), 368) == 0x22E02F6F7EC403B1
    ensures n >= 384 ==> ReadLE64(TestBuffer(n), 376) == 0x359D6E66E988D4F6
    ensures n >= 392 ==> ReadLE64(TestBuffer(n), 384) == 0xD5CF1A4F1B41BD19
  {
    hide Generator, TestBuffer, ReadLE64;
    Buffer5(n);
    Made(n, 336, 0x1024FC4ABA4496F1, 0xDF5BD1257B1C4CBD, 0x9068DF4EC5A26619, 0xF8DD59BCB4F4F5C5, 0x6DD1BE7AE9AFCF81,
          0x91693279EFFC140D, 0x2FF149543E984D29, 0x6312D08C867D995, 0x7874845C77A96911);
    Made(n, 344, 0x7874845C77A96911, 0xB31C6733DCD1485D, 0x484A2FD080BD3D39, 0x5BE59F5B0ADCB265, 0xDF0A51D25C08F3A1,
          0xF618BB970AF639AD, 0xDBA9227225EF4649, 0xD82B467024425035, 0x7C5786907576FF31);
    Made(n, 352, 0x7C5786907576FF31, 0xA7715AF24EE237FD, 0xAED68560C9057859, 0xA5777B01BFAC8305, 0x8954A8178FFD1BC1,
          0x404842CCC579934D, 0x4C4D0BF8EADFE369, 0x23FCAB255241AD5, 0x736B7FC1AC95D951);
    Made(n, 360, 0x736B7FC1AC95D951, 0x20310150DE5D9B9D, 0xF0CB1753C0779779, 0x9F6AAA224876E7A5, 0xDD4333A419BCC7E1,
          0x631C2D65833CA0ED, 0x799B5B96F9EEA489, 0x957A80A32D07B975, 0xB14B7BBDECFE7771);
    Made(n, 368, 0xB14B7BBDECFE7771, 0x35BC462AC21F33D, 0xC40EAEE192A01A99, 0x7E76CB82FE9E6045, 0x6F5FA42A6D887801,
          0x2F5BCA1BB0C5E28D, 0xE07B8793BA3009A9, 0x2271AB3E1F37AC15, 0xF64FD1DFFFB95991);
    Made(n, 376, 0xF64FD1DFFFB95991, 0xD4AFD916A6DDBEDD, 0x88A53EA8E69B81B9, 0xE9E3660BE9D56CE5, 0x666BAAE521B0AC21,
          0x6E963F351D6BD82D, 0x9D147EE41F4892C9, 0x35D0CE2EAA4E72B5, 0x195B55D608DEFFB1);
    Made(n, 384, 0x195B55D608DEFFB1, 0xBD2F9BCF850F7E7D, 0x41254BA791164CD9, 0x1BCC5C34CA1E8D85, 0x4F5E90167095E441,
          0x1A5AD451955501CD, 0xCFB3B3797B6CBFE9, 0xD53052EE02368D55, 0x7877BF1C2997E9D1);
  }

  lemma Buffer7(n: nat)
    ensures Generator(408) == 0x76C52B9CB3B58A11
    ensures n >= 400 ==> ReadLE64(TestBuffer(n), 392) == 0x8D8F1FF04900B078
    ensures n >= 408 ==> ReadLE64(TestBuffer(n), 400) == 0x53C46D94B5BC14F6
  {
    hide Generator, TestBuffer, ReadLE64;
    Buffer6(n);
    Made(n, 392, 0x7877BF1C2997E9D1, 0xB0AA08C2FF05B21D, 0x699B71864CFBF9, 0x49A0613C61CC4225, 0xF0BC50DFFAA8A061,
          0x1F99B754BB77DF6D, 0x8F67331291611109, 0x8DCFB21DFA2A7BF5, 0xF606FAB3621C97F1);
    Made(n, 400, 0xF606FAB3621C97F1, 0x14AA820848DED9BD, 0xBC94B46E0C0C0F19, 0xB565CA50FF810AC5, 0x946F7D7AC8696081,
          0x6D6F68D3239AF10D, 0xC43F53D6E67A0629, 0x532259C92EB4BE95, 0x76C52B9CB3B58A11);
  }

  lemma LastBytes0()
    ensures ReadLE64(TestBuffer(403), 339) == 0x48B378062F916DF8
    ensures ReadLE64(TestBuffer(403), 347) == 0xAEA77CD8DBF6DF5B
    ensures ReadLE64(TestBuffer(403), 355) == 0xF02073024C4089A5
    ensures ReadLE64(TestBuffer(403), 363) == 0xC403B1957963DD9F
  {
    hide Generator, ReadLE64, TestBuffer, Pow2;
    assert Pow2(24) == 0x1000000 && Pow2(40) == 0x10000000000 by {
      PowersOfTwo();
    }
    Buffer6(408);
    Across(TestBuffer(408), 336, 3, 0x1000000, 0x10000000000, 0x62F916DF8, 0x90DF10, 0xD8DBF6DF5B, 0x48B378);
    Shorter(403, 408, 339);
    Across(TestBuffer(408), 344, 3, 0x1000000, 0x10000000000, 0xD8DBF6DF5B, 0x48B378, 0x24C4089A5, 0xAEA77C);
    Shorter(403, 408, 347);
    Across(TestBuffer(408), 352, 3, 0x1000000, 0x10000000000, 0x24C4089A5, 0xAEA77C, 0x957963DD9F, 0xF02073);
    Shorter(403, 408, 355);
    Across(TestBuffer(408), 360, 3, 0x1000000, 0x10000000000, 0x957963DD9F, 0xF02073, 0x22E02F6F7E, 0xC403B1);
    Shorter(403, 408, 363);
  }

  lemma LastBytes1()
    ensures ReadLE64(TestBuffer(403), 371) == 0x88D4F622E02F6F7E
    ensures ReadLE64(TestBuffer(403), 379) == 0x41BD19359D6E66E9
    ensures ReadLE64(TestBuffer(403), 387) == 0xB078D5CF1A4F1B
    ensures ReadLE64(TestBuffer(403), 395) == 0xBC14F68D8F1FF049
  {
    hide Generator, ReadLE64, TestBuffer, Pow2;
    assert Pow2(24) == 0x1000000 && Pow2(40) == 0x10000000000 by {
      PowersOfTwo();
    }
    Buffer6(408);
    Buffer7(408);
    Across(TestBuffer(408), 368, 3, 0x1000000, 0x10000000000, 0x22E02F6F7E, 0xC403B1, 0x359D6E66E9, 0x88D4F6);
    Shorter(403, 408, 371);
    Across(TestBuffer(408), 376, 3, 0x1000000, 0x10000000000, 0x359D6E66E9, 0x88D4F6, 0xD5CF1A4F1B, 0x41BD19);
    Shorter(403, 408, 379);
    Across(TestBuffer(408), 384, 3, 0x1000000, 0x10000000000, 0xD5CF1A4F1B, 0x41BD19, 0x8D8F1FF049, 0xB078);
    Shorter(403, 408, 387);
    Across(TestBuffer(408), 392, 3, 0x1000000, 0x10000000000, 0x8D8F1FF049, 0xB078, 0x53C46D94B5, 0xBC14F6);
    Shorter(403, 408, 395);
  }

  lemma Stripe0Low()
    ensures var acc := Accumulate512([0xC2B2AE3D, 0x9E3779B185EBCA87, 0xC2B2AE3D27D4EB4F, 0x165667B19E3779F9,
          0x85EBCA77C2B2AE63, 0x85EBCA77, 0x27D4EB2F165667C5, 0x9E3779B1], Window(TestBuffer(403), 0),
          Window(Secret192(), 0));
            acc[0] == 0xA4FC84FA85DD6519 && acc[1] == 0xF270A4630D71AF5D && acc[2] == 0xEA13F2B394E86B1A
                  && acc[3] == 0x4C5002AB2A8F3028
  {
    hide Xor, Generator, ReadLE64, TestBuffer, Secret192, Accumulate512, Window;
    var acc: Acc := [0xC2B2AE3D, 0x9E3779B185EBCA87, 0xC2B2AE3D27D4EB4F, 0x165667B19E3779F9, 0x85EBCA77C2B2AE63,
          0x85EBCA77, 0x27D4EB2F165667C5, 0x9E3779B1];
    var input, secret := TestBuffer(403), Secret192();
    Buffer0(403);
    Derived0();
    XorIs(0x24, 0xa3, 0x32, 0xb7, 0x9b, 0x92, 0x52, 0x00, 0x5c, 0x83, 0x1d, 0xd4, 0xbf, 0x58, 0xc9, 0x45);
    LaneIs(acc, input, 0, secret, 0, 0, 0xC2B2AE3D, 0x93B8EC0E95AF002D, 0x24A332B79B925200, 0x5C831DD4BF58C945,
          0x78202F6324CA9B45, 0x78202F63, 0x24CA9B45, 0x0, 0xA4FC84FA85DD6519);
    XorIs(0x93, 0xb8, 0xec, 0x0e, 0x95, 0xaf, 0x00, 0x2d, 0x7e, 0x75, 0xa8, 0x45, 0xa6, 0x95, 0x36, 0xef);
    LaneIs(acc, input, 0, secret, 0, 1, 0x9E3779B185EBCA87, 0x24A332B79B925200, 0x93B8EC0E95AF002D,
          0x7E75A845A69536EF, 0xEDCD444B333A36C2, 0xEDCD444B, 0x333A36C2, 0x0, 0xF270A4630D71AF5D);
    XorIs(0x2a, 0xcd, 0xd6, 0xaa, 0x93, 0xef, 0xdf, 0xe3, 0x79, 0xcf, 0x0a, 0x35, 0x6f, 0x59, 0x9f, 0x6b);
    LaneIs(acc, input, 0, secret, 0, 2, 0xC2B2AE3D27D4EB4F, 0xD56F5A543F5C8B53, 0x2ACDD6AA93EFDFE3,
          0x79CF0A356F599F6B, 0x5302DC9FFCB64088, 0x5302DC9F, 0xFCB64088, 0x1, 0xEA13F2B394E86B1A);
    XorIs(0xd5, 0x6f, 0x5a, 0x54, 0x3f, 0x5c, 0x8b, 0x53, 0x81, 0x30, 0x3a, 0x06, 0x1e, 0xb8, 0x75, 0xe5);
    LaneIs(acc, input, 0, secret, 0, 3, 0x165667B19E3779F9, 0x2ACDD6AA93EFDFE3, 0xD56F5A543F5C8B53,
          0x81303A061EB875E5, 0x545F605221E4FEB6, 0x545F6052, 0x21E4FEB6, 0x0, 0x4C5002AB2A8F3028);
  }

  lemma Stripe0High()
    ensures var acc := Accumulate512([0xC2B2AE3D, 0x9E3779B185EBCA87, 0xC2B2AE3D27D4EB4F, 0x165667B19E3779F9,
          0x85EBCA77C2B2AE63, 0x85EBCA77, 0x27D4EB2F165667C5, 0x9E3779B1], Window(TestBuffer(403), 0),
          Window(Secret192(), 0));
            acc[4] == 0xB33F12075F4EE172 && acc[5] == 0x34163C177EE70EB0 && acc[6] == 0x2A0F062E37D7B028
                  && acc[7] == 0x9D646DF53909BD6A
  {
    hide Xor, Generator, ReadLE64, TestBuffer, Secret192, Accumulate512, Window;
    var acc: Acc := [0xC2B2AE3D, 0x9E3779B185EBCA87, 0xC2B2AE3D27D4EB4F, 0x165667B19E3779F9, 0x85EBCA77C2B2AE63,
          0x85EBCA77, 0x27D4EB2F165667C5, 0x9E3779B1];
    var input, secret := TestBuffer(403), Secret192();
    Buffer0(403);
    Buffer1(403);
    Derived0();
    Derived1();
    XorIs(0x33, 0xb9, 0x85, 0x8f, 0xfc, 0xff, 0xc0, 0x59, 0x17, 0x1d, 0x3a, 0x7d, 0xd4, 0xd2, 0x44, 0x58);
    LaneIs(acc, input, 0, secret, 0, 4, 0x85EBCA77C2B2AE63, 0x279305B6F774AB1D, 0x33B9858FFCFFC059,
          0x171D3A7DD4D24458, 0x24A4BFF2282D8401, 0x24A4BFF2, 0x282D8401, 0x0, 0xB33F12075F4EE172);
    XorIs(0x27, 0x93, 0x05, 0xb6, 0xf7, 0x74, 0xab, 0x1d, 0x83, 0x3b, 0x86, 0x1a, 0xf7, 0xe4, 0x8f, 0xf5);
    LaneIs(acc, input, 0, secret, 0, 5, 0x85EBCA77, 0x33B9858FFCFFC059, 0x279305B6F774AB1D, 0x833B861AF7E48FF5,
          0xA4A883AC009024E8, 0xA4A883AC, 0x9024E8, 0x0, 0x34163C177EE70EB0);
    XorIs(0x76, 0x9f, 0x7c, 0x67, 0xb3, 0x84, 0x70, 0xb0, 0x2c, 0x5b, 0xbd, 0xa8, 0xfa, 0x31, 0xd3, 0x45);
    LaneIs(acc, input, 0, secret, 0, 6, 0x27D4EB2F165667C5, 0xE817987BED720048, 0x769F7C67B38470B0,
          0x2C5BBDA8FA31D345, 0x5AC4C1CF49B5A3F5, 0x5AC4C1CF, 0x49B5A3F5, 0x1, 0x2A0F062E37D7B028);
    XorIs(0xe8, 0x17, 0x98, 0x7b, 0xed, 0x72, 0x00, 0x48, 0xad, 0xee, 0xc0, 0xd0, 0x60, 0xa4, 0x6b, 0x53);
    LaneIs(acc, input, 0, secret, 0, 7, 0x9E3779B1, 0x769F7C67B38470B0, 0xE817987BED720048, 0xADEEC0D060A46B53,
          0x45F958AB8DD66B1B, 0x45F958AB, 0x8DD66B1B, 0x0, 0x9D646DF53909BD6A);
  }

  lemma Stripe0()
    ensures Accumulate512([0xC2B2AE3D, 0x9E3779B185EBCA87, 0xC2B2AE3D27D4EB4F, 0x165667B19E3779F9,
          0x85EBCA77C2B2AE63, 0x85EBCA77, 0x27D4EB2F165667C5, 0x9E3779B1], Window(TestBuffer(403), 0),
          Window(Secret192(), 0)) ==
            [0xA4FC84FA85DD6519, 0xF270A4630D71AF5D, 0xEA13F2B394E86B1A, 0x4C5002AB2A8F3028, 0xB33F12075F4EE172,
                  0x34163C177EE70EB0, 0x2A0F062E37D7B028, 0x9D646DF53909BD6A]
  {
    hide Xor, Generator, ReadLE64, TestBuffer, Secret192, Accumulate512, Window;
    Stripe0Low();
    Stripe0High();
  }

  lemma Stripe1Low()
    ensures var acc := Accumulate512([0xA4FC84FA85DD6519, 0xF270A4630D71AF5D, 0xEA13F2B394E86B1A, 0x4C5002AB2A8F3028,
          0xB33F12075F4EE172, 0x34163C177EE70EB0, 0x2A0F062E37D7B028, 0x9D646DF53909BD6A], Window(TestBuffer(403),
          64), Window(Secret192(), 8));
            acc[0] == 0x9FDB02C1179E649A && acc[1] == 0xD836803C3CF0140A && acc[2] == 0x15F5F6FDEA13BD36
                  && acc[3] == 0x21D8A67CEFABD70D
  {
    hide Xor, Generator, ReadLE64, TestBuffer, Secret192, Accumulate512, Window;
    var acc: Acc := [0xA4FC84FA85DD6519, 0xF270A4630D71AF5D, 0xEA13F2B394E86B1A, 0x4C5002AB2A8F3028,
          0xB33F12075F4EE172, 0x34163C177EE70EB0, 0x2A0F062E37D7B028, 0x9D646DF53909BD6A];
    var input, secret := TestBuffer(403), Secret192();
    Buffer1(403);
    Derived0();
    XorIs(0x65, 0xd0, 0xcb, 0x0c, 0x0c, 0x5e, 0x48, 0xdd, 0x7e, 0x75, 0xa8, 0x45, 0xa6, 0x95, 0x36, 0xef);
    LaneIs(acc, input, 64, secret, 8, 0, 0xA4FC84FA85DD6519, 0xE86CB0118FB2AD3F, 0x65D0CB0C0C5E48DD,
          0x7E75A845A69536EF, 0x1BA56349AACB7E32, 0x1BA56349, 0xAACB7E32, 0x1, 0x9FDB02C1179E649A);
    XorIs(0xe8, 0x6c, 0xb0, 0x11, 0x8f, 0xb2, 0xad, 0x3f, 0x79, 0xcf, 0x0a, 0x35, 0x6f, 0x59, 0x9f, 0x6b);
    LaneIs(acc, input, 64, secret, 8, 1, 0xF270A4630D71AF5D, 0x65D0CB0C0C5E48DD, 0xE86CB0118FB2AD3F,
          0x79CF0A356F599F6B, 0x91A3BA24E0EB3254, 0x91A3BA24, 0xE0EB3254, 0x1, 0xD836803C3CF0140A);
    XorIs(0x56, 0x59, 0x61, 0x08, 0x86, 0xf1, 0xb0, 0x8d, 0x81, 0x30, 0x3a, 0x06, 0x1e, 0xb8, 0x75, 0xe5);
    LaneIs(acc, input, 64, secret, 8, 2, 0xEA13F2B394E86B1A, 0xABBD6313784E8E6C, 0x5659610886F1B08D,
          0x81303A061EB875E5, 0xD7695B0E9849C568, 0xD7695B0E, 0x9849C568, 0x2, 0x15F5F6FDEA13BD36);
    XorIs(0xab, 0xbd, 0x63, 0x13, 0x78, 0x4e, 0x8e, 0x6c, 0x17, 0x1d, 0x3a, 0x7d, 0xd4, 0xd2, 0x44, 0x58);
    LaneIs(acc, input, 64, secret, 8, 3, 0x4C5002AB2A8F3028, 0x5659610886F1B08D, 0xABBD6313784E8E6C,
          0x171D3A7DD4D24458, 0xBCA0596EAC9CCA34, 0xBCA0596E, 0xAC9CCA34, 0x1, 0x21D8A67CEFABD70D);
  }

  lemma Stripe1High()
    ensures var acc := Accumulate512([0xA4FC84FA85DD6519, 0xF270A4630D71AF5D, 0xEA13F2B394E86B1A, 0x4C5002AB2A8F3028,
          0xB33F12075F4EE172, 0x34163C177EE70EB0, 0x2A0F062E37D7B028, 0x9D646DF53909BD6A], Window(TestBuffer(403),
          64), Window(Secret192(), 8));
            acc[4] == 0xF6A5CFD6C1C5686C && acc[5] == 0x154A84EE06C4BE6B && acc[6] == 0x9072871FA3B05396
                  && acc[7] == 0x7465FE93128D55AE
  {
    hide Xor, Generator, ReadLE64, TestBuffer, Secret192, Accumulate512, Window;
    var acc: Acc := [0xA4FC84FA85DD6519, 0xF270A4630D71AF5D, 0xEA13F2B394E86B1A, 0x4C5002AB2A8F3028,
          0xB33F12075F4EE172, 0x34163C177EE70EB0, 0x2A0F062E37D7B028, 0x9D646DF53909BD6A];
    var input, secret := TestBuffer(403), Secret192();
    Buffer1(403);
    Buffer2(403);
    Derived0();
    Derived1();
    XorIs(0xd9, 0x2f, 0x71, 0xea, 0x09, 0x73, 0x32, 0x9d, 0x83, 0x3b, 0x86, 0x1a, 0xf7, 0xe4, 0x8f, 0xf5);
    LaneIs(acc, input, 64, secret, 8, 4, 0xB33F12075F4EE172, 0xE9D08ACAF0559D7A, 0xD92F71EA0973329D,
          0x833B861AF7E48FF5, 0x5A14F7F0FE97BD68, 0x5A14F7F0, 0xFE97BD68, 0x1, 0xF6A5CFD6C1C5686C);
    XorIs(0xe9, 0xd0, 0x8a, 0xca, 0xf0, 0x55, 0x9d, 0x7a, 0x2c, 0x5b, 0xbd, 0xa8, 0xfa, 0x31, 0xd3, 0x45);
    LaneIs(acc, input, 64, secret, 8, 5, 0x34163C177EE70EB0, 0xD92F71EA0973329D, 0xE9D08ACAF0559D7A,
          0x2C5BBDA8FA31D345, 0xC58B37620A644E3F, 0xC58B3762, 0xA644E3F, 0x1, 0x154A84EE06C4BE6B);
    XorIs(0x51, 0xca, 0x0f, 0x6b, 0xb3, 0x36, 0x1a, 0x5e, 0xad, 0xee, 0xc0, 0xd0, 0x60, 0xa4, 0x6b, 0x53);
    LaneIs(acc, input, 64, secret, 8, 6, 0x2A0F062E37D7B028, 0x9600ED62C4A28BEF, 0x51CA0F6BB3361A5E,
          0xADEEC0D060A46B53, 0xFC24CFBBD392710D, 0xFC24CFBB, 0xD392710D, 0x1, 0x9072871FA3B05396);
    XorIs(0x96, 0x00, 0xed, 0x62, 0xc4, 0xa2, 0x8b, 0xef, 0x69, 0x38, 0x3d, 0x43, 0x41, 0x3d, 0xf2, 0xc9);
    LaneIs(acc, input, 64, secret, 8, 7, 0x9D646DF53909BD6A, 0x51CA0F6BB3361A5E, 0x9600ED62C4A28BEF,
          0x69383D43413DF2C9, 0xFF38D021859F7926, 0xFF38D021, 0x859F7926, 0x1, 0x7465FE93128D55AE);
  }

  lemma Stripe1()
    ensures Accumulate512([0xA4FC84FA85DD6519, 0xF270A4630D71AF5D, 0xEA13F2B394E86B1A, 0x4C5002AB2A8F3028,
          0xB33F12075F4EE172, 0x34163C177EE70EB0, 0x2A0F062E37D7B028, 0x9D646DF53909BD6A], Window(TestBuffer(403),
          64), Window(Secret192(), 8)) ==
            [0x9FDB02C1179E649A, 0xD836803C3CF0140A, 0x15F5F6FDEA13BD36, 0x21D8A67CEFABD70D, 0xF6A5CFD6C1C5686C,
                  0x154A84EE06C4BE6B, 0x9072871FA3B05396, 0x7465FE93128D55AE]
  {
    hide Xor, Generator, ReadLE64, TestBuffer, Secret192, Accumulate512, Window;
    Stripe1Low();
    Stripe1High();
  }

  lemma Stripe2Low()
    ensures var acc := Accumulate512([0x9FDB02C1179E649A, 0xD836803C3CF0140A, 0x15F5F6FDEA13BD36, 0x21D8A67CEFABD70D,
          0xF6A5CFD6C1C5686C, 0x154A84EE06C4BE6B, 0x9072871FA3B05396, 0x7465FE93128D55AE], Window(TestBuffer(403),
          128), Window(Secret192(), 16));
            acc[0] == 0xE8D28EEC3673F6AB && acc[1] == 0xA6C60143A56262AD && acc[2] == 0xF9573958F7702C45
                  && acc[3] == 0xC50009A21224D2C2
  {
    hide Xor, Generator, ReadLE64, TestBuffer, Secret192, Accumulate512, Window;
    var acc: Acc := [0x9FDB02C1179E649A, 0xD836803C3CF0140A, 0x15F5F6FDEA13BD36, 0x21D8A67CEFABD70D,
          0xF6A5CFD6C1C5686C, 0x154A84EE06C4BE6B, 0x9072871FA3B05396, 0x7465FE93128D55AE];
    var input, secret := TestBuffer(403), Secret192();
    Buffer2(403);
    Derived0();
    XorIs(0x92, 0x3b, 0xd1, 0x0f, 0xeb, 0x49, 0x34, 0xf3, 0x79, 0xcf, 0x0a, 0x35, 0x6f, 0x59, 0x9f, 0x6b);
    LaneIs(acc, input, 128, secret, 16, 0, 0x9FDB02C1179E649A, 0xCF3DEDAADB63A9A1, 0x923BD10FEB4934F3,
          0x79CF0A356F599F6B, 0xEBF4DB3A8410AB98, 0xEBF4DB3A, 0x8410AB98, 0x1, 0xE8D28EEC3673F6AB);
    XorIs(0xcf, 0x3d, 0xed, 0xaa, 0xdb, 0x63, 0xa9, 0xa1, 0x81, 0x30, 0x3a, 0x06, 0x1e, 0xb8, 0x75, 0xe5);
    LaneIs(acc, input, 128, secret, 16, 1, 0xD836803C3CF0140A, 0x923BD10FEB4934F3, 0xCF3DEDAADB63A9A1,
          0x81303A061EB875E5, 0x4E0DD7ACC5DBDC44, 0x4E0DD7AC, 0xC5DBDC44, 0x1, 0xA6C60143A56262AD);
    XorIs(0xa2, 0x21, 0xb3, 0xf9, 0xcd, 0x42, 0x09, 0xf1, 0x17, 0x1d, 0x3a, 0x7d, 0xd4, 0xd2, 0x44, 0x58);
    LaneIs(acc, input, 128, secret, 16, 2, 0x15F5F6FDEA13BD36, 0xD1482FE4F4C8F2EB, 0xA221B3F9CD4209F1,
          0x171D3A7DD4D24458, 0xB53C898419904DA9, 0xB53C8984, 0x19904DA9, 0x0, 0xF9573958F7702C45);
    XorIs(0xd1, 0x48, 0x2f, 0xe4, 0xf4, 0xc8, 0xf2, 0xeb, 0x83, 0x3b, 0x86, 0x1a, 0xf7, 0xe4, 0x8f, 0xf5);
    LaneIs(acc, input, 128, secret, 16, 3, 0x21D8A67CEFABD70D, 0xA221B3F9CD4209F1, 0xD1482FE4F4C8F2EB,
          0x833B861AF7E48FF5, 0x5273A9FE032C7D1E, 0x5273A9FE, 0x32C7D1E, 0x0, 0xC50009A21224D2C2);
  }

  lemma Stripe2High()
    ensures var acc := Accumulate512([0x9FDB02C1179E649A, 0xD836803C3CF0140A, 0x15F5F6FDEA13BD36, 0x21D8A67CEFABD70D,
          0xF6A5CFD6C1C5686C, 0x154A84EE06C4BE6B, 0x9072871FA3B05396, 0x7465FE93128D55AE], Window(TestBuffer(403),
          128), Window(Secret192(), 16));
            acc[4] == 0x1BCB7A249CB42803 && acc[5] == 0xC8EAEEC6595476EE && acc[6] == 0x879F577A6BB5B19C
                  && acc[7] == 0x6F322FF963CCEA29
  {
    hide Xor, Generator, ReadLE64, TestBuffer, Secret192, Accumulate512, Window;
    var acc: Acc := [0x9FDB02C1179E649A, 0xD836803C3CF0140A, 0x15F5F6FDEA13BD36, 0x21D8A67CEFABD70D,
          0xF6A5CFD6C1C5686C, 0x154A84EE06C4BE6B, 0x9072871FA3B05396, 0x7465FE93128D55AE];
    var input, secret := TestBuffer(403), Secret192();
    Buffer2(403);
    Buffer3(403);
    Derived1();
    XorIs(0x4a, 0xf8, 0xec, 0xef, 0xc2, 0xf4, 0x10, 0x4b, 0x2c, 0x5b, 0xbd, 0xa8, 0xfa, 0x31, 0xd3, 0x45);
    LaneIs(acc, input, 128, secret, 16, 4, 0xF6A5CFD6C1C5686C, 0xE62A6A4C37438B5, 0x4AF8ECEFC2F4104B,
          0x2C5BBDA8FA31D345, 0x66A3514738C5C30E, 0x66A35147, 0x38C5C30E, 0x1, 0x1BCB7A249CB42803);
    XorIs(0x0e, 0x62, 0xa6, 0xa4, 0xc3, 0x74, 0x38, 0xb5, 0xad, 0xee, 0xc0, 0xd0, 0x60, 0xa4, 0x6b, 0x53);
    LaneIs(acc, input, 128, secret, 16, 5, 0x154A84EE06C4BE6B, 0x4AF8ECEFC2F4104B, 0xE62A6A4C37438B5,
          0xADEEC0D060A46B53, 0xA38C6674A3D053E6, 0xA38C6674, 0xA3D053E6, 0x0, 0xC8EAEEC6595476EE);
    XorIs(0x98, 0x86, 0xe3, 0x41, 0x37, 0x63, 0xfd, 0xbf, 0x69, 0x38, 0x3d, 0x43, 0x41, 0x3d, 0xf2, 0xc9);
    LaneIs(acc, input, 128, secret, 16, 6, 0x9072871FA3B05396, 0x87660356BA4CEB1A, 0x9886E3413763FDBF,
          0x69383D43413DF2C9, 0xF1BEDE02765E0F76, 0xF1BEDE02, 0x765E0F76, 0x1, 0x879F577A6BB5B19C);
    XorIs(0x87, 0x66, 0x03, 0x56, 0xba, 0x4c, 0xeb, 0x1a, 0x04, 0xf6, 0xd9, 0x6a, 0x05, 0x7a, 0x05, 0xfb);
    LaneIs(acc, input, 128, secret, 16, 7, 0x7465FE93128D55AE, 0x9886E3413763FDBF, 0x87660356BA4CEB1A,
          0x4F6D96A057A05FB, 0x8390DA3CBF36EEE1, 0x8390DA3C, 0xBF36EEE1, 0x1, 0x6F322FF963CCEA29);
  }

  lemma Stripe2()
    ensures Accumulate512([0x9FDB02C1179E649A, 0xD836803C3CF0140A, 0x15F5F6FDEA13BD36, 0x21D8A67CEFABD70D,
          0xF6A5CFD6C1C5686C, 0x154A84EE06C4BE6B, 0x9072871FA3B05396, 0x7465FE93128D55AE], Window(TestBuffer(403),
          128), Window(Secret192(), 16)) ==
            [0xE8D28EEC3673F6AB, 0xA6C60143A56262AD, 0xF9573958F7702C45, 0xC50009A21224D2C2, 0x1BCB7A249CB42803,
                  0xC8EAEEC6595476EE, 0x879F577A6BB5B19C, 0x6F322FF963CCEA29]
  {
    hide Xor, Generator, ReadLE64, TestBuffer, Secret192, Accumulate512, Window;
    Stripe2Low();
    Stripe2High();
  }

  lemma Stripe3Low()
    ensures var acc := Accumulate512([0xE8D28EEC3673F6AB, 0xA6C60143A56262AD, 0xF9573958F7702C45, 0xC50009A21224D2C2,
          0x1BCB7A249CB42803, 0xC8EAEEC6595476EE, 0x879F577A6BB5B19C, 0x6F322FF963CCEA29], Window(TestBuffer(403),
          192), Window(Secret192(), 24));
            acc[0] == 0x8064C281486450A6 && acc[1] == 0xB178243E84B243F6 && acc[2] == 0xB31EFB988DEE6B9D
                  && acc[3] == 0x8775816B13B62EAA
  {
    hide Xor, Generator, ReadLE64, TestBuffer, Secret192, Accumulate512, Window;
    var acc: Acc := [0xE8D28EEC3673F6AB, 0xA6C60143A56262AD, 0xF9573958F7702C45, 0xC50009A21224D2C2,
          0x1BCB7A249CB42803, 0xC8EAEEC6595476EE, 0x879F577A6BB5B19C, 0x6F322FF963CCEA29];
    var input, secret := TestBuffer(403), Secret192();
    Buffer3(403);
    Derived0();
    Derived1();
    XorIs(0xb6, 0x44, 0x85, 0xc1, 0x59, 0x45, 0x00, 0xed, 0x81, 0x30, 0x3a, 0x06, 0x1e, 0xb8, 0x75, 0xe5);
    LaneIs(acc, input, 192, secret, 24, 0, 0xE8D28EEC3673F6AB, 0x87F9EAA941F968C3, 0xB64485C1594500ED,
          0x81303A061EB875E5, 0x3774BFC747FD7508, 0x3774BFC7, 0x47FD7508, 0x1, 0x8064C281486450A6);
    XorIs(0x87, 0xf9, 0xea, 0xa9, 0x41, 0xf9, 0x68, 0xc3, 0x17, 0x1d, 0x3a, 0x7d, 0xd4, 0xd2, 0x44, 0x58);
    LaneIs(acc, input, 192, secret, 24, 1, 0xA6C60143A56262AD, 0xB64485C1594500ED, 0x87F9EAA941F968C3,
          0x171D3A7DD4D24458, 0x90E4D0D4952B2C9B, 0x90E4D0D4, 0x952B2C9B, 0x1, 0xB178243E84B243F6);
    XorIs(0x48, 0x54, 0x14, 0xd5, 0xd0, 0x12, 0x9f, 0xe0, 0x83, 0x3b, 0x86, 0x1a, 0xf7, 0xe4, 0x8f, 0xf5);
    LaneIs(acc, input, 192, secret, 24, 2, 0xF9573958F7702C45, 0x9A0638E35140445D, 0x485414D5D0129FE0,
          0x833B861AF7E48FF5, 0xCB6F92CF27F61015, 0xCB6F92CF, 0x27F61015, 0x1, 0xB31EFB988DEE6B9D);
    XorIs(0x9a, 0x06, 0x38, 0xe3, 0x51, 0x40, 0x44, 0x5d, 0x2c, 0x5b, 0xbd, 0xa8, 0xfa, 0x31, 0xd3, 0x45);
    LaneIs(acc, input, 192, secret, 24, 3, 0xC50009A21224D2C2, 0x485414D5D0129FE0, 0x9A0638E35140445D,
          0x2C5BBDA8FA31D345, 0xB65D854BAB719718, 0xB65D854B, 0xAB719718, 0x1, 0x8775816B13B62EAA);
  }

  lemma Stripe3High()
    ensures var acc := Accumulate512([0xE8D28EEC3673F6AB, 0xA6C60143A56262AD, 0xF9573958F7702C45, 0xC50009A21224D2C2,
          0x1BCB7A249CB42803, 0xC8EAEEC6595476EE, 0x879F577A6BB5B19C, 0x6F322FF963CCEA29], Window(TestBuffer(403),
          192), Window(Secret192(), 24));
            acc[4] == 0xEC1BD1EEDE2B2F30 && acc[5] == 0xC09D081A2AC88592 && acc[6] == 0x585593042A7D3044
                  && acc[7] == 0x265E394AB02BE35C
  {
    hide Xor, Generator, ReadLE64, TestBuffer, Secret192, Accumulate512, Window;
    var acc: Acc := [0xE8D28EEC3673F6AB, 0xA6C60143A56262AD, 0xF9573958F7702C45, 0xC50009A21224D2C2,
          0x1BCB7A249CB42803, 0xC8EAEEC6595476EE, 0x879F577A6BB5B19C, 0x6F322FF963CCEA29];
    var input, secret := TestBuffer(403), Secret192();
    Buffer4(403);
    Derived1();
    XorIs(0xa3, 0xf8, 0x89, 0x64, 0xef, 0x0d, 0x3c, 0x4c, 0xad, 0xee, 0xc0, 0xd0, 0x60, 0xa4, 0x6b, 0x53);
    LaneIs(acc, input, 192, secret, 24, 4, 0x1BCB7A249CB42803, 0xC868931CC5E3EE61, 0xA3F88964EF0D3C4C,
          0xADEEC0D060A46B53, 0xE1649B48FA9571F, 0xE1649B4, 0x8FA9571F, 0x0, 0xEC1BD1EEDE2B2F30);
    XorIs(0xc8, 0x68, 0x93, 0x1c, 0xc5, 0xe3, 0xee, 0x61, 0x69, 0x38, 0x3d, 0x43, 0x41, 0x3d, 0xf2, 0xc9);
    LaneIs(acc, input, 192, secret, 24, 5, 0xC8EAEEC6595476EE, 0xA3F88964EF0D3C4C, 0xC868931CC5E3EE61,
          0x69383D43413DF2C9, 0xA150AE5F84DE1CA8, 0xA150AE5F, 0x84DE1CA8, 0x1, 0xC09D081A2AC88592);
    XorIs(0xa8, 0x97, 0xff, 0x98, 0x09, 0xd7, 0x97, 0xe5, 0x04, 0xf6, 0xd9, 0x6a, 0x05, 0x7a, 0x05, 0xfb);
    LaneIs(acc, input, 192, secret, 24, 6, 0x879F577A6BB5B19C, 0xC82CCDAB79A4EA4C, 0xA897FF9809D797E5,
          0x4F6D96A057A05FB, 0xAC6126F20CAD921E, 0xAC6126F2, 0xCAD921E, 0x1, 0x585593042A7D3044);
    XorIs(0xc8, 0x2c, 0xcd, 0xab, 0x79, 0xa4, 0xea, 0x4c, 0xed, 0x30, 0x87, 0x54, 0x1d, 0x34, 0x2e, 0xfe);
    LaneIs(acc, input, 192, secret, 24, 7, 0x6F322FF963CCEA29, 0xA897FF9809D797E5, 0xC82CCDAB79A4EA4C,
          0xED3087541D342EFE, 0x251C4AFF6490C4B2, 0x251C4AFF, 0x6490C4B2, 0x1, 0x265E394AB02BE35C);
  }

  lemma Stripe3()
    ensures Accumulate512([0xE8D28EEC3673F6AB, 0xA6C60143A56262AD, 0xF9573958F7702C45, 0xC50009A21224D2C2,
          0x1BCB7A249CB42803, 0xC8EAEEC6595476EE, 0x879F577A6BB5B19C, 0x6F322FF963CCEA29], Window(TestBuffer(403),
          192), Window(Secret192(), 24)) ==
            [0x8064C281486450A6, 0xB178243E84B243F6, 0xB31EFB988DEE6B9D, 0x8775816B13B62EAA, 0xEC1BD1EEDE2B2F30,
                  0xC09D081A2AC88592, 0x585593042A7D3044, 0x265E394AB02BE35C]
  {
    hide Xor, Generator, ReadLE64, TestBuffer, Secret192, Accumulate512, Window;
    Stripe3Low();
    Stripe3High();
  }

  lemma Stripe4Low()
    ensures var acc := Accumulate512([0x8064C281486450A6, 0xB178243E84B243F6, 0xB31EFB988DEE6B9D, 0x8775816B13B62EAA,
          0xEC1BD1EEDE2B2F30, 0xC09D081A2AC88592, 0x585593042A7D3044, 0x265E394AB02BE35C], Window(TestBuffer(403),
          256), Window(Secret192(), 32));
            acc[0] == 0x137CA435CB1DB303 && acc[1] == 0x7750810CA4EF9E2 && acc[2] == 0x2E0E31538A435B95
                  && acc[3] == 0x32D9B777FD5174DF
  {
    hide Xor, Generator, ReadLE64, TestBuffer, Secret192, Accumulate512, Window;
    var acc: Acc := [0x8064C281486450A6, 0xB178243E84B243F6, 0xB31EFB988DEE6B9D, 0x8775816B13B62EAA,
          0xEC1BD1EEDE2B2F30, 0xC09D081A2AC88592, 0x585593042A7D3044, 0x265E394AB02BE35C];
    var input, secret := TestBuffer(403), Secret192();
    Buffer4(403);
    Buffer5(403);
    Derived0();
    Derived1();
    XorIs(0x50, 0x82, 0xe2, 0xce, 0xf1, 0xf2, 0x1b, 0x9f, 0x17, 0x1d, 0x3a, 0x7d, 0xd4, 0xd2, 0x44, 0x58);
    LaneIs(acc, input, 256, secret, 32, 0, 0x8064C281486450A6, 0x88B4B89B8EAD8238, 0x5082E2CEF1F21B9F,
          0x171D3A7DD4D24458, 0x479FD8B325205FC7, 0x479FD8B3, 0x25205FC7, 0x1, 0x137CA435CB1DB303);
    XorIs(0x88, 0xb4, 0xb8, 0x9b, 0x8e, 0xad, 0x82, 0x38, 0x83, 0x3b, 0x86, 0x1a, 0xf7, 0xe4, 0x8f, 0xf5);
    LaneIs(acc, input, 256, secret, 32, 1, 0xB178243E84B243F6, 0x5082E2CEF1F21B9F, 0x88B4B89B8EAD8238,
          0x833B861AF7E48FF5, 0xB8F3E8179490DCD, 0xB8F3E81, 0x79490DCD, 0x1, 0x7750810CA4EF9E2);
    XorIs(0x48, 0x65, 0xa9, 0xd9, 0x36, 0xb6, 0x8e, 0x81, 0x2c, 0x5b, 0xbd, 0xa8, 0xfa, 0x31, 0xd3, 0x45);
    LaneIs(acc, input, 256, secret, 32, 2, 0xB31EFB988DEE6B9D, 0x2AD8BBFCDBC93C74, 0x4865A9D936B68E81,
          0x2C5BBDA8FA31D345, 0x643E1471CC875DC4, 0x643E1471, 0xCC875DC4, 0x1, 0x2E0E31538A435B95);
    XorIs(0x2a, 0xd8, 0xbb, 0xfc, 0xdb, 0xc9, 0x3c, 0x74, 0xad, 0xee, 0xc0, 0xd0, 0x60, 0xa4, 0x6b, 0x53);
    LaneIs(acc, input, 256, secret, 32, 3, 0x8775816B13B62EAA, 0x4865A9D936B68E81, 0x2AD8BBFCDBC93C74,
          0xADEEC0D060A46B53, 0x87367B2CBB6D5727, 0x87367B2C, 0xBB6D5727, 0x1, 0x32D9B777FD5174DF);
  }

  lemma Stripe4High()
    ensures var acc := Accumulate512([0x8064C281486450A6, 0xB178243E84B243F6, 0xB31EFB988DEE6B9D, 0x8775816B13B62EAA,
          0xEC1BD1EEDE2B2F30, 0xC09D081A2AC88592, 0x585593042A7D3044, 0x265E394AB02BE35C], Window(TestBuffer(403),
          256), Window(Secret192(), 32));
            acc[4] == 0x55A5D9BD298707A5 && acc[5] == 0x70941D2FE7993F0B && acc[6] == 0xD04BAAD71F57A89C
                  && acc[7] == 0xA582A286E0082281
  {
    hide Xor, Generator, ReadLE64, TestBuffer, Secret192, Accumulate512, Window;
    var acc: Acc := [0x8064C281486450A6, 0xB178243E84B243F6, 0xB31EFB988DEE6B9D, 0x8775816B13B62EAA,
          0xEC1BD1EEDE2B2F30, 0xC09D081A2AC88592, 0x585593042A7D3044, 0x265E394AB02BE35C];
    var input, secret := TestBuffer(403), Secret192();
    Buffer5(403);
    Derived1();
    XorIs(0xab, 0x67, 0xb2, 0xe2, 0x24, 0xb4, 0x9e, 0x22, 0x69, 0x38, 0x3d, 0x43, 0x41, 0x3d, 0xf2, 0xc9);
    LaneIs(acc, input, 256, secret, 32, 4, 0xEC1BD1EEDE2B2F30, 0x1C71FC4D2AE213AA, 0xAB67B2E224B49E22,
          0x69383D43413DF2C9, 0xC25F8FA165896CEB, 0xC25F8FA1, 0x65896CEB, 0x1, 0x55A5D9BD298707A5);
    XorIs(0x1c, 0x71, 0xfc, 0x4d, 0x2a, 0xe2, 0x13, 0xaa, 0x04, 0xf6, 0xd9, 0x6a, 0x05, 0x7a, 0x05, 0xfb);
    LaneIs(acc, input, 256, secret, 32, 5, 0xC09D081A2AC88592, 0xAB67B2E224B49E22, 0x1C71FC4D2AE213AA,
          0x4F6D96A057A05FB, 0x188725272F981651, 0x18872527, 0x2F981651, 0x1, 0x70941D2FE7993F0B);
    XorIs(0x5d, 0x97, 0xe2, 0xf8, 0xbd, 0x91, 0x62, 0x07, 0xed, 0x30, 0x87, 0x54, 0x1d, 0x34, 0x2e, 0xfe);
    LaneIs(acc, input, 256, secret, 32, 6, 0x585593042A7D3044, 0x91B674567FD840C, 0x5D97E2F8BD916207,
          0xED3087541D342EFE, 0xB0A765ACA0A54CF9, 0xB0A765AC, 0xA0A54CF9, 0x0, 0xD04BAAD71F57A89C);
    XorIs(0x09, 0x1b, 0x67, 0x45, 0x67, 0xfd, 0x84, 0x0c, 0x3a, 0x75, 0x64, 0xf7, 0xc1, 0x03, 0x4e, 0xab);
    LaneIs(acc, input, 256, secret, 32, 7, 0x265E394AB02BE35C, 0x5D97E2F8BD916207, 0x91B674567FD840C,
          0x3A7564F7C1034EAB, 0x336E03B2A6FECAA7, 0x336E03B2, 0xA6FECAA7, 0x0, 0xA582A286E0082281);
  }

  lemma Stripe4()
    ensures Accumulate512([0x8064C281486450A6, 0xB178243E84B243F6, 0xB31EFB988DEE6B9D, 0x8775816B13B62EAA,
          0xEC1BD1EEDE2B2F30, 0xC09D081A2AC88592, 0x585593042A7D3044, 0x265E394AB02BE35C], Window(TestBuffer(403),
          256), Window(Secret192(), 32)) ==
            [0x137CA435CB1DB303, 0x7750810CA4EF9E2, 0x2E0E31538A435B95, 0x32D9B777FD5174DF, 0x55A5D9BD298707A5,
                  0x70941D2FE7993F0B, 0xD04BAAD71F57A89C, 0xA582A286E0082281]
  {
    hide Xor, Generator, ReadLE64, TestBuffer, Secret192, Accumulate512, Window;
    Stripe4Low();
    Stripe4High();
  }

  lemma Stripe5Low()
    ensures var acc := Accumulate512([0x137CA435CB1DB303, 0x7750810CA4EF9E2, 0x2E0E31538A435B95, 0x32D9B777FD5174DF,
          0x55A5D9BD298707A5, 0x70941D2FE7993F0B, 0xD04BAAD71F57A89C, 0xA582A286E0082281], Window(TestBuffer(403),
          320), Window(Secret192(), 40));
            acc[0] == 0xD6A87FA8D84F16E && acc[1] == 0xA15E0CEA66AFAB7A && acc[2] == 0x6D084CF099015784
                  && acc[3] == 0x4B6BE655B160B6CB
  {
    hide Xor, Generator, ReadLE64, TestBuffer, Secret192, Accumulate512, Window;
    var acc: Acc := [0x137CA435CB1DB303, 0x7750810CA4EF9E2, 0x2E0E31538A435B95, 0x32D9B777FD5174DF,
          0x55A5D9BD298707A5, 0x70941D2FE7993F0B, 0xD04BAAD71F57A89C, 0xA582A286E0082281];
    var input, secret := TestBuffer(403), Secret192();
    Buffer5(403);
    Buffer6(403);
    Derived0();
    Derived1();
    XorIs(0xda, 0x95, 0x30, 0x77, 0xa2, 0x20, 0x4b, 0x9a, 0x83, 0x3b, 0x86, 0x1a, 0xf7, 0xe4, 0x8f, 0xf5);
    LaneIs(acc, input, 320, secret, 40, 0, 0x137CA435CB1DB303, 0xDBE1F29E3F86B128, 0xDA953077A2204B9A,
          0x833B861AF7E48FF5, 0x59AEB66D55C4C46F, 0x59AEB66D, 0x55C4C46F, 0x1, 0xD6A87FA8D84F16E);
    XorIs(0xdb, 0xe1, 0xf2, 0x9e, 0x3f, 0x86, 0xb1, 0x28, 0x2c, 0x5b, 0xbd, 0xa8, 0xfa, 0x31, 0xd3, 0x45);
    LaneIs(acc, input, 320, secret, 40, 1, 0x7750810CA4EF9E2, 0xDA953077A2204B9A, 0xDBE1F29E3F86B128,
          0x2C5BBDA8FA31D345, 0xF7BA4F36C5B7626D, 0xF7BA4F36, 0xC5B7626D, 0x1, 0xA15E0CEA66AFAB7A);
    XorIs(0x06, 0x2f, 0x91, 0x6d, 0xf8, 0x90, 0xdf, 0x10, 0xad, 0xee, 0xc0, 0xd0, 0x60, 0xa4, 0x6b, 0x53);
    LaneIs(acc, input, 320, secret, 40, 2, 0x2E0E31538A435B95, 0xD8DBF6DF5B48B378, 0x62F916DF890DF10,
          0xADEEC0D060A46B53, 0xABC151BD9834B443, 0xABC151BD, 0x9834B443, 0x1, 0x6D084CF099015784);
    XorIs(0xd8, 0xdb, 0xf6, 0xdf, 0x5b, 0x48, 0xb3, 0x78, 0x69, 0x38, 0x3d, 0x43, 0x41, 0x3d, 0xf2, 0xc9);
    LaneIs(acc, input, 320, secret, 40, 3, 0x32D9B777FD5174DF, 0x62F916DF890DF10, 0xD8DBF6DF5B48B378,
          0x69383D43413DF2C9, 0xB1E3CB9C1A7541B1, 0xB1E3CB9C, 0x1A7541B1, 0x0, 0x4B6BE655B160B6CB);
  }

  lemma Stripe5High()
    ensures var acc := Accumulate512([0x137CA435CB1DB303, 0x7750810CA4EF9E2, 0x2E0E31538A435B95, 0x32D9B777FD5174DF,
          0x55A5D9BD298707A5, 0x70941D2FE7993F0B, 0xD04BAAD71F57A89C, 0xA582A286E0082281], Window(TestBuffer(403),
          320), Window(Secret192(), 40));
            acc[4] == 0xEF597495BB3BF4CD && acc[5] == 0xB0520330635E43FC && acc[6] == 0x1853A0199AEEE302
                  && acc[7] == 0xF1414FA1FCF75888
  {
    hide Xor, Generator, ReadLE64, TestBuffer, Secret192, Accumulate512, Window;
    var acc: Acc := [0x137CA435CB1DB303, 0x7750810CA4EF9E2, 0x2E0E31538A435B95, 0x32D9B777FD5174DF,
          0x55A5D9BD298707A5, 0x70941D2FE7993F0B, 0xD04BAAD71F57A89C, 0xA582A286E0082281];
    var input, secret := TestBuffer(403), Secret192();
    Buffer6(403);
    Derived1();
    Derived2();
    XorIs(0x02, 0x4c, 0x40, 0x89, 0xa5, 0xae, 0xa7, 0x7c, 0x04, 0xf6, 0xd9, 0x6a, 0x05, 0x7a, 0x05, 0xfb);
    LaneIs(acc, input, 320, secret, 40, 4, 0x55A5D9BD298707A5, 0x957963DD9FF02073, 0x24C4089A5AEA77C,
          0x4F6D96A057A05FB, 0x6BA99E3A0D4A287, 0x6BA99E3, 0xA0D4A287, 0x0, 0xEF597495BB3BF4CD);
    XorIs(0x95, 0x79, 0x63, 0xdd, 0x9f, 0xf0, 0x20, 0x73, 0xed, 0x30, 0x87, 0x54, 0x1d, 0x34, 0x2e, 0xfe);
    LaneIs(acc, input, 320, secret, 40, 5, 0x70941D2FE7993F0B, 0x24C4089A5AEA77C, 0x957963DD9FF02073,
          0xED3087541D342EFE, 0x7849E48982C40E8D, 0x7849E489, 0x82C40E8D, 0x0, 0xB0520330635E43FC);
    XorIs(0x22, 0xe0, 0x2f, 0x6f, 0x7e, 0xc4, 0x03, 0xb1, 0x3a, 0x75, 0x64, 0xf7, 0xc1, 0x03, 0x4e, 0xab);
    LaneIs(acc, input, 320, secret, 40, 6, 0xD04BAAD71F57A89C, 0x359D6E66E988D4F6, 0x22E02F6F7EC403B1,
          0x3A7564F7C1034EAB, 0x18954B98BFC74D1A, 0x18954B98, 0xBFC74D1A, 0x1, 0x1853A0199AEEE302);
    XorIs(0x35, 0x9d, 0x6e, 0x66, 0xe9, 0x88, 0xd4, 0xf6, 0xdd, 0x6c, 0x16, 0x94, 0xc5, 0x62, 0xc5, 0x35);
    LaneIs(acc, input, 320, secret, 40, 7, 0xA582A286E0082281, 0x22E02F6F7EC403B1, 0x359D6E66E988D4F6,
          0xDD6C1694C562C535, 0xE8F178F22CEA11C3, 0xE8F178F2, 0x2CEA11C3, 0x0, 0xF1414FA1FCF75888);
  }

  lemma Stripe5()
    ensures Accumulate512([0x137CA435CB1DB303, 0x7750810CA4EF9E2, 0x2E0E31538A435B95, 0x32D9B777FD5174DF,
          0x55A5D9BD298707A5, 0x70941D2FE7993F0B, 0xD04BAAD71F57A89C, 0xA582A286E0082281], Window(TestBuffer(403),
          320), Window(Secret192(), 40)) ==
            [0xD6A87FA8D84F16E, 0xA15E0CEA66AFAB7A, 0x6D084CF099015784, 0x4B6BE655B160B6CB, 0xEF597495BB3BF4CD,
                  0xB0520330635E43FC, 0x1853A0199AEEE302, 0xF1414FA1FCF75888]
  {
    hide Xor, Generator, ReadLE64, TestBuffer, Secret192, Accumulate512, Window;
    Stripe5Low();
    Stripe5High();
  }

  lemma LastStripeLow()
    ensures var acc := Accumulate512([0xD6A87FA8D84F16E, 0xA15E0CEA66AFAB7A, 0x6D084CF099015784, 0x4B6BE655B160B6CB,
          0xEF597495BB3BF4CD, 0xB0520330635E43FC, 0x1853A0199AEEE302, 0xF1414FA1FCF75888], Window(TestBuffer(403),
          339), Window(Secret192(), 121));
            acc[0] == 0xBE028721F10FCA8E && acc[1] == 0xE94E5995AB1EFCE && acc[2] == 0x32C501BDC209A7D3
                  && acc[3] == 0x449A17CD62A74B28
  {
    hide Xor, Generator, ReadLE64, TestBuffer, Secret192, Accumulate512, Window;
    var acc: Acc := [0xD6A87FA8D84F16E, 0xA15E0CEA66AFAB7A, 0x6D084CF099015784, 0x4B6BE655B160B6CB,
          0xEF597495BB3BF4CD, 0xB0520330635E43FC, 0x1853A0199AEEE302, 0xF1414FA1FCF75888];
    var input, secret := TestBuffer(403), Secret192();
    LastBytes0();
    LastKeys();
    XorIs(0x48, 0xb3, 0x78, 0x06, 0x2f, 0x91, 0x6d, 0xf8, 0x77, 0xc6, 0x3b, 0xff, 0x28, 0x43, 0x92, 0xd5);
    LaneIs(acc, input, 339, secret, 121, 0, 0xD6A87FA8D84F16E, 0xAEA77CD8DBF6DF5B, 0x48B378062F916DF8,
          0x77C63BFF284392D5, 0x3F7543F907D2FF2D, 0x3F7543F9, 0x7D2FF2D, 0x0, 0xBE028721F10FCA8E);
    XorIs(0xae, 0xa7, 0x7c, 0xd8, 0xdb, 0xf6, 0xdf, 0x5b, 0x38, 0x62, 0x23, 0x4c, 0xe6, 0x09, 0x98, 0x90);
    LaneIs(acc, input, 339, secret, 121, 1, 0xA15E0CEA66AFAB7A, 0x48B378062F916DF8, 0xAEA77CD8DBF6DF5B,
          0x3862234CE6099890, 0x96C55F943DFF47CB, 0x96C55F94, 0x3DFF47CB, 0x1, 0xE94E5995AB1EFCE);
    XorIs(0xf0, 0x20, 0x73, 0x02, 0x4c, 0x40, 0x89, 0xa5, 0xa4, 0x4d, 0x2b, 0x9a, 0x49, 0x79, 0xb4, 0xb7);
    LaneIs(acc, input, 339, secret, 121, 2, 0x6D084CF099015784, 0xC403B1957963DD9F, 0xF02073024C4089A5,
          0xA44D2B9A4979B4B7, 0x546D589805393D12, 0x546D5898, 0x5393D12, 0x1, 0x32C501BDC209A7D3);
    XorIs(0xc4, 0x03, 0xb1, 0x95, 0x79, 0x63, 0xdd, 0x9f, 0x46, 0xe8, 0x12, 0x6a, 0x68, 0xd7, 0xc8, 0xd7);
    LaneIs(acc, input, 339, secret, 121, 3, 0x4B6BE655B160B6CB, 0xF02073024C4089A5, 0xC403B1957963DD9F,
          0x46E8126A68D7C8D7, 0x82EBA3FF11B41548, 0x82EBA3FF, 0x11B41548, 0x1, 0x449A17CD62A74B28);
  }

  lemma LastStripeHigh()
    ensures var acc := Accumulate512([0xD6A87FA8D84F16E, 0xA15E0CEA66AFAB7A, 0x6D084CF099015784, 0x4B6BE655B160B6CB,
          0xEF597495BB3BF4CD, 0xB0520330635E43FC, 0x1853A0199AEEE302, 0xF1414FA1FCF75888], Window(TestBuffer(403),
          339), Window(Secret192(), 121));
            acc[4] == 0x4DFF577D12EE2126 && acc[5] == 0x684A2795B987D10E && acc[6] == 0xD99B634F22CE5E6A
                  && acc[7] == 0x6E0D323F2BD22A8F
  {
    hide Xor, Generator, ReadLE64, TestBuffer, Secret192, Accumulate512, Window;
    var acc: Acc := [0xD6A87FA8D84F16E, 0xA15E0CEA66AFAB7A, 0x6D084CF099015784, 0x4B6BE655B160B6CB,
          0xEF597495BB3BF4CD, 0xB0520330635E43FC, 0x1853A0199AEEE302, 0xF1414FA1FCF75888];
    var input, secret := TestBuffer(403), Secret192();
    LastBytes1();
    LastKeys();
    XorIs(0x88, 0xd4, 0xf6, 0x22, 0xe0, 0x2f, 0x6f, 0x7e, 0xb8, 0x00, 0x31, 0x5a, 0x77, 0xa0, 0x69, 0x4c);
    LaneIs(acc, input, 339, secret, 121, 4, 0xEF597495BB3BF4CD, 0x41BD19359D6E66E9, 0x88D4F622E02F6F7E,
          0xB800315A77A0694C, 0x30D4C778978F0632, 0x30D4C778, 0x978F0632, 0x1, 0x4DFF577D12EE2126);
    XorIs(0x41, 0xbd, 0x19, 0x35, 0x9d, 0x6e, 0x66, 0xe9, 0x02, 0x9a, 0xd8, 0xc1, 0x2e, 0xde, 0xa9, 0xe0);
    LaneIs(acc, input, 339, secret, 121, 5, 0xB0520330635E43FC, 0x88D4F622E02F6F7E, 0x41BD19359D6E66E9,
          0x29AD8C12EDEA9E0, 0x4327C1F4B3B0CF09, 0x4327C1F4, 0xB3B0CF09, 0x1, 0x684A2795B987D10E);
    XorIs(0x00, 0xb0, 0x78, 0xd5, 0xcf, 0x1a, 0x4f, 0x1b, 0xd2, 0x2f, 0xfa, 0x56, 0xc9, 0x4b, 0xcd, 0x2e);
    LaneIs(acc, input, 339, secret, 121, 6, 0x1853A0199AEEE302, 0xBC14F68D8F1FF049, 0xB078D5CF1A4F1B,
          0xD22FFA56C94BCD2E, 0xD29F828306518235, 0xD29F8283, 0x6518235, 0x0, 0xD99B634F22CE5E6A);
    XorIs(0xbc, 0x14, 0xf6, 0x8d, 0x8f, 0x1f, 0xf0, 0x49, 0x22, 0xc6, 0x3b, 0x90, 0x47, 0x15, 0x26, 0x95);
    LaneIs(acc, input, 339, secret, 121, 7, 0xF1414FA1FCF75888, 0xB078D5CF1A4F1B, 0xBC14F68D8F1FF049,
          0x22C63B9047152695, 0x9ED2CD1DC80AD6DC, 0x9ED2CD1D, 0xC80AD6DC, 0x1, 0x6E0D323F2BD22A8F);
  }

  lemma LastStripe()
    ensures Accumulate512([0xD6A87FA8D84F16E, 0xA15E0CEA66AFAB7A, 0x6D084CF099015784, 0x4B6BE655B160B6CB,
          0xEF597495BB3BF4CD, 0xB0520330635E43FC, 0x1853A0199AEEE302, 0xF1414FA1FCF75888], Window(TestBuffer(403),
          339), Window(Secret192(), 121)) ==
            [0xBE028721F10FCA8E, 0xE94E5995AB1EFCE, 0x32C501BDC209A7D3, 0x449A17CD62A74B28, 0x4DFF577D12EE2126,
                  0x684A2795B987D10E, 0xD99B634F22CE5E6A, 0x6E0D323F2BD22A8F]
  {
    hide Xor, Generator, ReadLE64, TestBuffer, Secret192, Accumulate512, Window;
    LastStripeLow();
    LastStripeHigh();
  }

  lemma AllStripes()
    ensures AfterStripes(Secret192(), TestBuffer(403), 6) == [0xD6A87FA8D84F16E, 0xA15E0CEA66AFAB7A,
          0x6D084CF099015784, 0x4B6BE655B160B6CB, 0xEF597495BB3BF4CD, 0xB0520330635E43FC, 0x1853A0199AEEE302,
          0xF1414FA1FCF75888]
  {
    hide Generator, TestBuffer, Secret192, Accumulate512, Window, AfterStripes, ScrambleAcc, ScrambleSecret;
    var input, secret := TestBuffer(403), Secret192();
    Start(secret, input);
    Stripe0();
    NextStripe(secret, input, 1);
    assert AfterStripes(secret, input, 1) == [0xA4FC84FA85DD6519, 0xF270A4630D71AF5D, 0xEA13F2B394E86B1A,
          0x4C5002AB2A8F3028, 0xB33F12075F4EE172, 0x34163C177EE70EB0, 0x2A0F062E37D7B028, 0x9D646DF53909BD6A];
    Stripe1();
    NextStripe(secret, input, 2);
    assert AfterStripes(secret, input, 2) == [0x9FDB02C1179E649A, 0xD836803C3CF0140A, 0x15F5F6FDEA13BD36,
          0x21D8A67CEFABD70D, 0xF6A5CFD6C1C5686C, 0x154A84EE06C4BE6B, 0x9072871FA3B05396, 0x7465FE93128D55AE];
    Stripe2();
    NextStripe(secret, input, 3);
    assert AfterStripes(secret, input, 3) == [0xE8D28EEC3673F6AB, 0xA6C60143A56262AD, 0xF9573958F7702C45,
          0xC50009A21224D2C2, 0x1BCB7A249CB42803, 0xC8EAEEC6595476EE, 0x879F577A6BB5B19C, 0x6F322FF963CCEA29];
    Stripe3();
    NextStripe(secret, input, 4);
    assert AfterStripes(secret, input, 4) == [0x8064C281486450A6, 0xB178243E84B243F6, 0xB31EFB988DEE6B9D,
          0x8775816B13B62EAA, 0xEC1BD1EEDE2B2F30, 0xC09D081A2AC88592, 0x585593042A7D3044, 0x265E394AB02BE35C];
    Stripe4();
    NextStripe(secret, input, 5);
    assert AfterStripes(secret, input, 5) == [0x137CA435CB1DB303, 0x7750810CA4EF9E2, 0x2E0E31538A435B95,
          0x32D9B777FD5174DF, 0x55A5D9BD298707A5, 0x70941D2FE7993F0B, 0xD04BAAD71F57A89C, 0xA582A286E0082281];
    Stripe5();
    NextStripe(secret, input, 6);
    assert AfterStripes(secret, input, 6) == [0xD6A87FA8D84F16E, 0xA15E0CEA66AFAB7A, 0x6D084CF099015784,
          0x4B6BE655B160B6CB, 0xEF597495BB3BF4CD, 0xB0520330635E43FC, 0x1853A0199AEEE302, 0xF1414FA1FCF75888];
  }

  lemma NoFold(acc: Acc, secret: seq<byte>, sp: nat, start: u64)
    requires sp + 64 <= |secret|
    ensures MergeRounds(acc, secret, sp, start, 0) == start
  {
  }

  lemma FoldedIs(acc: Acc, secret: seq<byte>, sp: nat, start: u64, n: nat, r: u64, a: u64, b: u64, k: u64, l: u64,
                 x: u64, y: u64, f: u64, c: nat, s: u64)
    requires 0 < n <= 4 && sp + 64 <= |secret| && MergeRounds(acc, secret, sp, start, n - 1) == r
    requires acc[2 * n - 2] == a && acc[2 * n - 1] == b
    requires ReadLE64(secret, sp + 16 * n - 16) == k && ReadLE64(secret, sp + 16 * n - 8) == l
    requires Xor(a, k) == x && Xor(b, l) == y && Mul128Fold64(x, y) == f && r + f == c * 0x1_0000_0000_0000_0000 + s
    ensures MergeRounds(acc, secret, sp, start, n) == s
  {
    hide Xor, ReadLE64, Mul128Fold64, Add64;
    Added(r, f, c, s);
  }

  lemma Folded0()
    ensures MergeRounds([0xBE028721F10FCA8E, 0xE94E5995AB1EFCE, 0x32C501BDC209A7D3, 0x449A17CD62A74B28,
          0x4DFF577D12EE2126, 0x684A2795B987D10E, 0xD99B634F22CE5E6A, 0x6E0D323F2BD22A8F], Secret192(), 11,
          0x11549275D22FD285, 1) == 0x2A8308D9009B45F9
  {
    hide Xor, ReadLE64, Secret192, Mul128Fold64, MergeRounds;
    var acc: Acc := [0xBE028721F10FCA8E, 0xE94E5995AB1EFCE, 0x32C501BDC209A7D3, 0x449A17CD62A74B28,
          0x4DFF577D12EE2126, 0x684A2795B987D10E, 0xD99B634F22CE5E6A, 0x6E0D323F2BD22A8F];
    var secret := Secret192();
    FoldKeys();
    XorIs(0xbe, 0x02, 0x87, 0x21, 0xf1, 0x0f, 0xca, 0x8e, 0x59, 0x9f, 0x6b, 0x7e, 0x75, 0xa8, 0x45, 0xa6);
    XorIs(0x0e, 0x94, 0xe5, 0x99, 0x5a, 0xb1, 0xef, 0xce, 0xb8, 0x75, 0xe5, 0x79, 0xcf, 0x0a, 0x35, 0x6f);
    XorIs(0xbc, 0x5b, 0xae, 0xc0, 0xf7, 0x81, 0x18, 0x28, 0xa5, 0x75, 0xd8, 0xa3, 0xd9, 0xea, 0x6b, 0x5c);
    FoldIs(0xE79DEC5F84A78F28, 0xB6E100E095BBDAA1, 0xBC5BAEC0F7811828, 0xA575D8A3D9EA6B5C);
    NoFold(acc, secret, 11, 0x11549275D22FD285);
    FoldedIs(acc, secret, 11, 0x11549275D22FD285, 1, 0x11549275D22FD285, 0xBE028721F10FCA8E, 0xE94E5995AB1EFCE,
          0x599F6B7E75A845A6, 0xB875E579CF0A356F, 0xE79DEC5F84A78F28, 0xB6E100E095BBDAA1, 0x192E76632E6B7374, 0x0,
          0x2A8308D9009B45F9);
  }

  lemma Folded1()
    ensures MergeRounds([0xBE028721F10FCA8E, 0xE94E5995AB1EFCE, 0x32C501BDC209A7D3, 0x449A17CD62A74B28,
          0x4DFF577D12EE2126, 0x684A2795B987D10E, 0xD99B634F22CE5E6A, 0x6E0D323F2BD22A8F], Secret192(), 11,
          0x11549275D22FD285, 2) == 0x1FAD9E9B0535C022
  {
    hide Xor, ReadLE64, Secret192, Mul128Fold64, MergeRounds;
    var acc: Acc := [0xBE028721F10FCA8E, 0xE94E5995AB1EFCE, 0x32C501BDC209A7D3, 0x449A17CD62A74B28,
          0x4DFF577D12EE2126, 0x684A2795B987D10E, 0xD99B634F22CE5E6A, 0x6E0D323F2BD22A8F];
    var secret := Secret192();
    FoldKeys();
    XorIs(0x32, 0xc5, 0x01, 0xbd, 0xc2, 0x09, 0xa7, 0xd3, 0xd2, 0x44, 0x58, 0x81, 0x30, 0x3a, 0x06, 0x1e);
    XorIs(0x44, 0x9a, 0x17, 0xcd, 0x62, 0xa7, 0x4b, 0x28, 0xe4, 0x8f, 0xf5, 0x17, 0x1d, 0x3a, 0x7d, 0xd4);
    XorIs(0x79, 0x4e, 0x9c, 0x96, 0x3c, 0xad, 0x83, 0xcc, 0x8c, 0x64, 0x09, 0x54, 0x38, 0x37, 0xf9, 0xe5);
    FoldIs(0xE081593CF233A1CD, 0xA015E2DA7F9D36FC, 0x794E9C963CAD83CC, 0x8C6409543837F9E5);
    Folded0();
    FoldedIs(acc, secret, 11, 0x11549275D22FD285, 2, 0x2A8308D9009B45F9, 0x32C501BDC209A7D3, 0x449A17CD62A74B28,
          0xD2445881303A061E, 0xE48FF5171D3A7DD4, 0xE081593CF233A1CD, 0xA015E2DA7F9D36FC, 0xF52A95C2049A7A29, 0x1,
          0x1FAD9E9B0535C022);
  }

  lemma Folded2()
    ensures MergeRounds([0xBE028721F10FCA8E, 0xE94E5995AB1EFCE, 0x32C501BDC209A7D3, 0x449A17CD62A74B28,
          0x4DFF577D12EE2126, 0x684A2795B987D10E, 0xD99B634F22CE5E6A, 0x6E0D323F2BD22A8F], Secret192(), 11,
          0x11549275D22FD285, 3) == 0x452B67C4DC401C67
  {
    hide Xor, ReadLE64, Secret192, Mul128Fold64, MergeRounds;
    var acc: Acc := [0xBE028721F10FCA8E, 0xE94E5995AB1EFCE, 0x32C501BDC209A7D3, 0x449A17CD62A74B28,
          0x4DFF577D12EE2126, 0x684A2795B987D10E, 0xD99B634F22CE5E6A, 0x6E0D323F2BD22A8F];
    var secret := Secret192();
    FoldKeys();
    XorIs(0x4d, 0xff, 0x57, 0x7d, 0x12, 0xee, 0x21, 0x26, 0x31, 0xd3, 0x45, 0x83, 0x3b, 0x86, 0x1a, 0xf7);
    XorIs(0x68, 0x4a, 0x27, 0x95, 0xb9, 0x87, 0xd1, 0x0e, 0xa4, 0x6b, 0x53, 0x2c, 0x5b, 0xbd, 0xa8, 0xfa);
    XorIs(0x46, 0x7e, 0x90, 0x46, 0xca, 0xf8, 0xcc, 0x34, 0x63, 0x03, 0x59, 0x6f, 0x1d, 0xf2, 0x90, 0x71);
    FoldIs(0x7C2C12FE29683BD1, 0xCC2174B9E23A79F4, 0x467E9046CAF8CC34, 0x6303596F1DF29071);
    Folded1();
    FoldedIs(acc, secret, 11, 0x11549275D22FD285, 3, 0x1FAD9E9B0535C022, 0x4DFF577D12EE2126, 0x684A2795B987D10E,
          0x31D345833B861AF7, 0xA46B532C5BBDA8FA, 0x7C2C12FE29683BD1, 0xCC2174B9E23A79F4, 0x257DC929D70A5C45, 0x0,
          0x452B67C4DC401C67);
  }

  lemma Folded3()
    ensures MergeRounds([0xBE028721F10FCA8E, 0xE94E5995AB1EFCE, 0x32C501BDC209A7D3, 0x449A17CD62A74B28,
          0x4DFF577D12EE2126, 0x684A2795B987D10E, 0xD99B634F22CE5E6A, 0x6E0D323F2BD22A8F], Secret192(), 11,
          0x11549275D22FD285, 4) == 0xE9851FAA32723124
  {
    hide Xor, ReadLE64, Secret192, Mul128Fold64, MergeRounds;
    var acc: Acc := [0xBE028721F10FCA8E, 0xE94E5995AB1EFCE, 0x32C501BDC209A7D3, 0x449A17CD62A74B28,
          0x4DFF577D12EE2126, 0x684A2795B987D10E, 0xD99B634F22CE5E6A, 0x6E0D323F2BD22A8F];
    var secret := Secret192();
    FoldKeys();
    XorIs(0xd9, 0x9b, 0x63, 0x4f, 0x22, 0xce, 0x5e, 0x6a, 0x3d, 0xf2, 0xc9, 0xad, 0xee, 0xc0, 0xd0, 0x60);
    XorIs(0x6e, 0x0d, 0x32, 0x3f, 0x2b, 0xd2, 0x2a, 0x8f, 0x7a, 0x05, 0xfb, 0x69, 0x38, 0x3d, 0x43, 0x41);
    XorIs(0xb5, 0xb9, 0xaf, 0xaf, 0x85, 0x4e, 0x66, 0x0c, 0x11, 0xe0, 0x18, 0x4a, 0xd3, 0x7c, 0x72, 0xb1);
    FoldIs(0xE469AAE2CC0E8E0A, 0x1408C95613EF69CE, 0xB5B9AFAF854E660C, 0x11E0184AD37C72B1);
    Folded2();
    FoldedIs(acc, secret, 11, 0x11549275D22FD285, 4, 0x452B67C4DC401C67, 0xD99B634F22CE5E6A, 0x6E0D323F2BD22A8F,
          0x3DF2C9ADEEC0D060, 0x7A05FB69383D4341, 0xE469AAE2CC0E8E0A, 0x1408C95613EF69CE, 0xA459B7E5563214BD, 0x0,
          0xE9851FAA32723124);
  }

  lemma AvalancheAt0()
    ensures Avalanche(0xE9851FAA32723124) == 0x6259F6ECFD6443FD
  {
    hide Xor, Avalanche;
    XorIs(0xe9, 0x85, 0x1f, 0xaa, 0x32, 0x72, 0x31, 0x24, 0x00, 0x00, 0x00, 0x00, 0x07, 0x4c, 0x28, 0xfd);
    XorIs(0x62, 0x59, 0xf6, 0xec, 0x9f, 0x3d, 0xb5, 0x11, 0x00, 0x00, 0x00, 0x00, 0x62, 0x59, 0xf6, 0xec);
    AvalancheIs(0xE9851FAA32723124, 0x74C28FD, 0xA32723124, 0xE9851FAA353E19D9, 0x146041EAA8386851,
          0x6259F6EC9F3DB511, 0x6259F6EC, 0x9F3DB511);
  }

  lemma Folded()
    ensures MergeAccs([0xBE028721F10FCA8E, 0xE94E5995AB1EFCE, 0x32C501BDC209A7D3, 0x449A17CD62A74B28,
          0x4DFF577D12EE2126, 0x684A2795B987D10E, 0xD99B634F22CE5E6A, 0x6E0D323F2BD22A8F], Secret192(), 11,
          0x11549275D22FD285) == 0x6259F6ECFD6443FD
  {
    hide Xor, Secret192, MergeRounds, Avalanche;
    Folded3();
    AvalancheAt0();
  }

  lemma WideFolded0()
    ensures MergeRounds([0xBE028721F10FCA8E, 0xE94E5995AB1EFCE, 0x32C501BDC209A7D3, 0x449A17CD62A74B28,
          0x4DFF577D12EE2126, 0x684A2795B987D10E, 0xD99B634F22CE5E6A, 0x6E0D323F2BD22A8F], Secret192(), 117,
          0x80B7B5BA4BD192A2, 1) == 0x2BECEE8EF7544786
  {
    hide Xor, ReadLE64, Secret192, Mul128Fold64, MergeRounds;
    var acc: Acc := [0xBE028721F10FCA8E, 0xE94E5995AB1EFCE, 0x32C501BDC209A7D3, 0x449A17CD62A74B28,
          0x4DFF577D12EE2126, 0x684A2795B987D10E, 0xD99B634F22CE5E6A, 0x6E0D323F2BD22A8F];
    var secret := Secret192();
    WideFoldKeys();
    XorIs(0xbe, 0x02, 0x87, 0x21, 0xf1, 0x0f, 0xca, 0x8e, 0x28, 0x43, 0x92, 0xd5, 0x3b, 0xcf, 0x91, 0x2e);
    XorIs(0x0e, 0x94, 0xe5, 0x99, 0x5a, 0xb1, 0xef, 0xce, 0xe6, 0x09, 0x98, 0x90, 0x77, 0xc6, 0x3b, 0xff);
    XorIs(0x23, 0xb2, 0x53, 0xe7, 0xd2, 0x12, 0x09, 0xa0, 0x88, 0x87, 0x6b, 0x33, 0x79, 0x90, 0xbd, 0x44);
    FoldIs(0x964115F4CAC05BA0, 0xE89D7D092D77D431, 0x23B253E7D21209A0, 0x88876B337990BD44);
    NoFold(acc, secret, 117, 0x80B7B5BA4BD192A2);
    FoldedIs(acc, secret, 117, 0x80B7B5BA4BD192A2, 1, 0x80B7B5BA4BD192A2, 0xBE028721F10FCA8E, 0xE94E5995AB1EFCE,
          0x284392D53BCF912E, 0xE609989077C63BFF, 0x964115F4CAC05BA0, 0xE89D7D092D77D431, 0xAB3538D4AB82B4E4, 0x1,
          0x2BECEE8EF7544786);
  }

  lemma WideFolded1()
    ensures MergeRounds([0xBE028721F10FCA8E, 0xE94E5995AB1EFCE, 0x32C501BDC209A7D3, 0x449A17CD62A74B28,
          0x4DFF577D12EE2126, 0x684A2795B987D10E, 0xD99B634F22CE5E6A, 0x6E0D323F2BD22A8F], Secret192(), 117,
          0x80B7B5BA4BD192A2, 2) == 0x2F6A03CB00DC72B0
  {
    hide Xor, ReadLE64, Secret192, Mul128Fold64, MergeRounds;
    var acc: Acc := [0xBE028721F10FCA8E, 0xE94E5995AB1EFCE, 0x32C501BDC209A7D3, 0x449A17CD62A74B28,
          0x4DFF577D12EE2126, 0x684A2795B987D10E, 0xD99B634F22CE5E6A, 0x6E0D323F2BD22A8F];
    var secret := Secret192();
    WideFoldKeys();
    XorIs(0x32, 0xc5, 0x01, 0xbd, 0xc2, 0x09, 0xa7, 0xd3, 0x49, 0x79, 0xb4, 0xb7, 0x38, 0x62, 0x23, 0x4c);
    XorIs(0x44, 0x9a, 0x17, 0xcd, 0x62, 0xa7, 0x4b, 0x28, 0x68, 0xd7, 0xc8, 0xd7, 0xa4, 0x4d, 0x2b, 0x9a);
    XorIs(0x16, 0x17, 0x07, 0x8a, 0xa3, 0xd3, 0xd6, 0x8e, 0x15, 0x6a, 0x12, 0xb6, 0xaa, 0x5b, 0xfd, 0xa4);
    FoldIs(0x7BBCB50AFA6B849F, 0x2C4DDF1AC6EA60B2, 0x1617078AA3D3D68E, 0x156A12B6AA5BFDA4);
    WideFolded0();
    FoldedIs(acc, secret, 117, 0x80B7B5BA4BD192A2, 2, 0x2BECEE8EF7544786, 0x32C501BDC209A7D3, 0x449A17CD62A74B28,
          0x4979B4B73862234C, 0x68D7C8D7A44D2B9A, 0x7BBCB50AFA6B849F, 0x2C4DDF1AC6EA60B2, 0x37D153C09882B2A, 0x0,
          0x2F6A03CB00DC72B0);
  }

  lemma WideFolded2()
    ensures MergeRounds([0xBE028721F10FCA8E, 0xE94E5995AB1EFCE, 0x32C501BDC209A7D3, 0x449A17CD62A74B28,
          0x4DFF577D12EE2126, 0x684A2795B987D10E, 0xD99B634F22CE5E6A, 0x6E0D323F2BD22A8F], Secret192(), 117,
          0x80B7B5BA4BD192A2, 3) == 0x1956E30A4FDB041
  {
    hide Xor, ReadLE64, Secret192, Mul128Fold64, MergeRounds;
    var acc: Acc := [0xBE028721F10FCA8E, 0xE94E5995AB1EFCE, 0x32C501BDC209A7D3, 0x449A17CD62A74B28,
          0x4DFF577D12EE2126, 0x684A2795B987D10E, 0xD99B634F22CE5E6A, 0x6E0D323F2BD22A8F];
    var secret := Secret192();
    WideFoldKeys();
    XorIs(0x4d, 0xff, 0x57, 0x7d, 0x12, 0xee, 0x21, 0x26, 0x77, 0xa0, 0x69, 0x4c, 0x46, 0xe8, 0x12, 0x6a);
    XorIs(0x68, 0x4a, 0x27, 0x95, 0xb9, 0x87, 0xd1, 0x0e, 0x2e, 0xde, 0xa9, 0xe0, 0xb8, 0x00, 0x31, 0x5a);
    XorIs(0xc2, 0x3c, 0x80, 0xe9, 0x57, 0xff, 0x54, 0xf0, 0x10, 0x17, 0xea, 0x8c, 0xf3, 0xde, 0x69, 0x61);
    FoldIs(0x3A5F3E315406334C, 0x46948E750187E054, 0xC23C80E957FF54F0, 0x1017EA8CF3DE6961);
    WideFolded1();
    FoldedIs(acc, secret, 117, 0x80B7B5BA4BD192A2, 3, 0x2F6A03CB00DC72B0, 0x4DFF577D12EE2126, 0x684A2795B987D10E,
          0x77A0694C46E8126A, 0x2EDEA9E0B800315A, 0x3A5F3E315406334C, 0x46948E750187E054, 0xD22B6A65A4213D91, 0x1,
          0x1956E30A4FDB041);
  }

  lemma WideFolded3()
    ensures MergeRounds([0xBE028721F10FCA8E, 0xE94E5995AB1EFCE, 0x32C501BDC209A7D3, 0x449A17CD62A74B28,
          0x4DFF577D12EE2126, 0x684A2795B987D10E, 0xD99B634F22CE5E6A, 0x6E0D323F2BD22A8F], Secret192(), 117,
          0x80B7B5BA4BD192A2, 4) == 0xB1991CA5B5F53D28
  {
    hide Xor, ReadLE64, Secret192, Mul128Fold64, MergeRounds;
    var acc: Acc := [0xBE028721F10FCA8E, 0xE94E5995AB1EFCE, 0x32C501BDC209A7D3, 0x449A17CD62A74B28,
          0x4DFF577D12EE2126, 0x684A2795B987D10E, 0xD99B634F22CE5E6A, 0x6E0D323F2BD22A8F];
    var secret := Secret192();
    WideFoldKeys();
    XorIs(0xd9, 0x9b, 0x63, 0x4f, 0x22, 0xce, 0x5e, 0x6a, 0xc9, 0x4b, 0xcd, 0x2e, 0x02, 0x9a, 0xd8, 0xc1);
    XorIs(0x6e, 0x0d, 0x32, 0x3f, 0x2b, 0xd2, 0x2a, 0x8f, 0x47, 0x15, 0x26, 0x95, 0xd2, 0x2f, 0xfa, 0x56);
    XorIs(0xb2, 0xb0, 0xae, 0xac, 0x7f, 0x10, 0x16, 0xf3, 0x02, 0xb3, 0x00, 0xd9, 0x6f, 0xe7, 0x9a, 0x14);
    FoldIs(0x10D0AE61205486AB, 0x291814AAF9FDD0D9, 0xB2B0AEAC7F1016F3, 0x2B300D96FE79A14);
    WideFolded2();
    FoldedIs(acc, secret, 117, 0x80B7B5BA4BD192A2, 4, 0x1956E30A4FDB041, 0xD99B634F22CE5E6A, 0x6E0D323F2BD22A8F,
          0xC94BCD2E029AD8C1, 0x47152695D22FFA56, 0x10D0AE61205486AB, 0x291814AAF9FDD0D9, 0xB003AE7510F78CE7, 0x0,
          0xB1991CA5B5F53D28);
  }

  lemma AvalancheAt1()
    ensures Avalanche(0xB1991CA5B5F53D28) == 0xBED311971E0BE8F2
  {
    hide Xor, Avalanche;
    XorIs(0xb1, 0x99, 0x1c, 0xa5, 0xb5, 0xf5, 0x3d, 0x28, 0x00, 0x00, 0x00, 0x00, 0x05, 0x8c, 0xc8, 0xe5);
    XorIs(0xbe, 0xd3, 0x11, 0x97, 0xa0, 0xd8, 0xf9, 0x65, 0x00, 0x00, 0x00, 0x00, 0xbe, 0xd3, 0x11, 0x97);
    AvalancheIs(0xB1991CA5B5F53D28, 0x58CC8E5, 0x5B5F53D28, 0xB1991CA5B079F5CD, 0xF7F19BF7CD6A423,
          0xBED31197A0D8F965, 0xBED31197, 0xA0D8F965);
  }

  lemma WideFolded()
    ensures MergeAccs([0xBE028721F10FCA8E, 0xE94E5995AB1EFCE, 0x32C501BDC209A7D3, 0x449A17CD62A74B28,
          0x4DFF577D12EE2126, 0x684A2795B987D10E, 0xD99B634F22CE5E6A, 0x6E0D323F2BD22A8F], Secret192(), 117,
          0x80B7B5BA4BD192A2) == 0xBED311971E0BE8F2
  {
    hide Xor, Secret192, MergeRounds, Avalanche;
    WideFolded3();
    AvalancheAt1();
  }

  /** xxhsum.c lines 1264 and 1347: 403 bytes under the seed PRIME64. */
  lemma Known403()
    ensures Hash64(Seeded(SEED), TestBuffer(403)) == 0x6259F6ECFD6443FD
    ensures Hash128(Seeded(SEED), TestBuffer(403)) == U128(0x6259F6ECFD6443FD, 0xBED311971E0BE8F2)
  {
    hide Secret192, TestBuffer, AfterStripes, Accumulate512, Window, MergeAccs, Generator, Mul64;
    Multiplied(403, PRIME64_1, 0xF9, 0x11549275D22FD285);
    Multiplied(403, PRIME64_2, 0x132, 0x7F484A45B42E6D5D);
    AllStripes();
    LastStripe();
    Folded();
    WideFolded();
    SecretIs();
  }

  lemma SecretIs()
    ensures LongSecret(Seeded(SEED)) == Secret192() && |Secret192()| == 192
    ensures LastSecret(Secret192()) == Window(Secret192(), 121)
  {
    hide Window, KSecret;
  }
}

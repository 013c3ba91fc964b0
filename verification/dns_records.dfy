// Replies as the name server writes them, and what the resolver's scan makes of them.
module DnsRecords {
  import opened Words
  import opened DnsTables
  import Lists

  // A resource record: name pointer, type, class, time to live in seconds, and data.
  datatype Record = Record(name: nat, kind: nat, rrClass: nat, ttl: nat, data: seq<byte>)

  const AAAA := 28
  const CLASS_IN := 1

  // Network byte order: the most significant byte first.
  function Net(v: nat, n: nat): (s: seq<byte>)
    ensures |s| == n
  {
    Reverse(LEBytes(v, n))
  }

  function Head(r: Record): (s: seq<byte>)
    ensures |s| == 12
  {
    Net(r.name, 2) + Net(r.kind, 2) + Net(r.rrClass, 2) + Net(r.ttl, 4) + Net(|r.data|, 2)
  }

  function Encode(r: Record): seq<byte> {
    Head(r) + r.data
  }

  function EncodeAll(rs: seq<Record>): seq<byte> {
    if rs == [] then [] else Encode(rs[0]) + EncodeAll(rs[1..])
  }

  // Every field fits, and the name is a pointer into the question.
  predicate WellFormed(r: Record) {
    0 < r.name < 0x10000 && 0 < r.kind < 0x10000 && r.rrClass < 0x10000 && r.ttl < 0x1_0000_0000 && |r.data| < 0x10000
  }

  // A record to be passed over.
  predicate Other(r: Record) {
    WellFormed(r) && r.kind != AAAA && r.data != []
  }

  predicate AddressRecord(r: Record) {
    WellFormed(r) && r.kind == AAAA && r.rrClass == CLASS_IN && |r.data| == 16
  }

  // The text stands in the received datagram at pos.
  predicate Holds(buffer: seq<byte>, size: nat, pos: nat, s: seq<byte>) {
    pos + |s| <= size <= |buffer| && buffer[pos..pos + |s|] == s
  }

  lemma HoldsParts(buffer: seq<byte>, size: nat, pos: nat, s: seq<byte>, t: seq<byte>)
    requires Holds(buffer, size, pos, s + t)
    ensures Holds(buffer, size, pos, s) && Holds(buffer, size, pos + |s|, t)
  {
    var w := buffer[pos..pos + |s + t|];
    assert w[..|s|] == s && w[|s|..] == t;
    assert buffer[pos..pos + |s|] == w[..|s|];
    assert buffer[pos + |s|..pos + |s| + |t|] == w[|s|..];
  }

  // ---------------------------------------------------------------- numbers in network byte order

  lemma Net2(v: nat)
    requires v < 0x10000
    ensures Net(v, 2)[0] == v / 256 && Net(v, 2)[1] == v % 256
  {
    assert LEBytes(v, 2) == [v % 256] + ([v / 256 % 256] + []);
  }

  lemma Net4(v: nat)
    requires v < 0x1_0000_0000
    ensures var s := Net(v, 4);
      var b0: nat, b1: nat, b2: nat, b3: nat := s[0], s[1], s[2], s[3];
      v == b0 * 0x1000000 + b1 * 0x10000 + b2 * 256 + b3
  {
    var b, w := v / 256, v / 256 / 256;
    assert LEBytes(w, 2) == [w % 256] + ([w / 256 % 256] + []);
    assert LEBytes(v, 4) == [v % 256] + ([b % 256] + LEBytes(w, 2));
    assert w / 256 < 256;
  }

  lemma Read16Net(buffer: seq<byte>, size: nat, pos: nat, v: nat)
    requires v < 0x10000 && Holds(buffer, size, pos, Net(v, 2))
    ensures Read16(buffer, size, pos) == (v, pos + 2)
  {
    hide Net;
    Net2(v);
    var w := buffer[pos..pos + 2];
    assert w[0] == buffer[pos] && w[1] == buffer[pos + 1];
  }

  lemma Read32Net(buffer: seq<byte>, size: nat, pos: nat, v: nat)
    requires v < 0x1_0000_0000 && Holds(buffer, size, pos, Net(v, 4))
    ensures Read32(buffer, pos) == v
  {
    hide Net;
    Net4(v);
    var w := buffer[pos..pos + 4];
    assert w[0] == buffer[pos] && w[1] == buffer[pos + 1] && w[2] == buffer[pos + 2] && w[3] == buffer[pos + 3];
  }

  lemma AddressHeld(buffer: seq<byte>, size: nat, pos: nat, ip: seq<byte>)
    requires |ip| == 16 && Holds(buffer, size, pos, ip)
    ensures Address(buffer, pos) == ip
  {
    var w := buffer[pos..pos + 16];
    forall i | 0 <= i < 16 ensures Address(buffer, pos)[i] == w[i] {
      assert At(buffer, pos + i) == buffer[pos + i] == w[i];
    }
  }

  // Where the fields of a record stand, and what is read there.
  lemma Fields(buffer: seq<byte>, size: nat, pos: nat, r: Record)
    requires WellFormed(r) && Holds(buffer, size, pos, Head(r))
    ensures Read16(buffer, size, pos) == (r.name, pos + 2) && Read16(buffer, size, pos + 2) == (r.kind, pos + 4)
    ensures Read16(buffer, size, pos + 4) == (r.rrClass, pos + 6) && Read32(buffer, pos + 6) == r.ttl
    ensures Read16(buffer, size, pos + 10) == (|r.data|, pos + 12) && pos + 12 <= size
  {
    hide Net, Holds, Read16, Read32;
    var a, b, c, d, e := Net(r.name, 2), Net(r.kind, 2), Net(r.rrClass, 2), Net(r.ttl, 4), Net(|r.data|, 2);
    Fits(buffer, size, pos, Head(r));
    HoldsParts(buffer, size, pos, a + b + c + d, e);
    HoldsParts(buffer, size, pos, a + b + c, d);
    HoldsParts(buffer, size, pos, a + b, c);
    HoldsParts(buffer, size, pos, a, b);
    Read16Net(buffer, size, pos, r.name);
    Read16Net(buffer, size, pos + 2, r.kind);
    Read16Net(buffer, size, pos + 4, r.rrClass);
    Read32Net(buffer, size, pos + 6, r.ttl);
    Read16Net(buffer, size, pos + 10, |r.data|);
  }

  lemma WholeRecord(buffer: seq<byte>, size: nat, pos: nat, r: Record)
    requires Holds(buffer, size, pos, Encode(r))
    ensures Holds(buffer, size, pos, Head(r)) && Holds(buffer, size, pos + 12, r.data)
    ensures |Encode(r)| == 12 + |r.data| && pos + 12 + |r.data| <= size
  {
    hide Head, Holds;
    HoldsParts(buffer, size, pos, Head(r), r.data);
    Fits(buffer, size, pos, Encode(r));
  }

  lemma Fits(buffer: seq<byte>, size: nat, pos: nat, s: seq<byte>)
    requires Holds(buffer, size, pos, s)
    ensures pos + |s| <= size
  {
  }

  // ---------------------------------------------------------------- one record

  // Another record is passed over whole.
  lemma Passed(buffer: seq<byte>, size: nat, pos: nat, index: nat, answers: nat, r: Record)
    requires Other(r) && Holds(buffer, size, pos, Encode(r)) && index < answers
    ensures Scan(buffer, size, pos, index, answers) == Scan(buffer, size, pos + |Encode(r)|, index + 1, answers)
  {
    hide Encode, Head, Holds, Read16, Read32;
    WholeRecord(buffer, size, pos, r);
    Fields(buffer, size, pos, r);
  }

  // One whose data the datagram cuts off is passed over up to its data, which are read as if they
  // were the next record.
  lemma DataCutOff(buffer: seq<byte>, size: nat, pos: nat, index: nat, answers: nat, r: Record)
    requires Other(r) && Holds(buffer, size, pos, Head(r)) && size < pos + 12 + |r.data| && index < answers
    ensures Scan(buffer, size, pos, index, answers) == Scan(buffer, size, pos + 12, index + 1, answers)
  {
    hide Head, Holds, Read16, Read32;
    Fields(buffer, size, pos, r);
  }

  lemma AddressFound(buffer: seq<byte>, size: nat, pos: nat, index: nat, answers: nat, r: Record)
    requires AddressRecord(r) && Holds(buffer, size, pos, Encode(r)) && index < answers
    ensures Scan(buffer, size, pos, index, answers) == Found(r.ttl, r.data)
  {
    hide Encode, Head, Holds, Read16, Read32, Address;
    WholeRecord(buffer, size, pos, r);
    Fields(buffer, size, pos, r);
    AddressHeld(buffer, size, pos + 12, r.data);
  }

  // ---------------------------------------------------------------- whole replies

  // Other records in any number do not change what is read behind them.
  lemma {:induction false} AllPassed(buffer: seq<byte>, size: nat, pos: nat, index: nat, answers: nat, rs: seq<Record>)
    requires (forall r :: r in rs ==> Other(r)) && Holds(buffer, size, pos, EncodeAll(rs)) && index + |rs| <= answers
    ensures Scan(buffer, size, pos, index, answers) == Scan(buffer, size, pos + |EncodeAll(rs)|, index + |rs|, answers)
    decreases |rs|
  {
    hide Encode, Holds, Scan, Other;
    if rs != [] {
      HoldsParts(buffer, size, pos, Encode(rs[0]), EncodeAll(rs[1..]));
      Passed(buffer, size, pos, index, answers, rs[0]);
      AllPassed(buffer, size, pos + |Encode(rs[0])|, index + 1, answers, rs[1..]);
    }
  }

  // The first address of class IN is found, with its time to live, wherever it stands in the reply.
  lemma ReplyFound(buffer: seq<byte>, size: nat, start: nat, answers: nat, others: seq<Record>, r: Record)
    requires (forall o :: o in others ==> Other(o)) && AddressRecord(r) && |others| < answers
    requires Holds(buffer, size, start, EncodeAll(others) + Encode(r))
    ensures Scan(buffer, size, start, 0, answers) == Found(r.ttl, r.data)
  {
    hide Encode, Holds, Scan, Other, AddressRecord;
    HoldsParts(buffer, size, start, EncodeAll(others), Encode(r));
    AllPassed(buffer, size, start, 0, answers, others);
    AddressFound(buffer, size, start + |EncodeAll(others)|, |others|, answers, r);
  }

  // A reply without an address fails.
  lemma ReplyFailed(buffer: seq<byte>, size: nat, start: nat, others: seq<Record>)
    requires (forall o :: o in others ==> Other(o)) && Holds(buffer, size, start, EncodeAll(others))
    ensures Scan(buffer, size, start, 0, |others|) == Failed
  {
    hide Encode, Holds, Other, Read16, Read32;
    AllPassed(buffer, size, start, 0, |others|, others);
  }

  // A datagram that ends before its last answer says nothing.
  lemma ReplyCutOff(buffer: seq<byte>, size: nat, start: nat, answers: nat, others: seq<Record>)
    requires (forall o :: o in others ==> Other(o)) && Holds(buffer, size, start, EncodeAll(others))
    requires |others| < answers && size < start + |EncodeAll(others)| + 2
    ensures Scan(buffer, size, start, 0, answers) == Silent
  {
    hide Encode, Holds, Other, Read32;
    AllPassed(buffer, size, start, 0, answers, others);
  }

  // Two records that a name server may send stop the scan, whatever stands behind them: one
  // without data, and an address record of another class with a time to live of less than 65536
  // seconds, of which only the first six bytes are passed over.
  lemma Stopped(buffer: seq<byte>, size: nat, start: nat, answers: nat, others: seq<Record>, r: Record)
    requires (forall o :: o in others ==> Other(o)) && WellFormed(r) && |others| < answers
    requires Holds(buffer, size, start, EncodeAll(others) + Encode(r))
    requires if r.kind == AAAA then r.rrClass != CLASS_IN && r.ttl < 0x10000 && |others| + 1 < answers else r.data == []
    ensures Scan(buffer, size, start, 0, answers) == Silent
  {
    hide Encode, Holds, Other, Scan, WellFormed;
    HoldsParts(buffer, size, start, EncodeAll(others), Encode(r));
    AllPassed(buffer, size, start, 0, answers, others);
    StoppedHere(buffer, size, start + |EncodeAll(others)|, |others|, answers, r);
  }

  lemma StoppedHere(buffer: seq<byte>, size: nat, pos: nat, index: nat, answers: nat, r: Record)
    requires WellFormed(r) && index < answers && Holds(buffer, size, pos, Encode(r))
    requires if r.kind == AAAA then r.rrClass != CLASS_IN && r.ttl < 0x10000 && index + 1 < answers else r.data == []
    ensures Scan(buffer, size, pos, index, answers) == Silent
  {
    hide Encode, Head, Holds, Read16, Read32;
    WholeRecord(buffer, size, pos, r);
    Fields(buffer, size, pos, r);
    if r.kind == AAAA && r.rrClass != 0 {
      HighHalfRead(buffer, size, pos + 6, r.ttl);
    }
  }

  lemma HighHalfRead(buffer: seq<byte>, size: nat, pos: nat, ttl: nat)
    requires ttl < 0x10000 && Read32(buffer, pos) == ttl && pos + 2 <= size
    ensures Read16(buffer, size, pos).0 == 0
  {
  }

  // ---------------------------------------------------------------- what becomes of it

  // A reply without an error, to a query that somebody waits for, with an address that is served:
  // every client is told that address on its own side, and the cache has it.
  lemma GoodReply(id: nat, flags: bv16, buffer: seq<byte>, size: nat, start: nat, answers: nat, others: seq<Record>, r: Record,
                  was: map<nat, Query>, now: map<nat, Query>, toldWas: seq<Notice>, told: seq<Notice>,
                  cacheWas: map<string, CacheEntry>, cache: map<string, CacheEntry>, time: nat)
    requires (forall o :: o in others ==> Other(o)) && AddressRecord(r) && |others| < answers
    requires Holds(buffer, size, start, EncodeAll(others) + Encode(r))
    requires flags & 0xFA0F == 0x8000 && flags & 0x000F != 1 && !Unanswered(was, id)
    requires Acted(id, flags, Scan(buffer, size, start, 0, answers), was, now, toldWas, told, cacheWas, cache, time)
    ensures now == was - {id}
    ensures var q := was[id];
      var told' := if Served(r.data) then r.data else [];
      var kind := if Served(r.data) then Right else Wrong;
      && told == toldWas + ToldAll(q, kind, told')
      && (|cacheWas| <= 5000 ==> q.host in cache && cache[q.host].ip == r.data && cache[q.host].status == kind)
  {
    hide Holds, Encode, Scan, ToldAll;
    ReplyFound(buffer, size, start, answers, others, r);
  }

  // The k-th group of an address as it is written.
  function Group(ip: Ip, k: nat): nat
    requires |ip| == 16 && k < 8
  {
    256 * (ip[2 * k] as nat) + ip[2 * k + 1]
  }

  // Served are the addresses of 2803:1920::/32 but for those of 2803:1920::b4b2:5f61:d37f with any
  // last group.
  lemma ServedMeans(ip: Ip)
    requires |ip| == 16
    ensures Served(ip) <==>
      && Group(ip, 0) == 0x2803 && Group(ip, 1) == 0x1920
      && !(Group(ip, 2) == 0 && Group(ip, 3) == 0 && Group(ip, 4) == 0xb4b2 && Group(ip, 5) == 0x5f61 && Group(ip, 6) == 0xd37f)
  {
    PrefixIs(INCLUDE, ip);
    PrefixIs(EXCLUDE, ip);
    GroupIs(ip, 0, 0x28, 0x03);
    GroupIs(ip, 1, 0x19, 0x20);
    GroupIs(ip, 2, 0, 0);
    GroupIs(ip, 3, 0, 0);
    GroupIs(ip, 4, 0xb4, 0xb2);
    GroupIs(ip, 5, 0x5f, 0x61);
    GroupIs(ip, 6, 0xd3, 0x7f);
  }

  lemma GroupIs(ip: Ip, k: nat, v: nat, w: nat)
    requires |ip| == 16 && k < 7 && v < 256 && w < 256
    ensures Group(ip, k) == 256 * v + w <==> ip[2 * k] == v && ip[2 * k + 1] == w
  {
  }

  lemma PrefixIs(s: Ip, ip: Ip)
    requires |s| <= |ip|
    ensures s <= ip <==> forall i :: 0 <= i < |s| ==> s[i] == ip[i]
  {
  }

  // ---------------------------------------------------------------- who is told, and where

  lemma {:induction false} NoticesCount(clients: seq<Client>, kind: StatusEntry, ip: Ip, https: bool, n: Notice)
    ensures multiset(Notices(clients, kind, ip, https))[n] ==
            if n == Notice(n.client, kind, ip, https) then multiset(clients)[n.client] else 0
  {
    if clients != [] {
      NoticesCount(clients[1..], kind, ip, https, n);
      var first := Notice(clients[0], kind, ip, https);
      assert clients == [clients[0]] + clients[1..];
      assert multiset([first] + Notices(clients[1..], kind, ip, https)) ==
             multiset{first} + multiset(Notices(clients[1..], kind, ip, https));
    }
  }

  // A notice is given as often as its client waits on its side, and with one outcome for all.
  lemma ToldOnSides(q: Query, kind: StatusEntry, ip: Ip, n: Notice)
    ensures multiset(ToldAll(q, kind, ip))[n] ==
            if n == Notice(n.client, kind, ip, n.https) then multiset(if n.https then q.https else q.http)[n.client] else 0
  {
    hide Notices;
    NoticesCount(q.http, kind, ip, false, n);
    NoticesCount(q.https, kind, ip, true, n);
    assert multiset(ToldAll(q, kind, ip)) == multiset(Notices(q.http, kind, ip, false)) + multiset(Notices(q.https, kind, ip, true));
  }

  // A client that joins a query is told on the side it asked on, and nobody else is told otherwise.
  lemma JoinedTold(q: Query, client: Client, https: bool, kind: StatusEntry, ip: Ip)
    ensures multiset(ToldAll(Joined(q, client, https), kind, ip)) ==
            multiset(ToldAll(q, kind, ip)) + multiset{Notice(client, kind, ip, https)}
  {
    hide ToldAll;
    var notice := Notice(client, kind, ip, https);
    var was, now := multiset(ToldAll(q, kind, ip)), multiset(ToldAll(Joined(q, client, https), kind, ip));
    forall n: Notice ensures now[n] == (was + multiset{notice})[n] {
      ToldOnSides(q, kind, ip, n);
      ToldOnSides(Joined(q, client, https), kind, ip, n);
      OneMore(Side(q, n.https), client, n.client);
    }
  }

  lemma OneMore(list: seq<Client>, client: Client, other: Client)
    ensures multiset(list + [client])[other] == multiset(list)[other] + if other == client then 1 else 0
  {
  }

  // One that leaves is told once less.
  lemma DepartedTold(q: Query, client: Client, https: bool, kind: StatusEntry, ip: Ip)
    ensures multiset(ToldAll(Departed(q, client, https), kind, ip)) ==
            multiset(ToldAll(q, kind, ip)) - multiset{Notice(client, kind, ip, https)}
  {
    hide ToldAll;
    var notice := Notice(client, kind, ip, https);
    var was, left := multiset(ToldAll(q, kind, ip)), multiset(ToldAll(Departed(q, client, https), kind, ip));
    forall n: Notice ensures left[n] == (was - multiset{notice})[n] {
      ToldOnSides(q, kind, ip, n);
      ToldOnSides(Departed(q, client, https), kind, ip, n);
      OneLess(Side(q, n.https), client, n.client);
    }
  }

  lemma OneLess(list: seq<Client>, client: Client, other: Client)
    ensures multiset(Lists.Without<Client>(list, client))[other] ==
            if other == client && multiset(list)[other] > 0 then multiset(list)[other] - 1 else multiset(list)[other]
  {
    Lists.WithoutCount<Client>(list, client);
    Fewer(multiset(list), client, other);
  }

  lemma Fewer(m: multiset<Client>, client: Client, other: Client)
    ensures (m - multiset{client})[other] == if other == client && m[other] > 0 then m[other] - 1 else m[other]
  {
  }

  // A client that starts a query is told alone.
  lemma ToldAlone(client: Client, host: string, https: bool, due: nat, kind: StatusEntry, ip: Ip)
    ensures ToldAll(NewQuery(client, host, https, due), kind, ip) == [Notice(client, kind, ip, https)]
  {
    assert [client][1..] == [];
    assert Notices([], kind, ip, false) == [] && Notices([], kind, ip, true) == [];
    var all: seq<Notice> := Notices([client], kind, ip, https);
    assert all == [Notice(client, kind, ip, https)];
    assert all + [] == all && [] + all == all;
  }

  // A query that nobody answers is sent again the first two times it falls due, five seconds apart
  // at least, and is gone the third time.
  lemma GivenUpThird(client: Client, host: string, https: bool, due: nat, id: nat,
                     first: map<nat, Query>, second: map<nat, Query>, third: map<nat, Query>, t0: nat, t1: nat, t2: nat, t3: nat)
    requires Retried(NewQuery(client, host, https, due), first, id, t0, t1)
    requires id in first ==> Retried(first[id], second, id, t1, t2)
    requires id in second ==> Retried(second[id], third, id, t2, t3)
    ensures id in first && id in second && id !in third
    ensures first[id].nextRetry >= t0 + 5 && second[id].nextRetry >= t1 + 5
    ensures Clients(first[id]) == Clients(second[id]) == multiset{client}
  {
  }

  // A client that is answered from the cache later is told what the clients of the reply were told.
  lemma SameFromCache(q: Query, id: nat, was: map<nat, Query>, now: map<nat, Query>, toldWas: seq<Notice>, told: seq<Notice>,
                      cacheWas: map<string, CacheEntry>, cache: map<string, CacheEntry>,
                      outcome: (StatusEntry, nat, Ip), time: nat, later: Client, https: bool, k: nat)
    requires Settled(q, id, was, now, toldWas, told, cacheWas, cache, outcome, outcome.0, time)
    requires |cacheWas| <= 5000 && |toldWas| <= k < |told|
    ensures q.host in cache
    ensures Answer(cache[q.host], later, https) == told[k].(client := later, https := https)
  {
    hide ToldAll;
    var kind, ip := outcome.0, if outcome.0 == Right then outcome.2 else [];
    var n := told[k];
    assert n == ToldAll(q, kind, ip)[k - |toldWas|];
    assert n in multiset(ToldAll(q, kind, ip));
    ToldOnSides(q, kind, ip, n);
  }
}

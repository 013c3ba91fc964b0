// The resolver's tables: queries in flight by id, by host and by due time, and the cache of
// answers with its expiry index. Each method is one callback, run to its end; the clock is
// any that never goes back.
module DnsTables {
  import opened Lists
  import Words

  type Client = nat
  type Ip = seq<Words.byte>

  datatype Query = Query(host: string, http: seq<Client>, https: seq<Client>, retryTime: nat, nextRetry: nat)

  datatype StatusEntry = Right | Wrong | Error

  datatype CacheEntry = CacheEntry(ip: Ip, outdatedDate: nat, status: StatusEntry)

  // What a waiting client is told, and by which of its two callers' ports.
  datatype Notice = Notice(client: Client, kind: StatusEntry, ip: Ip, https: bool)

  // ---------------------------------------------------------------- the query index

  // The three tables of queries agree: hosts and ids name each other, and every scheduled id
  // is a live query, once, in the bucket of its own due time.
  ghost predicate Indexed(queryList: map<nat, Query>, byHost: map<string, nat>, byTime: map<nat, seq<nat>>) {
    HostsOk(queryList, byHost) && TimesOk(queryList, byTime)
  }

  ghost predicate HostsOk(queryList: map<nat, Query>, byHost: map<string, nat>) {
    && (forall h :: h in byHost ==> byHost[h] in queryList && queryList[byHost[h]].host == h)
    && (forall id :: id in queryList ==> queryList[id].host in byHost && byHost[queryList[id].host] == id)
  }

  ghost predicate TimesOk(queryList: map<nat, Query>, byTime: map<nat, seq<nat>>) {
    forall t :: t in byTime ==> Bucket(queryList, t, byTime[t])
  }

  ghost predicate Bucket(queryList: map<nat, Query>, t: nat, ids: seq<nat>) {
    && (forall id :: id in ids ==> id in queryList && queryList[id].nextRetry == t)
    && NoDup(ids)
  }

  ghost predicate Scheduled(byTime: map<nat, seq<nat>>, id: nat) {
    exists t :: t in byTime && id in byTime[t]
  }

  // No id is scheduled that was not before.
  ghost predicate NoneRevived(was: map<nat, seq<nat>>, byTime: map<nat, seq<nat>>) {
    forall id :: Scheduled(byTime, id) ==> Scheduled(was, id)
  }

  // A live query that no bucket holds, left alone but for the clients that join and leave it.
  ghost predicate Forgotten(q: Query, queryList: map<nat, Query>, byTime: map<nat, seq<nat>>, id: nat) {
    && id in queryList && !Scheduled(byTime, id)
    && queryList[id] == q.(http := queryList[id].http, https := queryList[id].https)
  }

  // Every query that was live and in no bucket is so still, but for the one named.
  ghost predicate StillForgotten(was: map<nat, Query>, wasTimes: map<nat, seq<nat>>,
                                 queryList: map<nat, Query>, byTime: map<nat, seq<nat>>, but: set<nat>) {
    forall id :: id in was && !Scheduled(wasTimes, id) && id !in but ==> Forgotten(was[id], queryList, byTime, id)
  }

  function Push<K, V>(index: map<K, seq<V>>, key: K, value: V): (r: map<K, seq<V>>)
  {
    index[key := (if key in index then index[key] else []) + [value]]
  }

  // addQuery keeps the tables in agreement exactly when the id is not in use.
  lemma AddKeepsIndex(queryList: map<nat, Query>, byHost: map<string, nat>, byTime: map<nat, seq<nat>>, id: nat, q: Query)
    requires Indexed(queryList, byHost, byTime) && q.host !in byHost
    ensures id !in queryList <==>
      Indexed(queryList[id := q], byHost[q.host := id], Push<nat, nat>(byTime, q.nextRetry, id))
  {
    var queries, hosts, times := queryList[id := q], byHost[q.host := id], Push<nat, nat>(byTime, q.nextRetry, id);
    if id in queryList {
      var h := queryList[id].host;
      assert hosts[h] == id && queries[id].host != h;
    } else {
      forall t | t in times ensures Bucket(queries, t, times[t]) {
        if t in byTime { assert Bucket(queryList, t, byTime[t]); }
      }
    }
  }

  lemma RemoveKeepsHosts(queryList: map<nat, Query>, byHost: map<string, nat>, id: nat)
    requires HostsOk(queryList, byHost) && id in queryList
    ensures HostsOk(queryList - {id}, byHost - {queryList[id].host})
  {
  }

  // removeQuery keeps the tables in agreement, and leaves another query scheduled exactly
  // when that one was due at another time: the whole bucket goes.
  lemma RemoveKeepsIndex(queryList: map<nat, Query>, byHost: map<string, nat>, byTime: map<nat, seq<nat>>, id: nat)
    requires Indexed(queryList, byHost, byTime) && id in queryList
    ensures Indexed(queryList - {id}, byHost - {queryList[id].host}, byTime - {queryList[id].nextRetry})
    ensures forall other :: other in queryList && Scheduled(byTime, other) ==>
      (Scheduled(byTime - {queryList[id].nextRetry}, other) <==> queryList[other].nextRetry != queryList[id].nextRetry)
  {
    var queries, due := queryList - {id}, queryList[id].nextRetry;
    var times := byTime - {due};
    forall t | t in times ensures Bucket(queries, t, times[t]) {
      assert Bucket(queryList, t, byTime[t]);
    }
    forall other | other in queryList && Scheduled(byTime, other)
      ensures Scheduled(times, other) <==> queryList[other].nextRetry != due
    {
      var t :| t in byTime && other in byTime[t];
      assert Bucket(queryList, t, byTime[t]);
      if queryList[other].nextRetry != due {
        assert t in times && other in times[t];
      }
      if Scheduled(times, other) {
        var u :| u in times && other in times[u];
        assert Bucket(queryList, u, byTime[u]);
      }
    }
  }

  // A second host under an id in use: the first host's query is overwritten.
  lemma AddBreaks()
    ensures var queryList, byHost, byTime := map[1 := Query("a", [7], [], 0, 5)], map["a" := 1], map[5 := [1]];
      var q := Query("b", [8], [], 0, 9);
      && Indexed(queryList, byHost, byTime)
      && !Indexed(queryList[1 := q], byHost["b" := 1], Push<nat, nat>(byTime, 9, 1))
  {
    var queryList, byHost, byTime := map[1 := Query("a", [7], [], 0, 5)], map["a" := 1], map[5 := [1]];
    AddKeepsIndex(queryList, byHost, byTime, 1, Query("b", [8], [], 0, 9));
  }

  // Two queries of one second: with the first one answered, no bucket holds the second.
  lemma RemoveUnschedules()
    ensures var queryList := map[1 := Query("a", [7], [], 0, 5), 2 := Query("b", [8], [], 0, 5)];
      var byHost, byTime := map["a" := 1, "b" := 2], map[5 := [1, 2]];
      && Indexed(queryList, byHost, byTime) && Scheduled(byTime, 2)
      && 2 in queryList - {1} && !Scheduled(byTime - {5}, 2)
  {
    var byTime := map[5 := [1, 2]];
    assert 5 in byTime && 2 in byTime[5];
  }

  // ---------------------------------------------------------------- the clients that wait

  function Clients(q: Query): multiset<Client>
  {
    multiset(q.http) + multiset(q.https)
  }

  // Every client waiting for one of the queries ids.
  function Waiting(ids: seq<nat>, queryList: map<nat, Query>): multiset<Client>
    requires forall id :: id in ids ==> id in queryList
  {
    if ids == [] then multiset{} else Clients(queryList[ids[0]]) + Waiting(ids[1..], queryList)
  }

  lemma {:induction false} WaitingElsewhere(ids: seq<nat>, queryList: map<nat, Query>, other: map<nat, Query>)
    requires forall id :: id in ids ==> id in queryList && id in other && Clients(other[id]) == Clients(queryList[id])
    ensures Waiting(ids, other) == Waiting(ids, queryList)
  {
    if ids != [] {
      WaitingElsewhere(ids[1..], queryList, other);
    }
  }

  lemma {:induction false} WaitingAdd(ids: seq<nat>, queryList: map<nat, Query>, id: nat, q: Query)
    requires (forall i :: i in ids ==> i in queryList) && id !in ids
    ensures Waiting(ids + [id], queryList[id := q]) == Waiting(ids, queryList) + Clients(q)
  {
    if ids == [] {
      assert Waiting([], queryList[id := q]) == multiset{};
    } else {
      WaitingAdd(ids[1..], queryList, id, q);
      assert (ids + [id])[1..] == ids[1..] + [id];
    }
  }

  lemma {:induction false} WaitingUpdate(ids: seq<nat>, queryList: map<nat, Query>, id: nat, q: Query)
    requires (forall i :: i in ids ==> i in queryList) && NoDup(ids) && id in ids
    ensures Waiting(ids, queryList[id := q]) + Clients(queryList[id]) == Waiting(ids, queryList) + Clients(q)
  {
    hide Clients;
    var rest, queries := ids[1..], queryList[id := q];
    assert ids == [ids[0]] + rest;
    if ids[0] == id {
      WaitingElsewhere(rest, queryList, queries);
      assert Waiting(ids, queries) == Clients(q) + Waiting(rest, queryList);
    } else {
      WaitingUpdate(rest, queryList, id, q);
      var c := Clients(queryList[ids[0]]);
      assert Waiting(ids, queries) == c + Waiting(rest, queries);
      assert Waiting(ids, queryList) == c + Waiting(rest, queryList);
      assert c + Waiting(rest, queries) + Clients(queryList[id]) == c + (Waiting(rest, queries) + Clients(queryList[id]));
    }
  }

  lemma {:induction false} WaitingRemove(ids: seq<nat>, queryList: map<nat, Query>, id: nat)
    requires (forall i :: i in ids ==> i in queryList) && NoDup(ids) && id in ids
    ensures forall i :: i in Without(ids, id) ==> i in queryList - {id}
    ensures Waiting(Without(ids, id), queryList - {id}) + Clients(queryList[id]) == Waiting(ids, queryList)
  {
    WithoutFacts(ids, id);
    if ids[0] == id {
      WaitingElsewhere(ids[1..], queryList, queryList - {id});
    } else {
      assert id in ids[1..];
      WaitingRemove(ids[1..], queryList, id);
      var r := Without(ids[1..], id);
      assert Without(ids, id) == [ids[0]] + r;
      assert ([ids[0]] + r)[1..] == r;
    }
  }

  // ---------------------------------------------------------------- the cache index

  // Every cached host is in the bucket of its own expiry date, once, and nowhere else.
  ghost predicate CacheOk(cache: map<string, CacheEntry>, byDate: map<nat, seq<string>>) {
    && (forall h :: h in cache ==> cache[h].outdatedDate in byDate && h in byDate[cache[h].outdatedDate])
    && (forall t :: t in byDate ==> DateBucket(cache, t, byDate[t]))
  }

  ghost predicate DateBucket(cache: map<string, CacheEntry>, t: nat, hosts: seq<string>) {
    NoDup(hosts) && forall h :: h in hosts ==> h in cache && cache[h].outdatedDate == t
  }

  lemma CacheDrop(cache: map<string, CacheEntry>, byDate: map<nat, seq<string>>, host: string)
    requires CacheOk(cache, byDate) && host in cache
    ensures var d := cache[host].outdatedDate;
      CacheOk(cache - {host}, byDate[d := Without(byDate[d], host)])
  {
    var d := cache[host].outdatedDate;
    var left := Without(byDate[d], host);
    assert DateBucket(cache, d, byDate[d]);
    WithoutFacts(byDate[d], host);
    var dates := byDate[d := left];
    forall t | t in dates ensures DateBucket(cache - {host}, t, dates[t]) {
      assert DateBucket(cache, t, byDate[t]);
    }
  }

  lemma CacheInsert(cache: map<string, CacheEntry>, byDate: map<nat, seq<string>>, host: string, entry: CacheEntry)
    requires CacheOk(cache, byDate) && host !in cache
    ensures CacheOk(cache[host := entry], Push<nat, string>(byDate, entry.outdatedDate, host))
  {
    var dates := Push<nat, string>(byDate, entry.outdatedDate, host);
    forall t | t in dates ensures DateBucket(cache[host := entry], t, dates[t]) {
      if t in byDate { assert DateBucket(cache, t, byDate[t]); }
    }
  }

  // The expiry index without one host.
  function WithoutHost(cache: map<string, CacheEntry>, byDate: map<nat, seq<string>>, host: string): map<nat, seq<string>>
    requires host in cache ==> cache[host].outdatedDate in byDate
  {
    if host in cache then
      var d := cache[host].outdatedDate;
      byDate[d := Without(byDate[d], host)]
    else byDate
  }

  lemma CacheReplace(cache: map<string, CacheEntry>, byDate: map<nat, seq<string>>, host: string, entry: CacheEntry)
    requires CacheOk(cache, byDate)
    ensures CacheOk(cache[host := entry], Push<nat, string>(WithoutHost(cache, byDate, host), entry.outdatedDate, host))
    ensures |cache[host := entry]| <= |cache| + 1
  {
    hide CacheOk, Push, Without;
    CacheDates(cache, byDate);
    var before := cache - {host};
    if host in cache {
      CacheDrop(cache, byDate, host);
      assert cache[host := entry].Keys == cache.Keys;
    } else {
      assert before == cache;
      assert cache[host := entry].Keys == cache.Keys + {host};
    }
    CacheInsert(before, WithoutHost(cache, byDate, host), host, entry);
    assert before[host := entry] == cache[host := entry];
  }

  lemma CacheDates(cache: map<string, CacheEntry>, byDate: map<nat, seq<string>>)
    requires CacheOk(cache, byDate)
    ensures forall h :: h in cache ==> cache[h].outdatedDate in byDate
  {
  }

  function Hosts(hosts: seq<string>): set<string>
  {
    set h | h in hosts
  }

  lemma CacheExpire(cache: map<string, CacheEntry>, byDate: map<nat, seq<string>>, t: nat)
    requires CacheOk(cache, byDate) && t in byDate
    ensures CacheOk(cache - Hosts(byDate[t]), byDate - {t})
    ensures forall h :: h in Hosts(byDate[t]) <==> h in cache && cache[h].outdatedDate == t
  {
    assert DateBucket(cache, t, byDate[t]);
    forall u | u in byDate - {t} ensures DateBucket(cache - Hosts(byDate[t]), u, byDate[u]) {
      assert DateBucket(cache, u, byDate[u]);
    }
  }

  lemma FewerKeys(cache: map<string, CacheEntry>, gone: set<string>)
    ensures |cache - gone| <= |cache|
  {
    assert cache.Keys == (cache - gone).Keys + (cache.Keys * gone);
  }

  // addCacheEntry's expiry date: at least five minutes ahead, at most a day.
  function ExpiryDate(status: StatusEntry, ttl: nat, now: nat): (r: nat)
    ensures now + 300 <= r <= now + 86400
  {
    if ttl < 24 * 3600 then
      if ttl < 5 * 60 then
        if status == Right then now + 5 * 60 else now + 3600
      else now + ttl
    else now + 24 * 3600
  }

  function Clamp(x: nat, lo: nat, hi: nat): nat {
    if x < lo then lo else if x > hi then hi else x
  }

  // The answer's own time to live counts, within five minutes and a day; only a failure with
  // less than five minutes is kept longer, for an hour.
  lemma ExpiryClamps(status: StatusEntry, ttl: nat, now: nat)
    ensures ExpiryDate(status, ttl, now) == now + if ttl < 300 && status != Right then 3600 else Clamp(ttl, 300, 86400)
  {
  }

  // ---------------------------------------------------------------- ordered keys

  predicate IsLeast(s: set<nat>, m: nat) {
    m in s && forall x :: x in s ==> m <= x
  }

  lemma {:induction false} LeastExists(s: set<nat>)
    requires s != {}
    ensures exists m :: m in s && IsLeast(s, m)
    decreases |s|
  {
    var y :| y in s;
    var rest := s - {y};
    if rest == {} {
      assert IsLeast({y}, y) && s == {y};
    } else {
      LeastExists(rest);
      var m :| m in rest && IsLeast(rest, m);
      var least := if m < y then m else y;
      forall x | x in s ensures least <= x {
        if x != y { assert x in rest; }
      }
      assert IsLeast(s, least);
    }
  }

  ghost predicate Increasing(s: seq<nat>) {
    forall i, j :: 0 <= i < j < |s| ==> s[i] < s[j]
  }

  // The keys of an ordered map, in the order of its iterator.
  method SortedKeys(keys: set<nat>) returns (r: seq<nat>)
    ensures Increasing(r) && forall k :: k in r <==> k in keys
  {
    r := [];
    var rest := keys;
    while rest != {}
      invariant Increasing(r) && rest <= keys
      invariant forall k :: k in keys <==> k in r || k in rest
      invariant forall i, x :: 0 <= i < |r| && x in rest ==> r[i] < x
      decreases |rest|
    {
      LeastExists(rest);
      var m :| m in rest && IsLeast(rest, m);
      r := r + [m];
      rest := rest - {m};
    }
  }

  // ---------------------------------------------------------------- what clients were told

  function Notices(clients: seq<Client>, kind: StatusEntry, ip: Ip, https: bool): (r: seq<Notice>)
  {
    if clients == [] then [] else [Notice(clients[0], kind, ip, https)] + Notices(clients[1..], kind, ip, https)
  }

  function ToldTo(told: seq<Notice>): (r: multiset<Client>)
  {
    if told == [] then multiset{} else multiset{told[0].client} + ToldTo(told[1..])
  }

  lemma {:induction false} ToldMore(told: seq<Notice>, more: seq<Notice>)
    ensures ToldTo(told + more) == ToldTo(told) + ToldTo(more)
  {
    if told == [] {
      assert told + more == more;
    } else {
      assert (told + more)[1..] == told[1..] + more;
      ToldMore(told[1..], more);
    }
  }

  lemma {:induction false} NoticesTold(clients: seq<Client>, kind: StatusEntry, ip: Ip, https: bool)
    ensures ToldTo(Notices(clients, kind, ip, https)) == multiset(clients)
  {
    if clients != [] {
      var rest := clients[1..];
      NoticesTold(rest, kind, ip, https);
      assert multiset(clients) == multiset{clients[0]} + multiset(rest) by { assert clients == [clients[0]] + rest; }
      assert clients == [clients[0]] + rest;
      var first, more := Notice(clients[0], kind, ip, https), Notices(rest, kind, ip, https);
      assert ([first] + more)[1..] == more;
    }
  }

  lemma {:induction false} NoticesMore(clients: seq<Client>, c: Client, kind: StatusEntry, ip: Ip, https: bool)
    ensures Notices(clients + [c], kind, ip, https) == Notices(clients, kind, ip, https) + [Notice(c, kind, ip, https)]
  {
    if clients == [] {
      assert [c][1..] == [];
    } else {
      assert (clients + [c])[1..] == clients[1..] + [c];
      NoticesMore(clients[1..], c, kind, ip, https);
    }
  }

  // Only errors were told since.
  ghost predicate OnlyErrors(was: seq<Notice>, told: seq<Notice>) {
    was <= told && forall i :: |was| <= i < |told| ==> told[i].kind == Error
  }

  lemma {:induction false} NoticesKind(clients: seq<Client>, kind: StatusEntry, ip: Ip, https: bool)
    ensures forall n :: n in Notices(clients, kind, ip, https) ==> n.kind == kind
  {
    if clients != [] {
      NoticesKind(clients[1..], kind, ip, https);
    }
  }

  lemma NoErrors(told: seq<Notice>)
    ensures OnlyErrors(told, told)
  {
  }

  lemma ErrorsJoin(was: seq<Notice>, mid: seq<Notice>, told: seq<Notice>)
    requires OnlyErrors(was, mid) && OnlyErrors(mid, told)
    ensures OnlyErrors(was, told)
  {
  }

  lemma ErrorsTold(was: seq<Notice>, told: seq<Notice>, q: Query)
    requires OnlyErrors(was, told)
    ensures OnlyErrors(was, told + ToldAll(q, Error, []))
  {
    NoticesKind(q.http, Error, [], false);
    NoticesKind(q.https, Error, [], true);
    var more := ToldAll(q, Error, []);
    assert forall n :: n in more ==> n.kind == Error;
    forall i | |was| <= i < |told + more| ensures (told + more)[i].kind == Error {
      if i >= |told| { assert (told + more)[i] in more; }
    }
  }

  // Every client that asked is told, waits or was cancelled: nobody twice, nobody forgotten.
  ghost predicate Conserved(asked: multiset<Client>, told: seq<Notice>, cancelled: multiset<Client>,
                            ids: seq<nat>, queryList: map<nat, Query>) {
    && NoDup(ids) && (forall id :: id in ids <==> id in queryList)
    && asked == ToldTo(told) + Waiting(ids, queryList) + cancelled
  }

  lemma ConservedFinish(asked: multiset<Client>, told: seq<Notice>, cancelled: multiset<Client>,
                        ids: seq<nat>, queryList: map<nat, Query>, id: nat, kind: StatusEntry, ip: Ip)
    requires Conserved(asked, told, cancelled, ids, queryList) && id in queryList
    ensures Conserved(asked, told + ToldAll(queryList[id], kind, ip), cancelled, Without(ids, id), queryList - {id})
  {
    var q := queryList[id];
    var http, https := Notices(q.http, kind, ip, false), Notices(q.https, kind, ip, true);
    WithoutFacts(ids, id);
    WaitingRemove(ids, queryList, id);
    ToldMore(told, http + https);
    ToldMore(http, https);
    NoticesTold(q.http, kind, ip, false);
    NoticesTold(q.https, kind, ip, true);
  }

  // The callbacks of a finished query: its http clients, then its https clients.
  function ToldAll(q: Query, kind: StatusEntry, ip: Ip): seq<Notice>
  {
    Notices(q.http, kind, ip, false) + Notices(q.https, kind, ip, true)
  }

  lemma ConservedAdd(asked: multiset<Client>, told: seq<Notice>, cancelled: multiset<Client>,
                     ids: seq<nat>, queryList: map<nat, Query>, id: nat, q: Query)
    requires Conserved(asked, told, cancelled, ids, queryList) && id !in queryList
    ensures Conserved(asked + Clients(q), told, cancelled, ids + [id], queryList[id := q])
  {
    hide Clients, Waiting, ToldTo;
    WaitingAdd(ids, queryList, id, q);
    Balance(asked, ToldTo(told), cancelled, Waiting(ids, queryList), Waiting(ids + [id], queryList[id := q]),
            multiset{}, Clients(q), Clients(q), multiset{});
  }

  // A query whose clients change by those that joined and those that left.
  lemma ConservedUpdate(asked: multiset<Client>, told: seq<Notice>, cancelled: multiset<Client>,
                        ids: seq<nat>, queryList: map<nat, Query>, id: nat, q: Query,
                        joined: multiset<Client>, left: multiset<Client>)
    requires Conserved(asked, told, cancelled, ids, queryList) && id in queryList
    requires Clients(q) + left == Clients(queryList[id]) + joined
    ensures Conserved(asked + joined, told, cancelled + left, ids, queryList[id := q])
  {
    hide Clients, Waiting, ToldTo;
    WaitingUpdate(ids, queryList, id, q);
    Balance(asked, ToldTo(told), cancelled, Waiting(ids, queryList), Waiting(ids, queryList[id := q]),
            Clients(queryList[id]), Clients(q), joined, left);
  }

  lemma Balance(asked: multiset<Client>, told: multiset<Client>, cancelled: multiset<Client>,
                before: multiset<Client>, after: multiset<Client>,
                had: multiset<Client>, has: multiset<Client>, joined: multiset<Client>, left: multiset<Client>)
    requires asked == told + before + cancelled
    requires after + had == before + has && has + left == had + joined
    ensures asked + joined == told + after + (cancelled + left)
  {
    forall x ensures (asked + joined)[x] == (told + after + (cancelled + left))[x] {
      assert asked[x] == (told + before + cancelled)[x];
      assert (after + had)[x] == (before + has)[x] && (has + left)[x] == (had + joined)[x];
    }
  }

  lemma ConservedTell(asked: multiset<Client>, told: seq<Notice>, cancelled: multiset<Client>,
                      ids: seq<nat>, queryList: map<nat, Query>, n: Notice)
    requires Conserved(asked, told, cancelled, ids, queryList)
    ensures Conserved(asked + multiset{n.client}, told + [n], cancelled, ids, queryList)
  {
    ToldMore(told, [n]);
    assert [n][1..] == [];
  }

  // A client that asked once is told at most once, and no longer waits once told.
  lemma ToldOnce(asked: multiset<Client>, told: seq<Notice>, cancelled: multiset<Client>,
                 ids: seq<nat>, queryList: map<nat, Query>, c: Client)
    requires Conserved(asked, told, cancelled, ids, queryList) && asked[c] == 1
    ensures ToldTo(told)[c] + Waiting(ids, queryList)[c] + cancelled[c] == 1
  {
    assert asked[c] == (ToldTo(told) + Waiting(ids, queryList) + cancelled)[c];
  }

  // ---------------------------------------------------------------- the answers of a reply

  // A byte of the receive buffer; it reads as zero past the buffer's end.
  function At(buffer: seq<Words.byte>, pos: nat): Words.byte {
    if pos < |buffer| then buffer[pos] else 0
  }

  // read16Bits: the value, zero when the datagram is too short, and the new position.
  function Read16(buffer: seq<Words.byte>, size: nat, pos: nat): (r: (nat, nat))
    ensures pos <= r.1 <= pos + 2 && (r.0 != 0 ==> r.1 == pos + 2 <= size)
  {
    if pos + 2 <= size then (At(buffer, pos) * 256 + At(buffer, pos + 1), pos + 2) else (0, pos)
  }

  function Read32(buffer: seq<Words.byte>, pos: nat): nat {
    At(buffer, pos) * 0x1000000 + At(buffer, pos + 1) * 0x10000 + At(buffer, pos + 2) * 256 + At(buffer, pos + 3)
  }

  // canAddToPos: the new position, the old one when it would pass the end.
  function Skip(size: nat, pos: nat, n: nat): nat {
    if pos + n > size then pos else pos + n
  }

  function Address(buffer: seq<Words.byte>, pos: nat): (r: Ip)
    ensures |r| == 16
  {
    seq<Words.byte>(16, (i: nat) => At(buffer, pos + i))
  }

  const INCLUDE: seq<Words.byte> := [0x28, 0x03, 0x19, 0x20]
  const EXCLUDE: seq<Words.byte> :=
    [0x28, 0x03, 0x19, 0x20, 0x00, 0x00, 0x00, 0x00, 0xb4, 0xb2, 0x5f, 0x61, 0xd3, 0x7f]
  const NO_ADDRESS: Ip := [0, 0, 0, 0, 0, 0, 0, 0, 0, 0, 0, 0, 0, 0, 0, 0]

  // An address is served when it is in the included range and not the excluded machine.
  predicate Served(ip: Ip) {
    INCLUDE <= ip && !(EXCLUDE <= ip)
  }

  // What a list of answers says: nothing to act on, no usable answer, or the first address.
  datatype Verdict = Silent | Failed | Found(ttl: nat, ip: Ip)

  // The answers from the index-th on, read at pos.
  function Scan(buffer: seq<Words.byte>, size: nat, pos: nat, index: nat, answers: nat): Verdict
    decreases answers - index
  {
    if index >= answers then Failed
    else
      var (name, p0) := Read16(buffer, size, pos);
      if name == 0 then Silent
      else
        var (kind, p1) := Read16(buffer, size, p0);
        if kind == 0 then Failed
        else if kind == 0x001c then
          var (classIn, p2) := Read16(buffer, size, p1);
          if classIn == 0 then Silent
          else if classIn != 1 then Scan(buffer, size, p2, index + 1, answers)
          else if p2 + 4 > size then Silent
          else
            var (datasize, p3) := Read16(buffer, size, p2 + 4);
            if datasize != 16 then Silent else Found(Read32(buffer, p2), Address(buffer, p3))
        else
          var (datasize, p2) := Read16(buffer, size, Skip(size, p1, 6));
          if datasize == 0 then Silent else Scan(buffer, size, Skip(size, p2, datasize), index + 1, answers)
  }

  // What the verdict makes of the query's clients, and of the cache.
  function Outcome(v: Verdict): (r: (StatusEntry, nat, Ip))
    requires !v.Silent?
  {
    match v
    case Failed => (Error, 3600, NO_ADDRESS)
    case Found(ttl, ip) => (if Served(ip) then Right else Wrong, ttl, ip)
  }

  // ---------------------------------------------------------------- the resolver

  class Dns {
    var queryList: map<nat, Query>
    var queryListByHost: map<string, nat>
    var queryByNextDueTime: map<nat, seq<nat>>
    var cache: map<string, CacheEntry>
    var cacheByOutdatedDate: map<nat, seq<string>>
    var clientInProgress: int
    var increment: nat
    var clock: nat                    // the last time that was read
    var told: seq<Notice>             // every callback made so far
    ghost var asked: multiset<Client>
    ghost var cancelled: multiset<Client>
    ghost var ids: seq<nat>           // the ids of queryList

    // What holds even while checkQueries is at work.
    ghost predicate Core()
      reads this`queryList, this`queryListByHost, this`told, this`asked, this`cancelled, this`ids, this`increment
    {
      && HostsOk(queryList, queryListByHost)
      && Conserved(asked, told, cancelled, ids, queryList)
      && 1 <= increment <= 65534
    }

    ghost predicate CacheValid()
      reads this`cache, this`cacheByOutdatedDate, this`clock
    {
      && CacheOk(cache, cacheByOutdatedDate) && |cache| <= 5001
      && forall h :: h in cache ==> cache[h].outdatedDate <= clock + 86400
    }

    ghost predicate Valid()
      reads this
    {
      Core() && TimesOk(queryList, queryByNextDueTime) && CacheValid()
    }

    constructor (now: nat)
      ensures Valid() && queryList == map[] && cache == map[] && told == [] && clock == now && clientInProgress == 0
      ensures queryListByHost == map[] && queryByNextDueTime == map[] && increment == 1
    {
      queryList, queryListByHost, queryByNextDueTime := map[], map[], map[];
      cache, cacheByOutdatedDate := map[], map[];
      clientInProgress, increment, clock, told := 0, 1, now, [];
      asked, cancelled, ids := multiset{}, multiset{}, [];
    }

    // time(NULL): any time that is not before the last one read.
    method Time() returns (t: nat)
      modifies this`clock
      ensures t == clock >= old(clock)
      ensures old(CacheValid()) ==> CacheValid()
    {
      assert clock <= clock;
      t :| clock <= t;
      clock := t;
    }

    method AddQuery(id: nat, q: Query)
      requires Core() && TimesOk(queryList, queryByNextDueTime) && id !in queryList && q.host !in queryListByHost
      modifies this`queryList, this`queryListByHost, this`queryByNextDueTime, this`asked, this`ids
      ensures Core() && TimesOk(queryList, queryByNextDueTime)
      ensures queryList == old(queryList)[id := q] && queryListByHost == old(queryListByHost)[q.host := id]
      ensures queryByNextDueTime == Push<nat, nat>(old(queryByNextDueTime), q.nextRetry, id)
      ensures asked == old(asked) + Clients(q)
    {
      hide Conserved, Clients;
      AddKeepsIndex(queryList, queryListByHost, queryByNextDueTime, id, q);
      ConservedAdd(asked, told, cancelled, ids, queryList, id, q);
      queryList := queryList[id := q];
      queryListByHost := queryListByHost[q.host := id];
      queryByNextDueTime := Push<nat, nat>(queryByNextDueTime, q.nextRetry, id);
      asked, ids := asked + Clients(q), ids + [id];
    }

    // dnsError, dnsWrong or dnsRight of every client of one list.
    method Tell(clients: seq<Client>, kind: StatusEntry, ip: Ip, https: bool)
      modifies this`told
      ensures told == old(told) + Notices(clients, kind, ip, https)
    {
      var i := 0;
      assert clients[..0] == [];
      while i < |clients|
        invariant i <= |clients| && told == old(told) + Notices(clients[..i], kind, ip, https)
      {
        NoticesMore(clients[..i], clients[i], kind, ip, https);
        assert clients[..i + 1] == clients[..i] + [clients[i]];
        told := told + [Notice(clients[i], kind, ip, https)];
        i := i + 1;
      }
      assert clients[..i] == clients;
    }

    // Every client of a query is told, then removeQuery: the whole bucket of its due time goes.
    method Finish(id: nat, kind: StatusEntry, ip: Ip)
      requires Core() && id in queryList
      modifies this`queryList, this`queryListByHost, this`queryByNextDueTime, this`told, this`ids
      ensures Core() && queryList == old(queryList) - {id}
      ensures queryListByHost == old(queryListByHost) - {old(queryList)[id].host}
      ensures queryByNextDueTime == old(queryByNextDueTime) - {old(queryList)[id].nextRetry}
      ensures told == old(told) + ToldAll(old(queryList)[id], kind, ip)
    {
      hide Conserved, Notices, HostsOk;
      var q := queryList[id];
      RemoveKeepsHosts(queryList, queryListByHost, id);
      ConservedFinish(asked, told, cancelled, ids, queryList, id, kind, ip);
      Tell(q.http, kind, ip, false);
      Tell(q.https, kind, ip, true);
      assert told == old(told) + ToldAll(q, kind, ip);
      queryByNextDueTime := queryByNextDueTime - {q.nextRetry};
      queryListByHost := queryListByHost - {q.host};
      queryList := queryList - {id};
      ids := Without(ids, id);
    }

    // addCacheEntry: nothing once more than 5000 hosts are cached; else the host's entry is
    // replaced and moves to the bucket of its new expiry date.
    method AddCacheEntry(status: StatusEntry, ttl: nat, host: string, ip: Ip)
      requires CacheValid()
      modifies this`cache, this`cacheByOutdatedDate, this`clock
      ensures CacheValid() && clock >= old(clock)
      ensures |old(cache)| > 5000 ==> cache == old(cache) && cacheByOutdatedDate == old(cacheByOutdatedDate)
      ensures |old(cache)| <= 5000 ==>
        cache == old(cache)[host := CacheEntry(ip, ExpiryDate(status, ttl, clock), status)]
    {
      hide CacheOk, Push, Without;
      if |cache| > 5000 {
        return;
      }
      CacheDates(cache, cacheByOutdatedDate);
      ghost var byDate := WithoutHost(cache, cacheByOutdatedDate, host);
      if host in cache {
        EraseHost(cache[host].outdatedDate, host);
      }
      var now := Time();
      var entry := CacheEntry(ip, ExpiryDate(status, ttl, now), status);
      CacheReplace(cache, old(cacheByOutdatedDate), host, entry);
      cache := cache[host := entry];
      cacheByOutdatedDate := Push<nat, string>(cacheByOutdatedDate, entry.outdatedDate, host);
    }

    // The index loop that takes a host out of one bucket.
    method EraseHost(date: nat, host: string)
      requires date in cacheByOutdatedDate
      modifies this`cacheByOutdatedDate
      ensures cacheByOutdatedDate == old(cacheByOutdatedDate)[date := Without(old(cacheByOutdatedDate)[date], host)]
    {
      var list := cacheByOutdatedDate[date];
      var i := 0;
      while i < |list|
        invariant i <= |list| && host !in list[..i]
      {
        if list[i] == host {
          WithoutAt(list, host, i);
          cacheByOutdatedDate := cacheByOutdatedDate[date := list[..i] + list[i + 1..]];
          return;
        }
        i := i + 1;
      }
      WithoutAbsent(list, host);
    }

    // One bucket of cleanCache: every host in it leaves the cache.
    method ExpireBucket(t: nat, hosts: seq<string>)
      requires CacheValid() && t in cacheByOutdatedDate && hosts == cacheByOutdatedDate[t]
      modifies this`cache, this`cacheByOutdatedDate
      ensures CacheValid() && cacheByOutdatedDate == old(cacheByOutdatedDate) - {t}
      ensures forall h :: h in cache <==> h in old(cache) && old(cache)[h].outdatedDate != t
      ensures forall h :: h in cache ==> cache[h] == old(cache)[h]
    {
      hide CacheOk, Hosts;
      CacheExpire(cache, cacheByOutdatedDate, t);
      FewerKeys(cache, Hosts(hosts));
      cache := cache - Hosts(hosts);
      cacheByOutdatedDate := cacheByOutdatedDate - {t};
    }

    // cleanCache: the buckets in order of date, up to the first that is still to come.
    // Exactly the entries expired by the last time read are gone.
    method CleanCache()
      requires CacheValid()
      modifies this`cache, this`cacheByOutdatedDate, this`clock
      ensures CacheValid() && clock >= old(clock)
      ensures Unexpired(old(cache), cache, clock)
    {
      hide CacheOk, Swept, Increasing;
      var copy := cacheByOutdatedDate;
      var dates := SortedKeys(copy.Keys);
      SweepStarts(copy, dates);
      var i := 0;
      while i < |dates|
        invariant i <= |dates| && CacheValid() && clock >= old(clock)
        invariant Swept(copy, cacheByOutdatedDate, dates, i)
        invariant forall h :: h in cache ==> h in old(cache) && cache[h] == old(cache)[h]
        invariant forall h :: h in old(cache) && h !in cache ==> old(cache)[h].outdatedDate <= clock
      {
        var t := dates[i];
        SweepGoesOn(copy, cacheByOutdatedDate, dates, i);
        var now := Time();
        if t > now {
          LaterDates(cache, copy, cacheByOutdatedDate, dates, i, now);
          return;
        }
        ExpireBucket(t, copy[t]);
        i := i + 1;
      }
      LaterDates(cache, copy, cacheByOutdatedDate, dates, i, clock);
    }

    // get: join the query of the host, else answer from the cache, else send a new query
    // unless too many are unanswered. Returns whether the client will be told. When the new
    // query's id is in use, the method stops there and says so.
    method Get(client: Client, host: string, https: bool) returns (ok: bool, clash: bool)
      requires Valid()
      modifies this
      ensures Valid() && clock >= old(clock) && cancelled == old(cancelled) && cache == old(cache)
      ensures asked == if ok then old(asked) + multiset{client} else old(asked)
      ensures host in old(queryListByHost) ==>
        && ok && told == old(told) && queryListByHost == old(queryListByHost)
        && queryByNextDueTime == old(queryByNextDueTime)
        && var id := old(queryListByHost)[host]; queryList == old(queryList)[id := Joined(old(queryList)[id], client, https)]
      ensures host !in old(queryListByHost) && host in old(cache) && old(cache)[host].outdatedDate > clock ==>
        && ok && queryList == old(queryList) && queryListByHost == old(queryListByHost)
        && queryByNextDueTime == old(queryByNextDueTime)
        && told == old(told) + [Answer(old(cache)[host], client, https)]
      ensures host !in old(queryListByHost) && (host !in old(cache) || old(cache)[host].outdatedDate <= old(clock)) ==>
        && told == old(told)
        && (ok <==> old(clientInProgress) <= 1000 && old(increment) !in old(queryList))
        && (clash <==> old(clientInProgress) <= 1000 && old(increment) in old(queryList))
        && (ok ==>
            && queryList == old(queryList)[old(increment) := NewQuery(client, host, https, clock + 5)]
            && queryListByHost == old(queryListByHost)[host := old(increment)]
            && queryByNextDueTime == Push<nat, nat>(old(queryByNextDueTime), clock + 5, old(increment))
            && clientInProgress == old(clientInProgress) + 1)
      ensures clash ==>
        && !ok && increment in queryList && host !in queryListByHost && clientInProgress <= 1000
        && (host in cache ==> cache[host].outdatedDate <= clock)
      ensures !ok ==>
        && queryList == old(queryList) && queryListByHost == old(queryListByHost) && told == old(told)
        && queryByNextDueTime == old(queryByNextDueTime)
      ensures increment ==
        if old(queryList).Keys == queryList.Keys then old(increment)
        else if old(increment) == 65534 then 1 else old(increment) + 1
      ensures StillForgotten(old(queryList), old(queryByNextDueTime), queryList, queryByNextDueTime, {})
    {
      hide Conserved, Waiting, CacheOk, HostsOk, TimesOk, Clients, Joined, Push, StillForgotten;
      AllForgotten(queryList, queryByNextDueTime, {});
      ok, clash := true, false;
      if host in queryListByHost {
        var queryId := queryListByHost[host];
        HostIsLive(queryList, queryListByHost, host);
        if queryId in queryList {
          JoinedForgotten(queryList, queryByNextDueTime, queryId, client, https);
          Join(queryId, client, https);
          assert old(queryList).Keys == queryList.Keys;
          return;
        } else {
          assert false;   // the repair that the program makes here is never needed
        }
      }
      var hit := AnswerFromCache(client, host, https);
      if hit {
        return;
      }
      if clientInProgress > 1000 {
        ok := false;
        return;
      }
      if increment in queryList {
        ok, clash := false, true;
        return;
      }
      SendQuery(client, host, https);
      SentForgotten(old(queryList), old(queryByNextDueTime), old(increment), queryList[old(increment)]);
      assert old(increment) in queryList.Keys;
    }

    // The cache part of get: an entry that has not expired answers at once. No date is more
    // than a day ahead, so the cut that the program makes in that case never happens.
    method AnswerFromCache(client: Client, host: string, https: bool) returns (hit: bool)
      requires Core() && CacheValid()
      modifies this`cache, this`asked, this`told, this`clock
      ensures Core() && CacheValid() && clock >= old(clock) && cache == old(cache)
      ensures hit ==> host in cache && cache[host].outdatedDate > clock
      ensures !hit ==> host !in cache || cache[host].outdatedDate <= clock
      ensures asked == if hit then old(asked) + multiset{client} else old(asked)
      ensures told == if hit then old(told) + [Answer(cache[host], client, https)] else old(told)
    {
      hide Conserved, Waiting, CacheOk, HostsOk, TimesOk;
      hit := false;
      if host in cache {
        var entry := cache[host];
        var t := Time();
        if entry.outdatedDate > t {
          var maxTime := t + 24 * 3600;
          if entry.outdatedDate > maxTime {
            assert false;
          }
          ConservedTell(asked, told, cancelled, ids, queryList, Answer(entry, client, https));
          asked := asked + multiset{client};
          told := told + [Answer(entry, client, https)];
          hit := true;
        }
      }
    }

    // The last part of get: a new query under the next id.
    method SendQuery(client: Client, host: string, https: bool)
      requires Core() && TimesOk(queryList, queryByNextDueTime) && CacheValid()
      requires increment !in queryList && host !in queryListByHost
      modifies this`queryList, this`queryListByHost, this`queryByNextDueTime, this`asked, this`ids
      modifies this`clientInProgress, this`increment, this`clock
      ensures Core() && TimesOk(queryList, queryByNextDueTime) && CacheValid() && clock >= old(clock)
      ensures asked == old(asked) + multiset{client} && clientInProgress == old(clientInProgress) + 1
      ensures increment == if old(increment) == 65534 then 1 else old(increment) + 1
      ensures queryList == old(queryList)[old(increment) := NewQuery(client, host, https, clock + 5)]
      ensures queryListByHost == old(queryListByHost)[host := old(increment)]
      ensures queryByNextDueTime == Push<nat, nat>(old(queryByNextDueTime), clock + 5, old(increment))
    {
      hide Conserved, Waiting, CacheOk, HostsOk, TimesOk, Push, Clients;
      clientInProgress := clientInProgress + 1;
      var id := increment;
      increment := if id + 1 > 65534 then 1 else id + 1;
      var now := Time();
      AddQuery(id, NewQuery(client, host, https, now + 5));
    }

    // A client joins the query of its host.
    method Join(id: nat, client: Client, https: bool)
      requires Core() && TimesOk(queryList, queryByNextDueTime) && id in queryList
      modifies this`queryList, this`asked
      ensures Core() && TimesOk(queryList, queryByNextDueTime)
      ensures queryList == old(queryList)[id := Joined(old(queryList)[id], client, https)]
      ensures asked == old(asked) + multiset{client}
    {
      hide Conserved, Waiting;
      var q := Joined(queryList[id], client, https);
      ConservedUpdate(asked, told, cancelled, ids, queryList, id, q, multiset{client}, multiset{});
      SameKeys(queryList, queryListByHost, queryByNextDueTime, id, q);
      assert cancelled + multiset{} == cancelled;
      queryList := queryList[id := q];
      asked := asked + multiset{client};
    }

    // cancelClient: the client leaves the list it waits on, if it waits.
    method CancelClient(client: Client, host: string, https: bool)
      requires Valid()
      modifies this`queryList, this`queryListByHost, this`cancelled
      ensures Valid() && told == old(told) && asked == old(asked) && queryListByHost == old(queryListByHost)
      ensures StillForgotten(old(queryList), queryByNextDueTime, queryList, queryByNextDueTime, {})
      ensures host !in queryListByHost ==> queryList == old(queryList) && cancelled == old(cancelled)
      ensures host in queryListByHost ==>
        && queryListByHost[host] in old(queryList)
        && var q := old(queryList)[queryListByHost[host]];
           queryList == old(queryList)[queryListByHost[host] := Departed(q, client, https)] &&
           cancelled == if client in Side(q, https) then old(cancelled) + multiset{client} else old(cancelled)
    {
      hide Conserved, Waiting, CacheOk, HostsOk, TimesOk, Departed, Side, StillForgotten;
      AllForgotten(queryList, queryByNextDueTime, {});
      if host in queryListByHost {
        var queryId := queryListByHost[host];
        HostIsLive(queryList, queryListByHost, host);
        if queryId in queryList {
          JoinedForgotten(queryList, queryByNextDueTime, queryId, client, https);
          Depart(queryId, client, https);
        } else {
          assert false;   // the repair that the program makes here is never needed
        }
      }
    }

    // A client leaves the query of its host.
    method Depart(id: nat, client: Client, https: bool)
      requires Core() && TimesOk(queryList, queryByNextDueTime) && id in queryList
      modifies this`queryList, this`cancelled
      ensures Core() && TimesOk(queryList, queryByNextDueTime)
      ensures queryList == old(queryList)[id := Departed(old(queryList)[id], client, https)]
      ensures cancelled == if client in Side(old(queryList)[id], https) then old(cancelled) + multiset{client} else old(cancelled)
    {
      hide Conserved, Waiting, HostsOk, TimesOk, Without;
      var q := queryList[id];
      var left := EraseClient(Side(q, https), client);
      var r := if https then q.(https := left) else q.(http := left);
      ghost var gone := if client in Side(q, https) then multiset{client} else multiset{};
      DepartedClients(q, client, https);
      ConservedUpdate(asked, told, cancelled, ids, queryList, id, r, multiset{}, gone);
      SameKeys(queryList, queryListByHost, queryByNextDueTime, id, r);
      assert asked + multiset{} == asked;
      queryList := queryList[id := r];
      cancelled := cancelled + gone;
    }

    // The index loop of cancelClient over one vector of clients.
    method EraseClient(list: seq<Client>, client: Client) returns (r: seq<Client>)
      ensures r == Without(list, client)
    {
      var index := 0;
      while index < |list|
        invariant index <= |list| && client !in list[..index]
      {
        if list[index] == client {
          WithoutAt(list, client, index);
          return list[..index] + list[index + 1..];
        }
        index := index + 1;
      }
      WithoutAbsent(list, client);
      r := list;
    }

    // A query is answered for good: the answer is cached, the clients are told, the query goes.
    method Settle(id: nat, status: StatusEntry, ttl: nat, ip: Ip, kind: StatusEntry, toldIp: Ip)
      requires Valid() && id in queryList
      modifies this`queryList, this`queryListByHost, this`queryByNextDueTime, this`told, this`ids
      modifies this`cache, this`cacheByOutdatedDate, this`clock
      ensures Valid() && clock >= old(clock) && queryList == old(queryList) - {id}
      ensures queryByNextDueTime == old(queryByNextDueTime) - {old(queryList)[id].nextRetry}
      ensures told == old(told) + ToldAll(old(queryList)[id], kind, toldIp)
      ensures cache == if |old(cache)| > 5000 then old(cache)
        else old(cache)[old(queryList)[id].host := CacheEntry(ip, ExpiryDate(status, ttl, clock), status)]
    {
      hide Conserved, CacheOk, HostsOk, TimesOk, ToldAll;
      AddCacheEntry(status, ttl, queryList[id].host, ip);
      FinishTimes(queryList, queryListByHost, queryByNextDueTime, id);
      Finish(id, kind, toldIp);
    }

    // The part of parseEvent that acts on a reply whose header has been read: it is for the
    // query id, carries the flags, and its answers start at pos.
    method ParseAnswers(id: nat, flags: bv16, answers: nat, buffer: seq<Words.byte>, size: nat, start: nat)
      requires Valid()
      modifies this`queryList, this`queryListByHost, this`queryByNextDueTime, this`told, this`ids
      modifies this`cache, this`cacheByOutdatedDate, this`clock
      ensures Valid() && clock >= old(clock)
      ensures Acted(id, flags, Scan(buffer, size, start, 0, answers), old(queryList), queryList, old(told), told,
                    old(cache), cache, clock)
      ensures Unbucketed(id, old(queryList), old(queryByNextDueTime), queryList, queryByNextDueTime)
    {
      hide Conserved, CacheOk, HostsOk, TimesOk, ToldAll, Scan;
      if id !in queryList || (queryList[id].http == [] && queryList[id].https == []) {
        return;
      }
      if flags & 0x000F == 1 {
        FinishTimes(queryList, queryListByHost, queryByNextDueTime, id);
        Finish(id, Error, []);
      } else if flags & 0xFA0F != 0x8000 {
        Settle(id, Wrong, 0, NO_ADDRESS, Error, []);
      } else {
        ReadAnswers(id, answers, buffer, size, start);
      }
    }

    // A datagram of the resolver: one reply fewer is awaited, and it is acted on when its
    // header and its question could be read and are as expected.
    method Receive(readable: bool, id: nat, flags: bv16, answers: nat, buffer: seq<Words.byte>, size: nat, start: nat)
      requires Valid()
      modifies this`queryList, this`queryListByHost, this`queryByNextDueTime, this`told, this`ids
      modifies this`cache, this`cacheByOutdatedDate, this`clock, this`clientInProgress
      ensures Valid() && clock >= old(clock) && clientInProgress == old(clientInProgress) - 1
      ensures if readable then
          Acted(id, flags, Scan(buffer, size, start, 0, answers), old(queryList), queryList, old(told), told,
                old(cache), cache, clock)
        else queryList == old(queryList) && told == old(told) && cache == old(cache)
      ensures Unbucketed(id, old(queryList), old(queryByNextDueTime), queryList, queryByNextDueTime)
      ensures StillForgotten(old(queryList), old(queryByNextDueTime), queryList, queryByNextDueTime,
                             if readable then {id} else {})
    {
      hide Conserved, CacheOk, HostsOk, TimesOk, ToldAll, Scan, Settled, StillForgotten;
      AllForgotten(queryList, queryByNextDueTime, {});
      AllForgotten(queryList, queryByNextDueTime, {id});
      clientInProgress := clientInProgress - 1;
      if id in queryList {
        RemovedForgotten(queryList, queryByNextDueTime, id);
      }
      if readable {
        ParseAnswers(id, flags, answers, buffer, size, start);
      }
    }

    // The loop over the answers. It goes on reading after the clients have been told, which
    // changes nothing more.
    method ReadAnswers(id: nat, answers: nat, buffer: seq<Words.byte>, size: nat, start: nat)
      requires Valid() && id in queryList
      modifies this`queryList, this`queryListByHost, this`queryByNextDueTime, this`told, this`ids
      modifies this`cache, this`cacheByOutdatedDate, this`clock
      ensures Valid() && clock >= old(clock)
      ensures var v := Scan(buffer, size, start, 0, answers);
        if v.Silent? then queryList == old(queryList) && told == old(told) && cache == old(cache)
        else
          Settled(old(queryList)[id], id, old(queryList), queryList, old(told), told, old(cache), cache,
                  Outcome(v), Outcome(v).0, clock)
      ensures Unbucketed(id, old(queryList), old(queryByNextDueTime), queryList, queryByNextDueTime)
    {
      hide Conserved, CacheOk, HostsOk, TimesOk, ToldAll, Settled, Unbucketed, Outcome, Dns.Valid;
      NothingUnbucketed(id, queryList, queryByNextDueTime);
      var pos, index, clientsFlushed := start, 0, false;
      ghost var v := Scan(buffer, size, start, 0, answers);
      while index < answers
        invariant Valid() && clock >= old(clock) && index <= answers
        invariant !clientsFlushed ==>
          queryList == old(queryList) && told == old(told) && cache == old(cache) &&
          queryByNextDueTime == old(queryByNextDueTime) && v == Scan(buffer, size, pos, index, answers)
        invariant clientsFlushed ==> Unbucketed(id, old(queryList), old(queryByNextDueTime), queryList, queryByNextDueTime)
        invariant clientsFlushed ==>
          !v.Silent? && Settled(old(queryList)[id], id, old(queryList), queryList, old(told), told, old(cache), cache,
                                Outcome(v), Outcome(v).0, clock)
      {
        var (name, p0) := Read16(buffer, size, pos);
        if name == 0 {
          return;
        }
        var (kind, p1) := Read16(buffer, size, p0);
        if kind == 0 && !clientsFlushed {
          clientsFlushed := true;
          SettleBy(id, Failed);
        }
        if kind == 0x001c {
          var (classIn, p2) := Read16(buffer, size, p1);
          if classIn == 0 {
            return;
          }
          pos := p2;
          if classIn == 1 {
            if p2 + 4 > size {
              return;
            }
            var ttl := Read32(buffer, p2);
            var (datasize, p3) := Read16(buffer, size, p2 + 4);
            if datasize != 16 {
              return;
            }
            pos := p3;
            if !clientsFlushed {
              clientsFlushed := true;
              SettleBy(id, Found(ttl, Address(buffer, p3)));
            }
          }
        } else {
          var (datasize, p2) := Read16(buffer, size, Skip(size, p1, 6));
          if datasize == 0 {
            return;
          }
          pos := Skip(size, p2, datasize);
        }
        index := index + 1;
      }
      if !clientsFlushed {
        SettleBy(id, Failed);
      }
    }

    // Caching and telling what one verdict says.
    method SettleBy(id: nat, v: Verdict)
      requires Valid() && id in queryList && !v.Silent?
      modifies this`queryList, this`queryListByHost, this`queryByNextDueTime, this`told, this`ids
      modifies this`cache, this`cacheByOutdatedDate, this`clock
      ensures Valid() && clock >= old(clock)
      ensures Settled(old(queryList)[id], id, old(queryList), queryList, old(told), told, old(cache), cache,
                      Outcome(v), Outcome(v).0, clock)
      ensures Unbucketed(id, old(queryList), old(queryByNextDueTime), queryList, queryByNextDueTime)
    {
      hide Conserved, CacheOk, HostsOk, TimesOk, ToldAll;
      match v {
        case Failed => Settle(id, Error, 3600, NO_ADDRESS, Error, []);
        case Found(ttl, ip) =>
          if !(INCLUDE <= ip) || EXCLUDE <= ip {
            Settle(id, Wrong, ttl, ip, Wrong, []);
          } else {
            Settle(id, Right, ttl, ip, Right, ip);
          }
      }
    }

    // One query of checkQueries sent again: it is due five seconds later.
    method Resend(id: nat, ghost t: nat)
      requires Core() && OtherTimes(queryList, queryByNextDueTime, t)
      requires id in queryList && queryList[id].nextRetry == t <= clock
      modifies this`queryList, this`queryByNextDueTime, this`clock
      ensures Core() && OtherTimes(queryList, queryByNextDueTime, t) && clock >= old(clock)
      ensures old(CacheValid()) ==> CacheValid()
      ensures queryList == old(queryList)[id := Later(old(queryList)[id], clock)]
      ensures queryByNextDueTime == Push<nat, nat>(old(queryByNextDueTime), clock + 5, id)
    {
      hide Conserved, Waiting, Push, Clients, CacheOk;
      var q := queryList[id];
      var now := Time();
      ResendKeeps(queryList, queryListByHost, queryByNextDueTime, t, id, now);
      ConservedUpdate(asked, told, cancelled, ids, queryList, id, Later(q, now), multiset{}, multiset{});
      assert asked + multiset{} == asked && cancelled + multiset{} == cancelled;
      queryList := queryList[id := Later(q, now)];
      queryByNextDueTime := Push<nat, nat>(queryByNextDueTime, now + 5, id);
    }

    // One bucket of checkQueries: list is what the copy holds for the time t.
    method CheckBucket(t: nat, list: seq<nat>)
      requires Core() && TimesOk(queryList, queryByNextDueTime) && Bucket(queryList, t, list) && t <= clock
      modifies this`queryList, this`queryListByHost, this`queryByNextDueTime, this`told, this`ids, this`clock
      ensures Core() && TimesOk(queryList, queryByNextDueTime) && clock >= old(clock)
      ensures (old(CacheValid()) ==> CacheValid()) && OnlyErrors(old(told), told)
      ensures forall id :: id in queryList ==> id in old(queryList)
      ensures forall id :: id in list ==> Retried(old(queryList)[id], queryList, id, old(clock), clock)
      ensures forall id :: id in old(queryList) && id !in list ==> id in queryList && queryList[id] == old(queryList)[id]
      ensures RevivedIn(old(queryByNextDueTime), queryByNextDueTime, list)
    {
      hide Conserved, Waiting, HostsOk, OtherTimes, Progress, Later, Bucket, CacheOk, ToldAll, RevivedIn, Push;
      ghost var was, start, wasTimes := queryList, clock, queryByNextDueTime;
      NoneYet(wasTimes, list);
      ProgressStarts(queryList, queryByNextDueTime, t, list, clock);
      var i := 0;
      while i < |list|
        invariant i <= |list| && Core() && OtherTimes(queryList, queryByNextDueTime, t) && clock >= start
        invariant Progress(was, queryList, t, list, i, start, clock)
        invariant (old(CacheValid()) ==> CacheValid()) && OnlyErrors(old(told), told)
        invariant RevivedIn(wasTimes, queryByNextDueTime, list)
      {
        var id := list[i];
        RevivedOn(wasTimes, queryByNextDueTime, list, id);
        ProgressStep(was, queryList, t, list, i, start, clock);
        if queryList[id].retryTime < 2 {
          Resend(id, t);
        } else {
          FinishKeeps(queryList, queryByNextDueTime, t, id);
          ErrorsTold(old(told), told, queryList[id]);
          Finish(id, Error, []);
        }
        i := i + 1;
      }
      BucketDone(was, queryList, queryByNextDueTime, t, list, start, clock);
      RevivedOn(wasTimes, queryByNextDueTime, list, 0);
      queryByNextDueTime := queryByNextDueTime - {t};
    }

    // checkQueries: every scheduled query that is due is sent again, the third time its
    // clients are told and it goes; every other query stays as it was. The loop walks over a
    // copy of the index, and no id it reads there is missing from queryList.
    method CheckQueries()
      requires Valid()
      modifies this`queryList, this`queryListByHost, this`queryByNextDueTime, this`told, this`ids, this`clock
      ensures Valid() && clock >= old(clock) && OnlyErrors(old(told), told)
      ensures Checked(old(queryList), old(queryByNextDueTime), queryList, old(clock), clock)
      ensures NoneRevived(old(queryByNextDueTime), queryByNextDueTime)
    {
      hide Conserved, Waiting, HostsOk, TimesOk, CacheOk, Walk, Retried, Bucket, OnlyErrors, Checked, NoneRevived, RevivedIn;
      NoneNew(queryByNextDueTime);
      NoErrors(told);
      ghost var was, start := queryList, clock;
      ghost var bound: nat := 0;
      var copy := queryByNextDueTime;
      var times := SortedKeys(copy.Keys);
      WalkStarts(was, copy, start);
      var i := 0;
      while i < |times|
        invariant i <= |times| && Core() && TimesOk(queryList, queryByNextDueTime) && CacheValid() && clock >= start
        invariant forall k :: 0 <= k < |times| ==> (times[k] < bound <==> k < i)
        invariant Walk(was, copy, queryList, bound, start, clock) && bound <= clock + 1
        invariant OnlyErrors(old(told), told) && NoneRevived(copy, queryByNextDueTime)
      {
        ghost var before, earlier, times' := queryList, clock, queryByNextDueTime;
        var t := times[i];
        var now := Time();
        WalkReady(was, copy, queryList, bound, t, start, earlier, now);
        if t > now {
          WalkEnds(was, copy, queryList, bound, start, now);
          return;
        }
        ghost var mid := told;
        CheckBucket(t, copy[t]);
        RevivedJoin(copy, times', queryByNextDueTime, t);
        ErrorsJoin(old(told), mid, told);
        WalkStep(was, copy, before, queryList, bound, t, start, now, clock);
        bound := t + 1;
        i := i + 1;
      }
      WalkEnds(was, copy, queryList, bound, start, clock);
    }
  }

  ghost predicate InBucket(byTime: map<nat, seq<nat>>, t: nat, id: nat) {
    t in byTime && id in byTime[t]
  }

  // The walk of checkQueries after the buckets before bound.
  ghost predicate Walk(was: map<nat, Query>, copy: map<nat, seq<nat>>, queryList: map<nat, Query>, bound: nat, from: nat, now: nat) {
    && TimesOk(was, copy) && from <= now
    && (forall id :: id in queryList ==> id in was)
    && (forall id :: id in was ==> Walked(was[id], copy, queryList, id, bound, from, now))
  }

  ghost predicate Walked(q: Query, copy: map<nat, seq<nat>>, queryList: map<nat, Query>, id: nat, bound: nat, from: nat, now: nat) {
    if InBucket(copy, q.nextRetry, id) && q.nextRetry < bound then Retried(q, queryList, id, from, now)
    else id in queryList && queryList[id] == q
  }

  // What checkQueries makes of the queries: exactly those scheduled at a time up to now are
  // retried, the others are as they were.
  ghost predicate Checked(was: map<nat, Query>, byTime: map<nat, seq<nat>>, queryList: map<nat, Query>, from: nat, now: nat) {
    && (forall id :: id in queryList ==> id in was)
    && (forall id :: id in was ==>
          if InBucket(byTime, was[id].nextRetry, id) && was[id].nextRetry <= now then
            Retried(was[id], queryList, id, from, now)
          else id in queryList && queryList[id] == was[id])
  }

  lemma WalkStarts(was: map<nat, Query>, copy: map<nat, seq<nat>>, now: nat)
    requires TimesOk(was, copy)
    ensures Walk(was, copy, was, 0, now, now)
  {
  }

  // The next bucket of the copy: its queries are untouched so far.
  lemma WalkReady(was: map<nat, Query>, copy: map<nat, seq<nat>>, queryList: map<nat, Query>, bound: nat, t: nat,
                  from: nat, earlier: nat, now: nat)
    requires t in copy && bound <= t && earlier <= now && Walk(was, copy, queryList, bound, from, earlier)
    ensures Bucket(queryList, t, copy[t]) && Walk(was, copy, queryList, bound, from, now)
    ensures forall id :: id in copy[t] ==> id in was && id in queryList && queryList[id] == was[id]
  {
    assert Bucket(was, t, copy[t]);
    forall id | id in was ensures Walked(was[id], copy, queryList, id, bound, from, now) {
      assert Walked(was[id], copy, queryList, id, bound, from, earlier);
    }
    forall id | id in copy[t] ensures id in queryList && queryList[id] == was[id] {
      assert Walked(was[id], copy, queryList, id, bound, from, earlier);
    }
  }

  lemma WalkStep(was: map<nat, Query>, copy: map<nat, seq<nat>>, before: map<nat, Query>, after: map<nat, Query>,
                 bound: nat, t: nat, from: nat, since: nat, now: nat)
    requires t in copy && bound <= t && Walk(was, copy, before, bound, from, since) && since <= now
    requires forall k :: k in copy && bound <= k <= t ==> k == t
    requires forall id :: id in after ==> id in before
    requires forall id :: id in copy[t] ==> id in was && before[id] == was[id] && Retried(was[id], after, id, since, now)
    requires forall id :: id in before && id !in copy[t] ==> id in after && after[id] == before[id]
    ensures Walk(was, copy, after, t + 1, from, now)
  {
    assert Bucket(was, t, copy[t]);
    forall id | id in was ensures Walked(was[id], copy, after, id, t + 1, from, now) {
      assert Walked(was[id], copy, before, id, bound, from, since);
    }
  }

  lemma WalkEnds(was: map<nat, Query>, copy: map<nat, seq<nat>>, queryList: map<nat, Query>, bound: nat, from: nat, now: nat)
    requires Walk(was, copy, queryList, bound, from, now) && bound <= now + 1
    requires forall k :: k in copy && bound <= k ==> k > now
    ensures Checked(was, copy, queryList, from, now)
  {
    forall id | id in was
      ensures if InBucket(copy, was[id].nextRetry, id) && was[id].nextRetry <= now then Retried(was[id], queryList, id, from, now)
        else id in queryList && queryList[id] == was[id]
    {
      assert Walked(was[id], copy, queryList, id, bound, from, now);
    }
  }

  // A bucket of due queries of which the first i have been looked at.
  ghost predicate Progress(was: map<nat, Query>, queryList: map<nat, Query>, t: nat, list: seq<nat>, i: nat, from: nat, now: nat) {
    && i <= |list| && Bucket(was, t, list) && from <= now
    && (forall id :: id in queryList ==> id in was)
    && (forall k :: 0 <= k < i ==> Retried(was[list[k]], queryList, list[k], from, now))
    && (forall k :: i <= k < |list| ==> list[k] in queryList && queryList[list[k]] == was[list[k]])
    && (forall id :: id in was && id !in list ==> id in queryList && queryList[id] == was[id])
  }

  lemma ProgressStarts(queryList: map<nat, Query>, byTime: map<nat, seq<nat>>, t: nat, list: seq<nat>, now: nat)
    requires Bucket(queryList, t, list) && TimesOk(queryList, byTime)
    ensures Progress(queryList, queryList, t, list, 0, now, now) && OtherTimes(queryList, byTime, t)
  {
    assert forall k :: 0 <= k < |list| ==> list[k] in list;
  }

  // Looking at the next query: it is as it was, and may be resent or removed.
  lemma ProgressStep(was: map<nat, Query>, queryList: map<nat, Query>, t: nat, list: seq<nat>, i: nat, from: nat, now: nat)
    requires Progress(was, queryList, t, list, i, from, now) && i < |list|
    ensures list[i] in queryList && queryList[list[i]] == was[list[i]] && queryList[list[i]].nextRetry == t
    ensures was[list[i]].retryTime >= 2 ==> Progress(was, queryList - {list[i]}, t, list, i + 1, from, now)
    ensures was[list[i]].retryTime < 2 ==> forall later :: later >= now ==>
      Progress(was, queryList[list[i] := Later(queryList[list[i]], later)], t, list, i + 1, from, later)
  {
    assert list[i] in list;
  }

  lemma BucketDone(was: map<nat, Query>, queryList: map<nat, Query>, byTime: map<nat, seq<nat>>, t: nat, list: seq<nat>, from: nat, now: nat)
    requires Progress(was, queryList, t, list, |list|, from, now) && OtherTimes(queryList, byTime, t)
    ensures TimesOk(queryList, byTime - {t})
    ensures forall id :: id in queryList ==> id in was
    ensures forall id :: id in list ==> id in was && Retried(was[id], queryList, id, from, now)
    ensures forall id :: id in was && id !in list ==> id in queryList && queryList[id] == was[id]
  {
  }

  // A query as checkQueries leaves it when it sends it again.
  function Later(q: Query, now: nat): (r: Query)
    ensures Clients(r) == Clients(q)
  {
    q.(retryTime := q.retryTime + 1, nextRetry := now + 5)
  }

  // A due query was sent again, or was the third to fall due and is gone.
  ghost predicate Retried(q: Query, queryList: map<nat, Query>, id: nat, from: nat, upTo: nat) {
    if q.retryTime < 2 then
      id in queryList && from + 5 <= queryList[id].nextRetry <= upTo + 5 &&
      queryList[id] == q.(retryTime := q.retryTime + 1, nextRetry := queryList[id].nextRetry)
    else id !in queryList
  }

  // Every bucket but one is in order.
  ghost predicate OtherTimes(queryList: map<nat, Query>, byTime: map<nat, seq<nat>>, t: nat) {
    forall u :: u in byTime && u != t ==> Bucket(queryList, u, byTime[u])
  }

  lemma ResendKeeps(queryList: map<nat, Query>, byHost: map<string, nat>, byTime: map<nat, seq<nat>>, t: nat, id: nat, now: nat)
    requires OtherTimes(queryList, byTime, t) && HostsOk(queryList, byHost)
    requires id in queryList && queryList[id].nextRetry == t <= now
    ensures OtherTimes(queryList[id := Later(queryList[id], now)], Push<nat, nat>(byTime, now + 5, id), t)
    ensures HostsOk(queryList[id := Later(queryList[id], now)], byHost)
  {
    var queries, times := queryList[id := Later(queryList[id], now)], Push<nat, nat>(byTime, now + 5, id);
    forall u | u in times && u != t ensures Bucket(queries, u, times[u]) {
      if u in byTime { assert Bucket(queryList, u, byTime[u]); }
    }
  }

  lemma FinishKeeps(queryList: map<nat, Query>, byTime: map<nat, seq<nat>>, t: nat, id: nat)
    requires OtherTimes(queryList, byTime, t) && id in queryList && queryList[id].nextRetry == t
    ensures OtherTimes(queryList - {id}, byTime - {t}, t)
  {
    forall u | u in byTime && u != t ensures Bucket(queryList - {id}, u, byTime[u]) {
      assert Bucket(queryList, u, byTime[u]);
    }
  }

  // What a reply for the query id makes of queries, notices and cache.
  ghost predicate Acted(id: nat, flags: bv16, v: Verdict, was: map<nat, Query>, now: map<nat, Query>,
                        toldWas: seq<Notice>, told: seq<Notice>,
                        cacheWas: map<string, CacheEntry>, cache: map<string, CacheEntry>, time: nat) {
    if Unanswered(was, id) then now == was && told == toldWas && cache == cacheWas
    else if flags & 0x000F == 1 then
      now == was - {id} && told == toldWas + ToldAll(was[id], Error, []) && cache == cacheWas
    else if flags & 0xFA0F != 0x8000 then
      Settled(was[id], id, was, now, toldWas, told, cacheWas, cache, (Wrong, 0, NO_ADDRESS), Error, time)
    else if v.Silent? then now == was && told == toldWas && cache == cacheWas
    else Settled(was[id], id, was, now, toldWas, told, cacheWas, cache, Outcome(v), Outcome(v).0, time)
  }

  // The due times lose a bucket exactly when the query goes: that of its own due time.
  ghost predicate Unbucketed(id: nat, was: map<nat, Query>, wasTimes: map<nat, seq<nat>>,
                             now: map<nat, Query>, times: map<nat, seq<nat>>) {
    if id in was && id !in now then now == was - {id} && times == wasTimes - {was[id].nextRetry}
    else now == was && times == wasTimes
  }

  lemma NothingUnbucketed(id: nat, queries: map<nat, Query>, times: map<nat, seq<nat>>)
    ensures Unbucketed(id, queries, times, queries, times)
  {
  }

  // No live query, or one without clients: the reply is ignored.
  predicate Unanswered(queryList: map<nat, Query>, id: nat) {
    id !in queryList || (queryList[id].http == [] && queryList[id].https == [])
  }

  // The query is gone, its clients are told the outcome and nothing else, the host's entry
  // is replaced unless the cache is full.
  ghost predicate Settled(q: Query, id: nat, was: map<nat, Query>, now: map<nat, Query>, toldWas: seq<Notice>, told: seq<Notice>,
                          cacheWas: map<string, CacheEntry>, cache: map<string, CacheEntry>,
                          outcome: (StatusEntry, nat, Ip), kind: StatusEntry, time: nat) {
    && now == was - {id}
    && told == toldWas + ToldAll(q, kind, if kind == Right then outcome.2 else [])
    && cache == if |cacheWas| > 5000 then cacheWas
                else cacheWas[q.host := CacheEntry(outcome.2, ExpiryDate(outcome.0, outcome.1, time), outcome.0)]
  }

  lemma FinishTimes(queryList: map<nat, Query>, byHost: map<string, nat>, byTime: map<nat, seq<nat>>, id: nat)
    requires HostsOk(queryList, byHost) && TimesOk(queryList, byTime) && id in queryList
    ensures TimesOk(queryList - {id}, byTime - {queryList[id].nextRetry})
  {
    RemoveKeepsIndex(queryList, byHost, byTime, id);
  }

  function NewQuery(client: Client, host: string, https: bool, due: nat): (r: Query)
    ensures Clients(r) == multiset{client}
  {
    Query(host, if https then [] else [client], if https then [client] else [], 0, due)
  }

  function Side(q: Query, https: bool): seq<Client> {
    if https then q.https else q.http
  }

  function Joined(q: Query, client: Client, https: bool): (r: Query)
    ensures Clients(r) == Clients(q) + multiset{client}
  {
    if https then q.(https := q.https + [client]) else q.(http := q.http + [client])
  }

  function Departed(q: Query, client: Client, https: bool): Query {
    if https then q.(https := Without(q.https, client)) else q.(http := Without(q.http, client))
  }

  lemma DepartedClients(q: Query, client: Client, https: bool)
    ensures var gone := if client in Side(q, https) then multiset{client} else multiset{};
      Clients(Departed(q, client, https)) + gone == Clients(q)
  {
    var side := Side(q, https);
    WithoutCount(side, client);
    if client in side {
      assert client in multiset(side);
    } else {
      WithoutAbsent(side, client);
    }
  }

  lemma HostIsLive(queryList: map<nat, Query>, byHost: map<string, nat>, host: string)
    requires HostsOk(queryList, byHost) && host in byHost
    ensures byHost[host] in queryList
  {
  }

  // What a client is told from the cache.
  function Answer(entry: CacheEntry, client: Client, https: bool): Notice {
    Notice(client, entry.status, if entry.status == Right then entry.ip else [], https)
  }

  lemma AllForgotten(queryList: map<nat, Query>, byTime: map<nat, seq<nat>>, but: set<nat>)
    ensures StillForgotten(queryList, byTime, queryList, byTime, but)
  {
  }

  lemma JoinedForgotten(queryList: map<nat, Query>, byTime: map<nat, seq<nat>>, id: nat, client: Client, https: bool)
    requires id in queryList
    ensures StillForgotten(queryList, byTime, queryList[id := Joined(queryList[id], client, https)], byTime, {})
    ensures StillForgotten(queryList, byTime, queryList[id := Departed(queryList[id], client, https)], byTime, {})
  {
  }

  lemma SentForgotten(queryList: map<nat, Query>, byTime: map<nat, seq<nat>>, id: nat, q: Query)
    requires id !in queryList
    ensures StillForgotten(queryList, byTime, queryList[id := q], Push<nat, nat>(byTime, q.nextRetry, id), {})
  {
    var times := Push<nat, nat>(byTime, q.nextRetry, id);
    forall other | other in queryList && Scheduled(times, other) ensures Scheduled(byTime, other) {
      var t :| t in times && other in times[t];
      assert t in byTime && other in byTime[t];
    }
  }

  // The ids scheduled since are all of the list.
  ghost predicate RevivedIn(was: map<nat, seq<nat>>, byTime: map<nat, seq<nat>>, list: seq<nat>) {
    forall id :: Scheduled(byTime, id) ==> Scheduled(was, id) || id in list
  }

  lemma NoneYet(byTime: map<nat, seq<nat>>, list: seq<nat>)
    ensures RevivedIn(byTime, byTime, list)
  {
  }

  lemma NoneNew(byTime: map<nat, seq<nat>>)
    ensures NoneRevived(byTime, byTime)
  {
  }

  lemma RevivedOn(was: map<nat, seq<nat>>, byTime: map<nat, seq<nat>>, list: seq<nat>, id: nat)
    requires RevivedIn(was, byTime, list)
    ensures forall t :: RevivedIn(was, byTime - {t}, list)
    ensures id in list ==> forall t :: RevivedIn(was, Push<nat, nat>(byTime, t, id), list)
  {
    forall t ensures RevivedIn(was, byTime - {t}, list) {
      forall x | Scheduled(byTime - {t}, x) ensures Scheduled(byTime, x) {
        var u :| u in byTime - {t} && x in byTime[u];
      }
    }
    forall t ensures id in list ==> RevivedIn(was, Push<nat, nat>(byTime, t, id), list) {
      var times := Push<nat, nat>(byTime, t, id);
      forall x | Scheduled(times, x) && x != id ensures Scheduled(byTime, x) {
        var u :| u in times && x in times[u];
        assert u in byTime && x in byTime[u];
      }
    }
  }

  lemma RevivedJoin(was: map<nat, seq<nat>>, mid: map<nat, seq<nat>>, byTime: map<nat, seq<nat>>, t: nat)
    requires NoneRevived(was, mid) && t in was && RevivedIn(mid, byTime, was[t])
    ensures NoneRevived(was, byTime)
  {
  }

  // A check leaves alone what was in no bucket.
  lemma CheckedForgotten(was: map<nat, Query>, wasTimes: map<nat, seq<nat>>, queryList: map<nat, Query>, byTime: map<nat, seq<nat>>,
                         from: nat, now: nat)
    requires Checked(was, wasTimes, queryList, from, now) && NoneRevived(wasTimes, byTime)
    ensures StillForgotten(was, wasTimes, queryList, byTime, {})
  {
    forall id | id in was && !Scheduled(wasTimes, id) ensures Forgotten(was[id], queryList, byTime, id) {
      assert !InBucket(wasTimes, was[id].nextRetry, id);
    }
  }

  lemma ForgottenOn(a: map<nat, Query>, aTimes: map<nat, seq<nat>>, b: map<nat, Query>, bTimes: map<nat, seq<nat>>,
                    c: map<nat, Query>, cTimes: map<nat, seq<nat>>, but: set<nat>, more: set<nat>)
    requires StillForgotten(a, aTimes, b, bTimes, but) && StillForgotten(b, bTimes, c, cTimes, more)
    ensures StillForgotten(a, aTimes, c, cTimes, but + more)
  {
    forall id | id in a && !Scheduled(aTimes, id) && id !in but + more ensures Forgotten(a[id], c, cTimes, id) {
      assert Forgotten(a[id], b, bTimes, id) && Forgotten(b[id], c, cTimes, id);
    }
  }

  lemma RemovedForgotten(queryList: map<nat, Query>, byTime: map<nat, seq<nat>>, id: nat)
    requires id in queryList
    ensures StillForgotten(queryList, byTime, queryList - {id}, byTime - {queryList[id].nextRetry}, {id})
  {
    forall other | Scheduled(byTime - {queryList[id].nextRetry}, other) ensures Scheduled(byTime, other) {
      var t :| t in byTime - {queryList[id].nextRetry} && other in byTime[t];
    }
  }

  // A query that keeps its host and due time keeps the tables in agreement.
  lemma SameKeys(queryList: map<nat, Query>, byHost: map<string, nat>, byTime: map<nat, seq<nat>>, id: nat, q: Query)
    requires HostsOk(queryList, byHost) && TimesOk(queryList, byTime) && id in queryList
    requires q.host == queryList[id].host && q.nextRetry == queryList[id].nextRetry
    ensures HostsOk(queryList[id := q], byHost) && TimesOk(queryList[id := q], byTime)
  {
    forall t | t in byTime ensures Bucket(queryList[id := q], t, byTime[t]) {
      assert Bucket(queryList, t, byTime[t]);
    }
  }

  // What is left of a cache from which exactly the entries expired at a time were removed.
  ghost predicate Unexpired(was: map<string, CacheEntry>, cache: map<string, CacheEntry>, now: nat) {
    && (forall h :: h in cache <==> h in was && was[h].outdatedDate > now)
    && (forall h :: h in cache ==> cache[h] == was[h])
  }

  lemma SweepStarts(copy: map<nat, seq<string>>, dates: seq<nat>)
    requires Increasing(dates) && forall t :: t in dates <==> t in copy
    ensures Swept(copy, copy, dates, 0)
  {
  }

  lemma SweepGoesOn(copy: map<nat, seq<string>>, byDate: map<nat, seq<string>>, dates: seq<nat>, i: nat)
    requires Swept(copy, byDate, dates, i) && i < |dates|
    ensures dates[i] in copy && dates[i] in byDate && byDate[dates[i]] == copy[dates[i]]
    ensures Swept(copy, byDate - {dates[i]}, dates, i + 1)
  {
  }

  // The first i buckets of the copy are gone from the index, the others are as they were.
  ghost predicate Swept(copy: map<nat, seq<string>>, byDate: map<nat, seq<string>>, dates: seq<nat>, i: nat) {
    && i <= |dates| && Increasing(dates) && (forall t :: t in dates <==> t in copy)
    && byDate.Keys <= copy.Keys
    && (forall k :: 0 <= k < i ==> dates[k] !in byDate)
    && (forall k :: i <= k < |dates| ==> dates[k] in byDate && byDate[dates[k]] == copy[dates[k]])
  }

  lemma LaterDates(cache: map<string, CacheEntry>, copy: map<nat, seq<string>>, byDate: map<nat, seq<string>>,
                   dates: seq<nat>, i: nat, now: nat)
    requires CacheOk(cache, byDate) && Swept(copy, byDate, dates, i)
    requires i < |dates| ==> dates[i] > now
    ensures forall h :: h in cache ==> cache[h].outdatedDate > now
  {
    forall h | h in cache ensures cache[h].outdatedDate > now {
      var k :| 0 <= k < |dates| && dates[k] == cache[h].outdatedDate;
    }
  }

  // The callbacks on the resolver, as they come.
  datatype Event =
    | Lookup(client: Client, host: string, https: bool)
    | Cancel(client: Client, host: string, https: bool)
    | Reply(readable: bool, id: nat, flags: bv16, answers: nat, buffer: seq<Words.byte>, size: nat, pos: nat)
    | QueryTimer
    | CacheTimer

  // From the program's start, two hosts are looked up.
  method TwoLookups(now: nat) returns (dns: Dns, t: nat, u: nat)
    ensures dns.Valid() && fresh(dns) && dns.told == []
    ensures dns.queryList == map[1 := NewQuery(7, "a", false, t), 2 := NewQuery(8, "b", false, u)]
    ensures dns.queryByNextDueTime == Push<nat, nat>(Push<nat, nat>(map[], t, 1), u, 2)
    ensures dns.cache == map[] && dns.increment == 3 && dns.clientInProgress == 2
  {
    hide Conserved, CacheOk, HostsOk, TimesOk, StillForgotten, Push;
    dns := new Dns(now);
    var ok, clash := dns.Get(7, "a", false);
    t := dns.queryList[1].nextRetry;
    ok, clash := dns.Get(8, "b", false);
    u := dns.queryList[2].nextRetry;
  }

  // Then the first one's reply comes. When both lookups fell in one second, the second host's
  // client waits in a query that is in no bucket.
  method ForgottenLookup(now: nat) returns (dns: Dns, sameSecond: bool)
    ensures dns.Valid() && 2 in dns.queryList && dns.queryList[2].host == "b" && dns.queryList[2].http == [8]
    ensures dns.told == [Notice(7, Error, [], false)]
    ensures sameSecond ==> !Scheduled(dns.queryByNextDueTime, 2)
    ensures fresh(dns) && dns.queryList.Keys == {2} && dns.cache == map[] && dns.increment == 3 && dns.clientInProgress == 1
  {
    hide Conserved, CacheOk, HostsOk, TimesOk, StillForgotten, Push;
    var t, u;
    dns, t, u := TwoLookups(now);
    sameSecond := t == u;
    dns.Receive(true, 1, 0x8001, 0, [], 0, 0);
    OneBucket(t, u);
    assert [7][1..] == [] && Notices([7], Error, [], false) == [Notice(7, Error, [], false)];
  }

  // A lookup that the resolver refuses, and a check of the due queries, while only the forgotten
  // query is live.
  method RefusedLookup(dns: Dns)
    requires dns.Valid() && dns.cache == map[] && dns.clientInProgress == 1 && dns.increment != 2
    requires dns.queryList.Keys == {2} && dns.queryList[2].host == "b" && !Scheduled(dns.queryByNextDueTime, 2)
    modifies dns
    ensures dns.Valid() && dns.cache == map[] && dns.clientInProgress == 1
    ensures dns.queryList == old(dns.queryList) && !Scheduled(dns.queryByNextDueTime, 2)
    ensures dns.increment == if old(dns.increment) == 65534 then 1 else old(dns.increment) + 1
  {
    hide Conserved, CacheOk, HostsOk, TimesOk, StillForgotten, Push, Scheduled, Clients, Unbucketed, NoneRevived, Joined;
    hide Checked, OnlyErrors;
    var id := dns.increment;
    ghost var was, times := dns.queryList, dns.queryByNextDueTime;
    ByAnotherName(dns);
    var ok, clash := dns.Get(9, "c", false);
    assert dns.queryList.Keys == {2, id};
    ghost var sent, sentTimes := dns.queryList, dns.queryByNextDueTime;
    dns.Receive(true, id, 0x8001, 0, [], 0, 0);
    assert dns.queryList == was;
    LeftAlone(was, times, sent, sentTimes, dns.queryList, dns.queryByNextDueTime, id);
    ghost var before, start := dns.queryByNextDueTime, dns.clock;
    dns.CheckQueries();
    StillInNone(was, before, dns.queryList, dns.queryByNextDueTime, start, dns.clock);
  }

  lemma HostsNamed(queryList: map<nat, Query>, byHost: map<string, nat>)
    requires HostsOk(queryList, byHost)
    ensures forall host :: host in byHost ==> byHost[host] in queryList && queryList[byHost[host]].host == host
  {
  }

  lemma LeftAlone(a: map<nat, Query>, aTimes: map<nat, seq<nat>>, b: map<nat, Query>, bTimes: map<nat, seq<nat>>,
                  c: map<nat, Query>, cTimes: map<nat, seq<nat>>, id: nat)
    requires StillForgotten(a, aTimes, b, bTimes, {}) && StillForgotten(b, bTimes, c, cTimes, {id})
    requires 2 in a && !Scheduled(aTimes, 2) && id != 2
    ensures !Scheduled(cTimes, 2)
  {
    hide Scheduled;
    assert Forgotten(a[2], b, bTimes, 2) && Forgotten(b[2], c, cTimes, 2);
  }

  lemma StillInNone(was: map<nat, Query>, times: map<nat, seq<nat>>, queryList: map<nat, Query>, later: map<nat, seq<nat>>,
                    from: nat, now: nat)
    requires Checked(was, times, queryList, from, now) && NoneRevived(times, later)
    requires was.Keys == {2} && !Scheduled(times, 2)
    ensures queryList == was && !Scheduled(later, 2)
  {
    assert 2 in was && !InBucket(times, was[2].nextRetry, 2);
  }

  // The forgotten query is still live when the ids have come round, however often the due
  // queries are checked meanwhile: the next lookup would be sent under its id.
  method IdsComeRound(now: nat) returns (dns: Dns, sameSecond: bool, clash: bool)
    ensures dns.Valid() && (sameSecond ==> clash && dns.increment == 2 && 2 in dns.queryList && dns.queryList[2].host == "b")
  {
    hide Conserved, CacheOk, HostsOk, TimesOk, StillForgotten, Scheduled, Dns.Valid;
    dns, sameSecond := ForgottenLookup(now);
    clash := false;
    if !sameSecond {
      return;
    }
    while dns.increment != 2
      invariant fresh(dns) && dns.Valid() && dns.cache == map[] && dns.clientInProgress == 1 && 1 <= dns.increment <= 65534
      invariant dns.queryList.Keys == {2} && dns.queryList[2].host == "b" && !Scheduled(dns.queryByNextDueTime, 2)
      decreases if dns.increment <= 2 then 2 - dns.increment else 65536 - dns.increment
    {
      RefusedLookup(dns);
    }
    ByAnotherName(dns);
    var ok;
    ok, clash := dns.Get(9, "c", false);
  }

  lemma ByAnotherName(dns: Dns)
    requires dns.Valid() && dns.queryList.Keys == {2} && dns.queryList[2].host == "b"
    ensures "c" !in dns.queryListByHost
  {
    HostsNamed(dns.queryList, dns.queryListByHost);
  }

  lemma OneBucket(t: nat, u: nat)
    ensures t == u ==> !Scheduled(Push<nat, nat>(Push<nat, nat>(map[], t, 1), u, 2) - {t}, 2)
  {
  }

  // The queries that a readable reply was for.
  function Replied(events: seq<Event>): set<nat> {
    set e | e in events && e.Reply? && e.readable :: e.id
  }

  // Any run of callbacks, from any valid state up to the first new query whose id is still in
  // use, keeps the tables and the cache index in agreement and forgets no client. A query that
  // is in no bucket is never sent again or given up: it stays until a reply for it comes, and
  // those who wait for it are told nothing.
  method Run(dns: Dns, events: seq<Event>) returns (done: nat)
    requires dns.Valid()
    modifies dns
    ensures dns.Valid() && dns.clock >= old(dns.clock) && done <= |events|
    ensures done < |events| ==>
      && events[done].Lookup? && dns.increment in dns.queryList
      && events[done].host !in dns.queryListByHost && dns.clientInProgress <= 1000
      && (events[done].host in dns.cache ==> dns.cache[events[done].host].outdatedDate <= dns.clock)
    ensures forall c :: dns.asked[c] <= 1 ==> ToldTo(dns.told)[c] <= 1
    ensures forall c, id :: id in dns.queryList && dns.asked[c] <= 1 && c in Clients(dns.queryList[id]) ==> ToldTo(dns.told)[c] == 0
    ensures StillForgotten(old(dns.queryList), old(dns.queryByNextDueTime), dns.queryList, dns.queryByNextDueTime,
                           Replied(events[..done]))
  {
    hide Conserved, CacheOk, HostsOk, TimesOk, Scan, Settled, Retried, Unexpired, StillForgotten, Replied, Acted, Checked;
    hide NoneRevived, Clients;
    done := 0;
    ghost var was, wasTimes := dns.queryList, dns.queryByNextDueTime;
    AllForgotten(was, wasTimes, {});
    NobodyReplied(events);
    while done < |events|
      invariant done <= |events| && dns.Valid() && dns.clock >= old(dns.clock)
      invariant StillForgotten(was, wasTimes, dns.queryList, dns.queryByNextDueTime, Replied(events[..done]))
    {
      var clash := Step(dns, events[done], was, wasTimes, Replied(events[..done]));
      if clash {
        break;
      }
      RepliedNext(events, done);
      done := done + 1;
    }
    TellOnce(dns.asked, dns.told, dns.cancelled, dns.ids, dns.queryList);
  }

  lemma RepliedOne(e: Event)
    ensures Replied([e]) == if e.Reply? && e.readable then {e.id} else {}
  {
    assert e in [e];
  }

  lemma NobodyReplied(events: seq<Event>)
    ensures Replied(events[..0]) == {}
  {
  }

  lemma RepliedNext(events: seq<Event>, n: nat)
    requires n < |events|
    ensures Replied(events[..n + 1]) == Replied(events[..n]) + Replied([events[n]])
  {
    assert events[..n + 1] == events[..n] + [events[n]];
  }

  // One callback. A lookup whose new id is in use is reported and not gone through with.
  method Step(dns: Dns, e: Event, ghost was: map<nat, Query>, ghost wasTimes: map<nat, seq<nat>>, ghost but: set<nat>)
    returns (clash: bool)
    requires dns.Valid() && StillForgotten(was, wasTimes, dns.queryList, dns.queryByNextDueTime, but)
    modifies dns
    ensures dns.Valid() && dns.clock >= old(dns.clock)
    ensures clash ==>
      && e.Lookup? && dns.increment in dns.queryList && e.host !in dns.queryListByHost && dns.clientInProgress <= 1000
      && (e.host in dns.cache ==> dns.cache[e.host].outdatedDate <= dns.clock)
    ensures StillForgotten(was, wasTimes, dns.queryList, dns.queryByNextDueTime, if clash then but else but + Replied([e]))
  {
    hide Conserved, CacheOk, HostsOk, TimesOk, Scan, Settled, Retried, Unexpired, StillForgotten, Acted, Checked, NoneRevived;
    hide Joined, Departed, Side, Push, Unbucketed, OnlyErrors, Replied;
    clash := false;
    ghost var before, times := dns.queryList, dns.queryByNextDueTime;
    AllForgotten(before, times, {});
    RepliedOne(e);
    match e {
      case Lookup(client, host, https) =>
        var ok;
        ok, clash := dns.Get(client, host, https);
      case Cancel(client, host, https) => dns.CancelClient(client, host, https);
      case Reply(readable, id, flags, answers, buffer, size, pos) =>
        dns.Receive(readable, id, flags, answers, buffer, size, pos);
      case QueryTimer =>
        dns.CheckQueries();
        CheckedForgotten(before, times, dns.queryList, dns.queryByNextDueTime, old(dns.clock), dns.clock);
      case CacheTimer => dns.CleanCache();
    }
    ForgottenOn(was, wasTimes, before, times, dns.queryList, dns.queryByNextDueTime, but, Replied([e]));
    assert but + {} == but;
  }

  lemma {:induction false} WaitingIncludes(ids: seq<nat>, queryList: map<nat, Query>, id: nat)
    requires (forall i :: i in ids ==> i in queryList) && id in ids
    ensures Clients(queryList[id]) <= Waiting(ids, queryList)
  {
    if ids[0] != id {
      assert id in ids[1..];
      WaitingIncludes(ids[1..], queryList, id);
    }
  }

  lemma TellOnce(asked: multiset<Client>, told: seq<Notice>, cancelled: multiset<Client>, ids: seq<nat>, queryList: map<nat, Query>)
    requires Conserved(asked, told, cancelled, ids, queryList)
    ensures forall c :: asked[c] <= 1 ==> ToldTo(told)[c] <= 1
    ensures forall c, id :: id in queryList && asked[c] <= 1 && c in Clients(queryList[id]) ==> ToldTo(told)[c] == 0
  {
    forall c | asked[c] <= 1 ensures ToldTo(told)[c] <= 1 {
      assert asked[c] == (ToldTo(told) + Waiting(ids, queryList) + cancelled)[c];
    }
    forall c, id | id in queryList && asked[c] <= 1 && c in Clients(queryList[id]) ensures ToldTo(told)[c] == 0 {
      WaitingIncludes(ids, queryList, id);
      assert Clients(queryList[id])[c] <= Waiting(ids, queryList)[c];
      assert asked[c] == (ToldTo(told) + Waiting(ids, queryList) + cancelled)[c];
    }
  }
}

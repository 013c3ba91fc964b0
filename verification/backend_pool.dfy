// The allocator of backend connections: one BackendList per remote address, the Backend
// connections it owns and the Http downloads that use them or wait for one.
// Each method is one callback of the event loop, run to its end.
module BackendPool {

  import opened Lists

  // The busy and idle lists of one address: no backend twice, at most max in all.
  ghost predicate Allocated(busy: seq<Backend>, idle: seq<Backend>, max: nat) {
    NoDup(busy) && NoDup(idle) && (forall b :: b in busy ==> b !in idle) && |busy| + |idle| <= max
  }

  lemma TakeIdle(busy: seq<Backend>, idle: seq<Backend>, max: nat, last: Backend)
    requires Allocated(busy, idle, max) && idle != [] && last == idle[|idle| - 1]
    ensures Allocated(busy + [last], idle[..|idle| - 1], max)
    ensures forall b :: b in idle[..|idle| - 1] <==> b in idle && b != last
  {
    assert last in idle;
    assert idle == idle[..|idle| - 1] + [last];
  }

  lemma DropBusy(busy: seq<Backend>, idle: seq<Backend>, max: nat, b: Backend)
    requires Allocated(busy, idle, max)
    ensures Allocated(Without(busy, b), idle, max)
    ensures |Without(busy, b)| == |busy| - if b in busy then 1 else 0
    ensures forall c :: c in Without(busy, b) <==> c in busy && c != b
  {
    WithoutFacts(busy, b);
  }

  lemma BusyWithout(busy: seq<Backend>, b: Backend)
    requires NoDup(busy)
    ensures forall c :: c in Without(busy, b) <==> c in busy && c != b
  {
    WithoutFacts(busy, b);
  }

  lemma DropIdle(busy: seq<Backend>, idle: seq<Backend>, max: nat, b: Backend)
    requires Allocated(busy, idle, max)
    ensures Allocated(busy, Without(idle, b), max)
    ensures forall c :: c in Without(idle, b) <==> c in idle && c != b
  {
    WithoutFacts(idle, b);
  }

  lemma DropWaiting(pending: seq<Http>, h: Http)
    requires NoDup(pending)
    ensures NoDup(Without(pending, h)) && |Without(pending, h)| <= |pending|
    ensures forall g :: g in Without(pending, h) <==> g in pending && g != h
  {
    WithoutFacts(pending, h);
  }

  // The elements of s at odd positions: what an index loop keeps when each turn erases the
  // element under the index and then steps over its successor.
  function EveryOther<T>(s: seq<T>): (r: seq<T>)
  {
    if |s| < 2 then [] else [s[1]] + EveryOther(s[2..])
  }

  lemma {:induction false} EveryOtherAt<T>(s: seq<T>)
    ensures |EveryOther(s)| == |s| / 2 && (EveryOther(s) == [] <==> |s| <= 1)
    ensures forall k :: 0 <= k < |s| / 2 ==> EveryOther(s)[k] == s[2 * k + 1]
  {
    if |s| >= 2 {
      EveryOtherAt(s[2..]);
      forall k | 0 <= k < |s| / 2 ensures EveryOther(s)[k] == s[2 * k + 1] {
        if k > 0 { assert EveryOther(s)[k] == EveryOther(s[2..])[k - 1] == s[2..][2 * k - 1]; }
      }
    }
  }

  lemma EveryOtherNoDup<T>(s: seq<T>)
    requires NoDup(s)
    ensures NoDup(EveryOther(s)) && forall x :: x in EveryOther(s) ==> x in s
  {
    EveryOtherAt(s);
  }

  // One turn of that loop: kept is what lies before the index, rest what lies from it on.
  lemma TurnErases<T>(kept: seq<T>, rest: seq<T>)
    requires NoDup(kept + rest) && rest != []
    ensures Without(kept + rest, rest[0]) == kept + rest[1..]
    ensures NoDup(kept + rest[1..]) && rest[0] !in kept && rest[0] !in rest[1..]
  {
    var p := kept + rest;
    assert forall k :: 0 <= k < |kept| ==> p[k] == kept[k];
    assert p[|kept|] == rest[0];
    assert p[..|kept|] == kept;
    WithoutAt(p, rest[0], |kept|);
    assert p[|kept| + 1..] == rest[1..];
    assert forall k :: 1 <= k < |rest| ==> p[|kept| + k] == rest[k];
    assert forall k :: 0 <= k < |kept + rest[1..]| ==>
      (kept + rest[1..])[k] == if k < |kept| then p[k] else p[k + 1];
  }

  // The next turn's kept and rest.
  lemma NextTurn<T>(was: seq<T>, kept: seq<T>, rest: seq<T>) returns (k: seq<T>, r: seq<T>)
    requires NoDup(kept + rest) && rest != [] && EveryOther(was) == kept + EveryOther(rest)
    ensures Without(kept + rest, rest[0]) == k + r && NoDup(k + r)
    ensures EveryOther(was) == k + EveryOther(r) && |r| < |rest|
    ensures if r == [] then |k| <= |kept| + 1 else |k| == |kept| + 1
    ensures forall x :: x in k || x in r <==> (x in kept || x in rest) && x != rest[0]
  {
    hide Without, NoDup;
    TurnErases(kept, rest);
    assert rest == [rest[0]] + rest[1..];
    if |rest| >= 2 {
      assert rest[1..] == [rest[1]] + rest[2..];
      k, r := kept + [rest[1]], rest[2..];
      assert k + r == kept + rest[1..];
    } else {
      k, r := kept, [];
    }
    assert forall x :: x in k || x in r <==> x in kept || x in rest[1..];
  }

  // ---------------------------------------------------------------- the objects

  // Outcome of Backend::tryConnectInternal: no descriptor at all, a descriptor whose connect
  // failed at once (it stays open), or a connection under way.
  datatype Dial = NoSocket | Refused | Connecting

  // A download. Only the fields that the allocator reads or writes.
  class Http {
    var backend: Backend?
    var backendList: BackendList?
    var alive: bool            // host and uri are both non-empty
    var clients: seq<nat>      // clientsList
    var pending: bool

    constructor (clients: seq<nat>)
      ensures backend == null && backendList == null && !alive && !pending && this.clients == clients
    {
      backend, backendList, alive, pending := null, null, false, false;
      this.clients := clients;
    }

    ghost function AsLink(): Link
      reads this`backend, this`alive, this`clients
    {
      Link(backend, alive, clients)
    }

    // haveUrlAndFrontendConnected
    predicate Ready()
      reads this`alive, this`clients
    {
      alive && clients != []
    }

    // addClient: a client joins unless the download is dead or has it already.
    method AddClient(client: nat, ghost list: BackendList)
      requires list.Valid() && this in list.https
      modifies this`clients
      ensures list.Valid()
      ensures clients == if alive && client !in old(clients) then old(clients) + [client] else old(clients)
      ensures !old(list.Stranded()) ==> (list.Stranded() <==>
        old(list.busy == [] && list.idle == [] && this in list.pending && alive && clients == []))
    {
      if !alive {
        return;
      }
      var i := 0;
      while i < |clients|
        invariant i <= |clients| && client !in clients[..i]
      {
        if clients[i] == client {
          return;
        }
        i := i + 1;
      }
      clients := clients + [client];
      assert forall h :: h in list.pending && h != this ==> h.Ready() == old(h.Ready());
    }

    // removeClient: every registration of the client goes; true when there was exactly one.
    method RemoveClient(client: nat, ghost list: BackendList) returns (ok: bool)
      requires list.Valid() && this in list.https
      modifies this`clients
      ensures list.Valid() && clients == WithoutAll(old(clients), client)
      ensures ok <==> multiset(old(clients))[client] == 1
      ensures !old(list.Stranded()) ==> !list.Stranded()
    {
      WithoutAllCount(clients, client);
      var itemDropped := EraseClient(client);
      ok := itemDropped == 1;
      assert forall h :: h in list.pending && h != this ==> h.Ready() == old(h.Ready());
      assert clients != [] ==> old(clients) != [];
    }

    // The index loop of removeClient.
    method EraseClient(client: nat) returns (itemDropped: nat)
      modifies this`clients
      ensures clients == WithoutAll(old(clients), client) && itemDropped == |old(clients)| - |clients|
    {
      hide WithoutAll;
      ghost var kept, rest := [], clients;
      WithoutAllEnds(kept, rest, client);
      var i := 0;
      itemDropped := 0;
      while i < |clients|
        invariant clients == kept + rest && i == |kept| && itemDropped == |old(clients)| - |clients|
        invariant WithoutAll(old(clients), client) == kept + WithoutAll(rest, client)
        decreases |rest|
      {
        TurnSlices(kept, rest);
        WithoutAllTurn(kept, rest, client);
        if clients[i] == client {
          clients := clients[..i] + clients[i + 1..];
          itemDropped := itemDropped + 1;
        } else {
          kept := kept + [rest[0]];
          i := i + 1;
        }
        rest := rest[1..];
      }
      WithoutAllEnds(kept, rest, client);
    }

    // backendError, then disconnectFrontend: every client is told and forgotten.
    method Abort()
      modifies this`clients
      ensures clients == []
    {
      clients := [];
    }

    // disconnectBackend of a download that has no backend: it leaves the waiting list, if it
    // is on one, and forgets its address.
    method LeavePending(list: BackendList)
      requires backend == null && (backendList == null || backendList == list)
      modifies this`backendList, this`alive, list`pending
      ensures list.pending == if old(backendList) == null then old(list.pending) else Without(old(list.pending), this)
      ensures backendList == null && !alive
    {
      if backendList != null {
        list.ErasePending(this);
      }
      backendList := null;
      alive := false;
    }

    // disconnectBackend: the connection is let go, or the place on the waiting list.
    method DisconnectBackend(list: BackendList)
      requires list.Valid() && this in list.https
      modifies this, list`busy, list`idle, list`pending, list`registered, list`backends
      modifies list.backends`http, list.backends`open, list.backends`backendList, list.https
      ensures list.Valid() && backend == null && backendList == null && !alive && this !in list.pending
      ensures list.backends == old(list.backends) && list.https == old(list.https)
      ensures list.registered == old(list.registered)
      ensures old(clients) == [] ==> clients == []
      ensures old(backend) == null ==>
        && list.busy == old(list.busy) && list.idle == old(list.idle)
        && (forall b :: b in list.backends ==> unchanged(b))
      ensures old(backend) == null ==>
        list.pending == if old(backendList) == null then old(list.pending) else Without<Http>(old(list.pending), this)
      ensures old(backend) != null && !old(backend).wasTCPConnected ==>
        && !old(backend).open && list.idle == old(list.idle)
        && list.busy == Without<Backend>(old(list.busy), old(backend))
        && list.pending == (if list.busy == [] then EveryOther(old(list.pending)) else old(list.pending))
      ensures !old(list.Stranded()) ==> !list.Stranded()
      ensures old(backend) != null && old(backend).wasTCPConnected ==>
        && Served(old(list.pending), old(Readiness(list.pending)), list.pending, old(backend).http)
        && Waiting(old(list.pending), old(Readiness(list.pending)), list.pending)
        && if old(backend).http != null then
             old(backend).http.backend == old(backend) && list.busy == old(list.busy) && list.idle == old(list.idle)
           else
             list.pending == [] && list.busy == Without<Backend>(old(list.busy), old(backend)) &&
             list.idle == old(list.idle) + if old(backend.open) then [old(backend)] else []
      ensures old(list.Carrying()) ==> list.Carrying()
      ensures LetGo(old(list.Shown()), list.Shown(), this)
    {
      hide *;
      if backend != null {
        FinishDownload(list);
      } else {
        GiveUpPlace(list);
      }
    }

    method FinishDownload(list: BackendList)
      requires list.Valid() && this in list.https && backend != null
      modifies this, list`busy, list`idle, list`pending, list`registered, list`backends
      modifies list.backends`http, list.backends`open, list.backends`backendList, list.https
      ensures list.Valid() && backend == null && backendList == null && !alive && this !in list.pending
      ensures list.backends == old(list.backends) && list.https == old(list.https)
      ensures list.registered == old(list.registered)
      ensures old(clients) == [] ==> clients == []
      ensures !old(backend).wasTCPConnected ==>
        && !old(backend).open && list.idle == old(list.idle)
        && list.busy == Without<Backend>(old(list.busy), old(backend))
        && list.pending == (if list.busy == [] then EveryOther(old(list.pending)) else old(list.pending))
      ensures !old(list.Stranded()) ==> !list.Stranded()
      ensures old(backend).wasTCPConnected ==>
        && Served(old(list.pending), old(Readiness(list.pending)), list.pending, old(backend).http)
        && Waiting(old(list.pending), old(Readiness(list.pending)), list.pending)
        && if old(backend).http != null then
             old(backend).http.backend == old(backend) && list.busy == old(list.busy) && list.idle == old(list.idle)
           else
             list.pending == [] && list.busy == Without<Backend>(old(list.busy), old(backend)) &&
             list.idle == old(list.idle) + if old(backend.open) then [old(backend)] else []
      ensures old(list.Carrying()) ==> list.Carrying()
      ensures LetGo(old(list.Shown()), list.Shown(), this)
    {
      hide Without, NoDup, EveryOther, Served, Waiting, Readiness, FirstReady, Serves, BackendList.Valid, BackendList.Carrying;
      LinkedBack(list);
      if backend.wasTCPConnected {
        FinishAnswered(list);
      } else {
        FinishUnanswered(list);
      }
    }

    method FinishUnanswered(list: BackendList)
      requires list.Valid() && this in list.https && backend != null && !backend.wasTCPConnected
      modifies this, list`busy, list`idle, list`pending, list`registered, list`backends
      modifies list.backends`http, list.backends`open, list.backends`backendList, list.https
      ensures list.Valid() && backend == null && backendList == null && !alive && this !in list.pending
      ensures list.backends == old(list.backends) && list.https == old(list.https)
      ensures list.registered == old(list.registered) && clients == [] && !old(backend).open
      ensures !old(list.Stranded()) ==> !list.Stranded()
      ensures old(list.Carrying()) ==> list.Carrying()
      ensures Abandons(old(list.Shown()), list.Shown(), this, old(backend))
    {
      hide Without, NoDup, EveryOther, Allocated, Served, Waiting, View.ReadyAt;
      hide BackendList.Valid, BackendList.Carrying, BackendList.Stranded, Http.Ready, AnyReady, Readiness;
      ghost var v, b := list.Shown(), backend;
      LinkedBack(list);
      list.Members();
      list.LinksOf(backend);
      BusyWithout(list.busy, backend);
      backend.DownloadFinished(list);
      Unlist(list);
      ghost var w := list.Shown();
      assert w.answered == v.answered && w.links.Keys == v.links.Keys && w.open == v.open - {b};
    }

    method FinishAnswered(list: BackendList)
      requires list.Valid() && this in list.https && backend != null && backend.wasTCPConnected
      modifies this, list`busy, list`idle, list`pending, list`registered, list`backends
      modifies list.backends`http, list.backends`open, list.backends`backendList, list.https
      ensures list.Valid() && backend == null && backendList == null && !alive && this !in list.pending
      ensures list.backends == old(list.backends) && list.https == old(list.https)
      ensures list.registered == old(list.registered) && clients == old(clients)
      ensures !old(list.Stranded()) ==> !list.Stranded()
      ensures Served(old(list.pending), old(Readiness(list.pending)), list.pending, old(backend).http)
      ensures Waiting(old(list.pending), old(Readiness(list.pending)), list.pending)
      ensures if old(backend).http != null then
          old(backend).http.backend == old(backend) && list.busy == old(list.busy) && list.idle == old(list.idle)
        else
          list.pending == [] && list.busy == Without<Backend>(old(list.busy), old(backend)) &&
          list.idle == old(list.idle) + if old(backend.open) then [old(backend)] else []
      ensures old(list.Carrying()) ==> list.Carrying()
      ensures exists k :: FirstReady(old(list.Shown()), k) && Serves(old(list.Shown()), list.Shown(), this, old(backend), k)
    {
      hide Without, NoDup, EveryOther, Allocated, Served, Waiting, Serves, FirstReady, LinksServed;
      hide BackendList.Valid, BackendList.Carrying, BackendList.Stranded, AnyReady, Readiness;
      hide BackendList.OpenBusy, BackendList.AnsweredOnes;
      ghost var v, ready, b := list.Shown(), Readiness(list.pending), backend;
      list.ReadyShown();
      HolderShown(list);
      list.Members();
      LetAnsweredGo(list);
      ghost var mid := list.Shown();
      ServedShown(v, mid, this, b, ready, b.http);
      UnlistShown(list, mid);
    }

    // What downloadFinished does to the links of an answered connection's download.
    method LetAnsweredGo(list: BackendList)
      requires list.Valid() && this in list.https && backend != null && backend.wasTCPConnected
      modifies this, list`busy, list`idle, list`pending, list`registered, list`backends
      modifies list.backends`http, list.backends`open, list.backends`backendList, list.https
      ensures list.Valid() && backend == null && this !in list.pending
      ensures list.backends == old(list.backends) && list.https == old(list.https)
      ensures list.registered == old(list.registered) && AsLink() == old(AsLink()).(backend := null)
      ensures !old(list.Stranded()) ==> !list.Stranded()
      ensures Served(old(list.pending), old(Readiness(list.pending)), list.pending, old(backend).http)
      ensures Waiting(old(list.pending), old(Readiness(list.pending)), list.pending)
      ensures if old(backend).http != null then
          old(backend).http.backend == old(backend) && list.busy == old(list.busy) && list.idle == old(list.idle)
        else
          list.pending == [] && list.busy == Without<Backend>(old(list.busy), old(backend)) &&
          list.idle == old(list.idle) + if old(backend.open) then [old(backend)] else []
      ensures old(list.Carrying()) ==> list.Carrying()
      ensures Detached(old(list.Shown()), list.Shown(), this, old(backend), old(Readiness(list.pending)), old(backend).http)
    {
      hide Without, NoDup, EveryOther, Allocated, Served, Waiting, View.ReadyAt;
      hide BackendList.Valid, BackendList.Carrying, BackendList.Stranded, Http.Ready, Http.AsLink, AnyReady, Readiness;
      ghost var v, b := list.Shown(), backend;
      LinkedBack(list);
      list.Members();
      list.LinksOf(backend);
      BusyWithout(list.busy, backend);
      backend.DownloadFinished(list);
      ghost var w := list.Shown();
      assert w.answered == v.answered && w.links.Keys == v.links.Keys;
      assert w.open == if b.http != null then v.open else v.open - {b};
      forall g | g in v.links && g != this
        ensures w.links[g] == if g in v.pending && g !in w.pending then
                                if g == b.http then v.links[g].(backend := b) else Link(null, false, [])
                              else v.links[g]
      {
        assert g in list.https;
      }
    }

    method UnlistShown(list: BackendList, ghost mid: View)
      requires list.Valid() && this in list.https && this !in list.pending && backend == null && mid == list.Shown()
      modifies this`backend, this`backendList, this`alive
      ensures list.Valid() && backend == null && backendList == null && !alive && this in mid.links
      ensures list.Shown() == mid.(links := mid.links[this := mid.links[this].(alive := false)])
      ensures !old(list.Stranded()) ==> !list.Stranded()
    {
      hide BackendList.Valid;
      Unlist(list);
      assert list.Shown().links == mid.links[this := mid.links[this].(alive := false)];
    }

    method GiveUpPlace(list: BackendList)
      requires list.Valid() && this in list.https && backend == null
      modifies this`backend, this`backendList, this`alive, list`pending
      ensures list.Valid() && backend == null && backendList == null && !alive && this !in list.pending
      ensures list.pending == if old(backendList) == null then old(list.pending) else Without<Http>(old(list.pending), this)
      ensures !old(list.Stranded()) ==> !list.Stranded()
      ensures LetGo(old(list.Shown()), list.Shown(), this)
    {
      hide Without, NoDup, EveryOther, Allocated, Http.Ready;
      hide BackendList.Valid, BackendList.Carrying, BackendList.Stranded, BackendList.AnsweredOnes, BackendList.OpenBusy;
      ghost var v := list.Shown();
      if backendList != null {
        LeaveShown(list);
      } else {
        NotWaiting(list);
        WithoutAbsent(list.pending, this);
      }
      ghost var mid := list.Shown();
      UnlistShown(list, mid);
    }

    method LeaveShown(list: BackendList)
      requires list.Valid() && this in list.https
      modifies list`pending
      ensures list.Valid() && this !in list.pending && list.pending == Without(old(list.pending), this)
      ensures list.Shown() == old(list.Shown()).(pending := list.pending)
      ensures !old(list.Stranded()) ==> !list.Stranded()
    {
      hide Without, NoDup;
      list.Leave(this);
    }

    // The status code of an answer has been read; anything but 200 ends the exchange.
    method ReadStatus(list: BackendList, code: int)
      requires list.Valid() && this in list.https
      modifies this, list`busy, list`idle, list`pending, list`registered, list`backends, list.https
      modifies list.backends`http, list.backends`open, list.backends`backendList
      modifies (if backend == null then {} else {backend})`wasTCPConnected
      ensures list.Valid() && list.backends == old(list.backends) && list.https == old(list.https)
      ensures list.registered == old(list.registered)
      ensures old(backend) != null ==> old(backend).wasTCPConnected
      ensures if code == 200 then
          backend == old(backend) && list.busy == old(list.busy) && list.idle == old(list.idle) &&
          list.pending == old(list.pending) && alive == old(alive) && clients == old(clients)
        else backend == null && !alive && clients == []
      ensures code == 200 ==>
        && (forall h :: h in list.https ==> unchanged(h))
        && (forall b :: b in list.backends && b != backend ==> unchanged(b))
        && (backend != null ==> backend.http == this && backend.open == old(backend.open))
      ensures !old(list.Stranded()) ==> !list.Stranded()
      ensures old(list.Carrying()) ==> list.Carrying()
      ensures code != 200 ==> LetGo(old(list.Shown().Answering(this).Told(this)), list.Shown(), this)
    {
      hide Without, NoDup, EveryOther, Allocated, Served, Dropped, LetGo;
      if backend != null {
        Answer(list);
      }
      assert list.Shown() == old(list.Shown().Answering(this));
      if code != 200 {
        Refuse(list);
      }
    }

    method Answer(list: BackendList)
      requires list.Valid() && this in list.https && backend != null
      modifies backend`wasTCPConnected
      ensures list.Valid() && backend.wasTCPConnected && backend in list.backends && backend.http == this
      ensures list.Shown() == old(list.Shown().Answering(this))
    {
      LinkedBack(list);
      list.Answered(backend);
      assert list.Shown().links == old(list.Shown()).links;
      assert list.Shown().answered == old(list.Shown()).answered + {backend};
    }

    // Clients are told after the download has let go.
    method Refuse(list: BackendList)
      requires list.Valid() && this in list.https
      modifies this, list`busy, list`idle, list`pending, list`registered, list`backends
      modifies list.backends`http, list.backends`open, list.backends`backendList, list.https
      ensures list.Valid() && list.backends == old(list.backends) && list.https == old(list.https)
      ensures list.registered == old(list.registered) && backend == null && !alive && clients == []
      ensures !old(list.Stranded()) ==> !list.Stranded()
      ensures old(list.Carrying()) ==> list.Carrying()
      ensures LetGo(old(list.Shown().Told(this)), list.Shown(), this)
    {
      hide Without, NoDup, EveryOther, Served, Waiting, Readiness, LetGo, View.Told;
      hide BackendList.Valid, BackendList.Carrying, BackendList.Stranded, BackendList.Shown;
      ghost var v := list.Shown();
      HolderShown(list);
      DisconnectBackend(list);
      ghost var w := list.Shown();
      Tell(list);
      LetGoTold(v, w, this);
    }

    lemma HolderShown(list: BackendList)
      requires list.Valid() && this in list.https
      ensures this in list.Shown().links && list.Shown().pending == list.pending
      ensures list.Shown().links[this].backend != null ==> this !in list.pending
    {
      assert list.HttpOk(this);
    }

    // Every client is told and forgotten, as the list shows it.
    method Tell(list: BackendList)
      requires list.Valid() && this in list.https
      modifies this`clients
      ensures list.Valid() && clients == [] && list.Shown() == old(list.Shown().Told(this))
      ensures !old(list.Stranded()) ==> !list.Stranded()
    {
      hide BackendList.Valid;
      ghost var v := list.Shown();
      Abort();
      assert list.Shown().links == v.Told(this).links;
      assert forall h :: h in list.pending && h.Ready() ==> old(h.Ready());
    }

    // No byte came for too long: clients are told, a connection is closed but kept, a waiting
    // download leaves the list.
    method DetectTimeout(list: BackendList, expired: bool)
      requires list.Valid() && this in list.https
      modifies this, list`busy, list`idle, list`pending, list`registered, list`backends, list.https
      modifies list.backends`http, list.backends`open, list.backends`backendList
      ensures list.Valid() && list.backends == old(list.backends) && list.https == old(list.https)
      ensures list.registered == old(list.registered)
      ensures list.busy == old(list.busy) && list.idle == old(list.idle)
      ensures expired ==> clients == [] && this !in list.pending
      ensures !expired ==> clients == old(clients) && backend == old(backend) && list.pending == old(list.pending)
      ensures expired && old(backend) != null ==> backend == old(backend) && !old(backend).open
      ensures !old(list.Stranded()) ==> !list.Stranded()
      ensures old(list.Carrying()) ==> list.Carrying()
      ensures !expired || old(backend) != null ==>
        list.pending == old(list.pending) && alive == old(alive) && forall h :: h in list.https && h != this ==> unchanged(h)
      ensures expired && old(backend) == null ==> LetGo(old(list.Shown().Told(this)), list.Shown(), this)
      ensures !expired || old(backend) != null ==>
        forall b :: b in list.backends && (expired ==> b != backend) ==> b.open == old(b.open)
    {
      hide Without, NoDup, EveryOther, Allocated, Served, Dropped, LetGo, View.Told, BackendList.Valid, BackendList.Shown;
      if expired {
        Tell(list);
        if backend != null {
          LinkedBack(list);
          list.Holding(backend);
          backend.Close(list);
        } else {
          DisconnectBackend(list);
        }
      }
    }

    // tryConnectInternal of a new download whose address already has a list.
    method TryConnectInternal(list: BackendList, dial: Dial) returns (ok: bool)
      requires list.Valid() && list.registered && this !in list.https && backend == null && backendList == null
      modifies this, list`busy, list`idle, list`pending, list`backends, list`https, list.idle`http
      ensures list.Valid() && list.https == old(list.https) + {this} && old(list.backends) <= list.backends
      ensures fresh(list.backends - old(list.backends))
      ensures ok <==> backend != null
      ensures backend != null ==> backend.http == this && backend.open && backend in list.busy
      ensures backend == null && this !in list.pending <==>
        old(list.idle) == [] && |old(list.busy)| < list.maxBackend && !dial.Connecting?
      ensures this in list.pending <==> old(list.idle) == [] && |old(list.busy)| >= list.maxBackend
      ensures if old(list.idle) != [] then
          backend == old(list.idle)[|old(list.idle)| - 1] && list.busy == old(list.busy) + [backend] &&
          old(list.idle) == list.idle + [backend] && list.pending == old(list.pending)
        else if |old(list.busy)| < list.maxBackend then
          list.idle == [] && list.pending == old(list.pending) &&
          if dial.Connecting? then backend != null && fresh(backend) && list.busy == old(list.busy) + [backend]
          else list.busy == old(list.busy)
        else backend == null && list.busy == old(list.busy) && list.idle == [] && list.pending == old(list.pending) + [this]
      ensures clients == old(clients) && alive && list.registered
      ensures !old(list.Stranded()) ==> (list.Stranded() <==> list.maxBackend == 0 && clients != [])
      ensures old(list.Carrying()) ==> list.Carrying()
      ensures forall b :: b in list.backends - old(list.backends) ==> !b.wasTCPConnected
    {
      hide Without, NoDup, EveryOther, Allocated, Served, Dropped, LetGo, BackendList.Valid, BackendList.Carrying;
      list.Members();
      list.Enroll(this);
      var b, connectInternal := list.TryConnectInternalList(this, dial);
      backend := b;
      ok := connectInternal && backend != null;
      ghost var was := old(list.pending);
      assert forall h :: h in was ==> h != this && h.Ready() == old(h.Ready());
      assert this in list.pending ==> list.pending == was + [this] && Ready() == (clients != []);
      assert this !in list.pending ==> list.pending == was;
    }

    method Unlist(list: BackendList)
      requires list.Valid() && this in list.https && this !in list.pending && backend == null
      modifies this`backend, this`backendList, this`alive
      ensures list.Valid() && backend == null && backendList == null && !alive
    {
      backend := null;
      backendList := null;
      alive := false;
    }

    lemma NotWaiting(list: BackendList)
      requires list.Valid() && this in list.https && backendList == null
      ensures this !in list.pending
    {
      assert list.HttpOk(this);
    }

    lemma LinkedBack(list: BackendList)
      requires list.Valid() && this in list.https && backend != null
      ensures backend in list.backends && backend.http == this && this !in list.pending
    {
      assert list.HttpOk(this);
    }

    // backendError, disconnectFrontend and disconnectBackend of a download without a backend.
    method Drop(list: BackendList)
      requires backend == null && (backendList == null || backendList == list)
      modifies this`clients, this`backendList, this`alive, list`pending
      ensures list.pending == if old(backendList) == null then old(list.pending) else Without(old(list.pending), this)
      ensures Dropped(this)
    {
      Abort();
      LeavePending(list);
    }
  }

  // A download that has been told of the failure and holds nothing any more.
  ghost predicate Dropped(h: Http)
    reads h`backend, h`backendList, h`alive, h`clients
  {
    h.backend == null && h.backendList == null && !h.alive && h.clients == []
  }

  class Backend {
    var http: Http?
    var open: bool             // fd != -1
    var wasTCPConnected: bool
    var backendList: BackendList?

    constructor (list: BackendList)
      ensures http == null && !open && !wasTCPConnected && backendList == list
    {
      http, open, wasTCPConnected, backendList := null, false, false, list;
    }

    method TryConnectInternal(dial: Dial) returns (ok: bool)
      modifies this`open
      ensures ok == dial.Connecting? && open == !dial.NoSocket?
    {
      open := !dial.NoSocket?;
      ok := dial.Connecting?;
    }

    // close: the descriptor goes, the lists stay.
    method Close(ghost list: BackendList)
      requires list.Sound(this) && this in list.backends
      modifies this`open
      ensures !open && list.Sound(this)
      ensures this !in list.idle ==> list.Valid()
      ensures list.Shown() == old(list.Shown()).(open := old(list.Shown()).open - {this})
    {
      open := false;
    }

    // The loss of this connection leaves a ready download waiting for none: it is the only one,
    // and if it never answered, one of those that the loop steps over is ready; else no new
    // connection is opened for its download and somebody ready waits.
    ghost predicate LossStrands(list: BackendList, dial: Dial)
      reads this`wasTCPConnected, this`http, list`busy, list`pending, list.pending`alive, list.pending`clients
    {
      list.busy == [this] &&
      if !wasTCPConnected then OddReady(list.pending)
      else (http == null || !dial.Connecting?) && AnyReady(list.pending)
    }

    // remoteSocketClosed of a connection that never carried an answer: when it was the last
    // one, it drags waiting downloads with it.
    method CloseUnanswered(list: BackendList)
      requires list.Valid() && this in list.backends && backendList == list && !open
      modifies list`busy, list`pending, list.https
      ensures list.Valid() && this !in list.busy
      ensures list.busy == Without(old(list.busy), this)
      ensures list.pending == if list.busy == [] then EveryOther(old(list.pending)) else old(list.pending)
      ensures forall h :: h in old(list.pending) ==> if h in list.pending then unchanged(h) else Dropped(h)
      ensures forall h :: h in list.https && h !in old(list.pending) && h != http ==> unchanged(h)
      ensures forall h :: h in list.https && !old(h.alive) ==> !h.alive
      ensures forall h :: h in list.https && old(h.clients) == [] ==> h.clients == []
      ensures http != null ==> http.backend == null
      ensures forall h :: h in list.pending ==> h in old(list.pending)
      ensures !old(list.Stranded()) ==> (list.Stranded() <==> old(list.busy == [this] && OddReady(list.pending)))
      ensures old(list.Carrying()) ==> list.Carrying()
      ensures LosesUnanswered(old(list.Shown()), list.Shown(), this)
    {
      hide Without, NoDup, EveryOther, Allocated, AnyReady, OddReady, Http.AsLink, BackendList.OpenBusy, BackendList.Valid;
      ghost var v := list.Shown();
      list.LinksOf(this);
      list.Members();
      ForgetLast(list);
      if http != null {
        list.Disown(this);
      }
      ghost var w := list.Shown();
      assert w.answered == v.answered && w.links.Keys == v.links.Keys;
    }

    // The part of that on the list: when this was the last connection, waiting downloads go.
    method ForgetLast(list: BackendList)
      requires list.Valid() && this in list.backends && backendList == list && !open
      modifies list`busy, list`pending, list.pending
      ensures list.Valid() && this !in list.busy
      ensures list.busy == Without(old(list.busy), this)
      ensures list.pending == if list.busy == [] then EveryOther(old(list.pending)) else old(list.pending)
      ensures forall h :: h in old(list.pending) ==> if h in list.pending then unchanged(h) else Dropped(h)
      ensures forall h :: h in list.pending ==> h in old(list.pending)
      ensures !old(list.Stranded()) ==> (list.Stranded() <==> old(list.busy == [this] && OddReady(list.pending)))
      ensures old(list.Carrying()) ==> list.Carrying()
      ensures list.OpenBusy() == old(list.OpenBusy()) - {this}
      ensures forall h :: h in list.https ==>
        h.AsLink() == if h in old(list.pending) && h !in list.pending then Link(null, false, []) else old(h.AsLink())
    {
      hide Without, NoDup, EveryOther, Allocated, AnyReady, OddReady, Http.AsLink, Dropped, BackendList.OpenBusy;
      EveryOtherAt(list.pending);
      AloneIn(list);
      OddAny(list.pending);
      list.Forget(this);
      if list.pending != [] && list.busy == [] {
        list.AbortWaiting();
      }
    }

    // The download of a dead connection gets a new one, unless that cannot be opened.
    method ReassignToNew(list: BackendList, dial: Dial)
      requires list.Valid() && list.registered && this in list.backends && list.idle == []
      requires this !in list.busy && |list.busy| < list.maxBackend && http != null && http.backend == this
      modifies list`busy, list`backends, this`http, http`backend
      ensures list.Valid() && this !in list.busy
      ensures old(list.backends) <= list.backends && fresh(list.backends - old(list.backends))
      ensures if dial.Connecting? then
          http == null && |list.busy| > 0 && list.busy[..|list.busy| - 1] == old(list.busy) &&
          fresh(list.busy[|list.busy| - 1]) && list.busy[|list.busy| - 1].open &&
          old(http).backend == list.busy[|list.busy| - 1]
        else http == old(http) && http.backend == this && list.busy == old(list.busy)
      ensures old(list.Carrying()) ==> list.Carrying()
      ensures forall b :: b in list.backends - old(list.backends) ==> !b.wasTCPConnected
      ensures list.OpenBusy() ==
        if dial.Connecting? then old(list.OpenBusy()) + {list.busy[|list.busy| - 1]} else old(list.OpenBusy())
      ensures dial.Connecting? ==> TakesOver(old(list.Shown()), list.Shown(), this, list.busy[|list.busy| - 1])
      ensures !dial.Connecting? ==> list.Shown() == old(list.Shown())
    {
      hide Without, NoDup, EveryOther, Http.AsLink, BackendList.Valid, BackendList.OpenBusy, BackendList.AnsweredOnes;
      list.LinksOf(this);
      list.Members();
      var newBackend, ok := list.DialNew(dial);
      ghost var v := list.Shown();
      if ok {
        list.MoveToNew(this, newBackend);
        ghost var w := list.Shown();
        assert w.answered == v.answered && w.links.Keys == v.links.Keys && w.open == v.open + {newBackend};
      }
    }

    // remoteSocketClosed of a busy connection: its download moves to an idle connection, or
    // else to a new one; a list left empty is forgotten.
    method HandOver(list: BackendList, dial: Dial)
      requires list.Valid() && this in list.busy && !open
      modifies this`backendList, list`busy, list`idle, list`registered, list`backends, list.backends`http, list.https`backend
      ensures list.Valid() && this !in list.busy && this !in list.idle
      ensures old(list.backends) <= list.backends && fresh(list.backends - old(list.backends))
      ensures http == null || (old(list.idle) == [] && !dial.Connecting? && http == old(http) && http.backend == this)
      ensures old(http) != null && old(list.idle) != [] ==>
        Handed(list.busy, Without(old(list.busy), this), old(http), old(list.idle), list.idle)
      ensures old(http) != null && old(list.idle) == [] ==>
        && list.idle == []
        && (if dial.Connecting? then
              |list.busy| > 0 && list.busy[..|list.busy| - 1] == Without(old(list.busy), this) &&
              fresh(old(http).backend) && old(http).backend == list.busy[|list.busy| - 1]
            else list.busy == Without(old(list.busy), this) && old(http).backend == this)
      ensures old(http) == null ==> list.busy == Without(old(list.busy), this) && list.idle == old(list.idle)
      ensures list.registered <==> old(list.registered) && (old(http) != null || list.busy + list.idle != [] || list.pending != [])
      ensures list.Stranded() <==>
        old(list.busy == [this] && list.idle == [] && AnyReady(list.pending)) && (old(http) == null || !dial.Connecting?)
      ensures old(list.Carrying()) ==> list.Carrying()
      ensures forall b :: b in list.backends - old(list.backends) ==> !b.wasTCPConnected
      ensures old(http) != null ==> HandsOver(old(list.Shown()), list.Shown(), this, dial)
    {
      hide Without, NoDup, EveryOther, Allocated, BackendList.Valid, HandsOver, TakesOver, Http.Ready;
      hide BackendList.OpenBusy, BackendList.LinkMap;
      ghost var v := list.Shown();
      AloneIn(list);
      list.Members();
      list.LinksOf(this);
      list.Forget(this);
      if http == null {
        LeaveList(list);
        return;
      }
      ghost var mid := list.Shown();
      if list.idle != [] {
        HandToIdle(list);
      } else {
        ReassignToNew(list, dial);
      }
      Handing(v, mid, list.Shown(), this, dial);
    }

    // The download of a dead connection moves to the last idle one.
    method HandToIdle(list: BackendList)
      requires list.Valid() && this in list.backends && list.idle != [] && http != null && http.backend == this
      requires this !in list.busy && this !in list.idle
      modifies list`busy, list`idle, list.backends`http, http`backend
      ensures list.Valid() && http == null
      ensures Handed(list.busy, old(list.busy), old(http), old(list.idle), list.idle)
      ensures old(list.Carrying()) ==> list.Carrying()
      ensures TakesOver(old(list.Shown()), list.Shown(), this, old(list.idle[|list.idle| - 1]))
    {
      hide Without, NoDup, EveryOther, Allocated, BackendList.Valid, Http.AsLink, BackendList.OpenBusy, Http.Ready;
      ghost var v := list.Shown();
      list.Members();
      list.LinksOf(this);
      var backend := list.PopIdle();
      list.Move(this, backend);
      ghost var w := list.Shown();
      assert w.answered == v.answered && w.links.Keys == v.links.Keys;
    }

    // The end of that for a connection without a download. An empty list leaves the table.
    method LeaveList(list: BackendList)
      requires list.Valid() && this in list.backends && this !in list.busy && this !in list.idle && http == null
      modifies this`backendList, list`registered
      ensures list.Valid() && backendList == null
      ensures list.registered <==> old(list.registered) && (list.busy + list.idle != [] || list.pending != [])
    {
      if list.busy == [] && list.idle == [] && list.pending == [] {
        list.registered := false;
      }
      backendList := null;
    }

    // remoteSocketClosed of a connection that has answered.
    method CloseAnswered(list: BackendList, dial: Dial)
      requires list.Sound(this) && this in list.backends && backendList == list && wasTCPConnected && !open
      modifies this`backendList, list`busy, list`idle, list`registered, list`backends, list.backends`http, list.https`backend
      ensures list.Valid() && this !in list.busy && this !in list.idle
      ensures old(list.backends) <= list.backends && fresh(list.backends - old(list.backends))
      ensures this !in old(list.busy) ==> list.busy == old(list.busy) && list.idle == Without(old(list.idle), this)
      ensures this in old(list.busy) && old(http) != null ==>
        if old(list.idle) != [] then
          Handed(list.busy, Without(old(list.busy), this), old(http), old(list.idle), list.idle)
        else
          && list.idle == []
          && if dial.Connecting? then
               |list.busy| > 0 && list.busy[..|list.busy| - 1] == Without(old(list.busy), this) &&
               fresh(old(http).backend) && old(http).backend == list.busy[|list.busy| - 1]
             else list.busy == Without(old(list.busy), this) && old(http).backend == this
      ensures this in old(list.busy) && old(http) == null ==>
        list.busy == Without(old(list.busy), this) && list.idle == old(list.idle)
      ensures list.registered <==>
        && old(list.registered)
        && (this in old(list.busy) && old(http) == null ==> list.busy + list.idle != [] || list.pending != [])
      ensures !old(list.Stranded()) ==> (list.Stranded() <==> old(LossStrands(list, dial)))
      ensures old(list.Carrying()) ==> list.Carrying()
      ensures forall b :: b in list.backends - old(list.backends) ==> !b.wasTCPConnected
      ensures old(list.Carrying()) ==> Loses(old(list.Shown()), list.Shown(), this, dial)
    {
      hide Without, NoDup, EveryOther, Allocated, Handed, Dropped, AnyReady, OddReady;
      hide BackendList.HttpOk, BackendList.OpenBusy, BackendList.AnsweredOnes, BackendList.LinkMap, Http.Ready, HandsOver;
      assert list.BackendOk(this, this);
      OddAny(list.pending);
      list.AnsweredIs(this);
      if this in list.busy {
        NotIdle(list);
        HandOver(list, dial);
      } else {
        list.ClosedIdle(this);
        list.ForgetIdle(this);
      }
    }

    // The socket is gone: afterwards this connection is closed and in neither list.
    method RemoteSocketClosed(list: BackendList, dial: Dial)
      requires list.Sound(this) && this in list.backends
      modifies this`open, this`backendList, list`busy, list`idle, list`pending, list`registered, list`backends
      modifies list.backends`http, list.https
      ensures list.Valid() && !open && this !in list.busy && this !in list.idle
      ensures old(list.backends) <= list.backends && fresh(list.backends - old(list.backends))
      ensures old(backendList) == null ==>
        list.busy == old(list.busy) && list.idle == old(list.idle) && list.pending == old(list.pending)
      ensures old(backendList) != null && !wasTCPConnected ==>
        && list.busy == Without(old(list.busy), this) && list.idle == old(list.idle)
        && list.pending == (if list.busy == [] then EveryOther(old(list.pending)) else old(list.pending))
        && (forall h :: h in old(list.pending) ==> if h in list.pending then unchanged(h) else Dropped(h))
        && (forall h :: h in list.https && h !in old(list.pending) && h != http ==> unchanged(h))
      ensures !wasTCPConnected ==>
        list.backends == old(list.backends) && http == old(http) && list.registered == old(list.registered)
      ensures forall h :: h in list.https && !old(h.alive) ==> !h.alive
      ensures forall h :: h in list.https && old(h.clients) == [] ==> h.clients == []
      ensures wasTCPConnected ==> list.pending == old(list.pending)
      ensures old(backendList) != null && wasTCPConnected && this !in old(list.busy) ==>
        list.busy == old(list.busy) && list.idle == Without(old(list.idle), this)
      ensures old(backendList) != null && wasTCPConnected && this in old(list.busy) && old(http) != null ==>
        if old(list.idle) != [] then
          Handed(list.busy, Without(old(list.busy), this), old(http), old(list.idle), list.idle)
        else
          && list.idle == []
          && if dial.Connecting? then
               |list.busy| > 0 && list.busy[..|list.busy| - 1] == Without(old(list.busy), this) &&
               fresh(old(http).backend) && old(http).backend == list.busy[|list.busy| - 1]
             else list.busy == Without(old(list.busy), this) && old(http).backend == this
      ensures old(backendList) != null && wasTCPConnected && this in old(list.busy) && old(http) == null ==>
        list.busy == Without(old(list.busy), this) && list.idle == old(list.idle)
      ensures list.registered <==>
        && old(list.registered)
        && (old(backendList) != null && wasTCPConnected && this in old(list.busy) && old(http) == null ==>
              list.busy + list.idle != [] || list.pending != [])
      ensures forall h :: h in list.pending ==> h in old(list.pending)
      ensures !old(list.Stranded()) ==> (list.Stranded() <==> old(LossStrands(list, dial)))
      ensures old(list.Carrying()) ==> list.Carrying()
      ensures forall b :: b in list.backends - old(list.backends) ==> !b.wasTCPConnected
      ensures old(list.Carrying()) ==> Loses(old(list.Shown()), list.Shown(), this, dial)
    {
      hide Without, NoDup, EveryOther, Allocated, Handed, Dropped, AnyReady, OddReady, Loses, LosesUnanswered, Http.Ready;
      hide BackendList.HttpOk, BackendList.Shown;
      assert list.BackendOk(this, this);
      OddAny(list.pending);
      list.AnsweredIs(this);
      ghost var v := list.Shown();
      Close(list);
      if backendList == null {
        return;
      }
      if !wasTCPConnected {
        CloseUnanswered(list);
      } else {
        CloseAnswered(list, dial);
      }
      ClosedFirst(v, list.Shown(), this, dial);
    }

    // downloadFinished of a connection that never carried an answer, up to its closing.
    method Relinquish(list: BackendList)
      requires list.Valid() && this in list.backends && backendList == list && http != null && !wasTCPConnected
      modifies this`http, http`backend, http`clients, list`busy, list.pending`clients
      ensures list.Valid() && http == null && old(http).backend == null && old(http).clients == []
      ensures list.busy == Without(old(list.busy), this) && this !in list.busy
      ensures list.busy == [] ==> forall h :: h in list.pending ==> h.clients == []
      ensures old(list.Carrying()) ==> list.Carrying()
      ensures list.busy != [] ==> forall h :: h in list.pending ==> unchanged(h)
    {
      hide Without, NoDup, LetGo, Dropped, Http.Ready;
      list.EraseBusy(this);
      DropBusy(old(list.busy), list.idle, list.maxBackend, this);
      assert list.Lists();
      hide Allocated, BackendList.Lists;
      if list.pending != [] && list.busy == [] {
        list.AbortClients();
      }
      http.backend := null;
      http.Abort();
      http := null;
      assert list.Lists();
      forall b | b in list.backends ensures list.BackendOk(b, null) {
        assert old(list.BackendOk(b, null));
      }
      forall h | h in list.https ensures list.HttpOk(h) {
        assert old(list.HttpOk(h));
      }
    }

    // downloadFinished with nobody waiting: an open connection becomes idle.
    method Park(list: BackendList)
      requires list.Valid() && this in list.backends && backendList == list && http != null && wasTCPConnected
      requires list.pending == []
      modifies this`http, http`backend, list`busy, list`idle
      ensures list.Valid() && http == null && old(http).backend == null
      ensures list.busy == Without(old(list.busy), this)
      ensures list.idle == old(list.idle) + if open then [this] else []
      ensures old(list.Carrying()) ==> list.Carrying()
      ensures forall h :: h in list.https ==>
        h.AsLink() == if h == old(http) then old(h.AsLink()).(backend := null) else old(h.AsLink())
    {
      hide Without;
      assert list.BackendOk(this, null);
      list.EraseBusy(this);
      DropBusy(old(list.busy), list.idle, list.maxBackend, this);
      if open {
        list.idle := list.idle + [this];
      }
      http.backend := null;
      http := null;
      assert list.Lists();
      forall b | b in list.backends ensures list.BackendOk(b, null) {
        assert old(list.BackendOk(b, null));
      }
      forall h | h in list.https ensures list.HttpOk(h) {
        assert old(list.HttpOk(h));
      }
    }

    lemma NextWaiting(list: BackendList, was: seq<Http>, ready: seq<bool>)
      requires list.Valid() && list.pending != [] && |ready| == |was| && Served(was, ready, list.pending, null)
      requires Waiting(was, ready, list.pending)
      ensures var taken := |was| - |list.pending|;
        && 0 <= taken < |was| && list.pending == [was[taken]] + was[taken + 1..] && was[taken].Ready() == ready[taken]
        && (forall k :: 0 <= k < taken ==> was[k] != was[taken])
        && Readiness(was[taken + 1..]) == ready[taken + 1..] && was[taken] !in was[taken + 1..]
        && Skipped(was, ready, taken)
    {
      var taken := |was| - |list.pending|;
      assert list.pending[0] == was[taken] && list.HttpOk(was[taken]);
      assert list.pending == [was[taken]] + was[taken + 1..];
      assert Readiness(list.pending)[0] == ready[taken];
      assert list.pending[1..] == was[taken + 1..];
      assert Readiness(was[taken + 1..]) == Readiness(list.pending)[1..];
      forall k | 0 < k < |list.pending| ensures list.pending[k] != list.pending[0] { }
    }

    // One turn of the loop of downloadFinished over the waiting downloads: the first of them
    // takes this connection if it is ready, else it is dropped.
    method TakeFirst(list: BackendList)
      requires list.Valid() && this in list.backends && backendList == list && http == null && list.pending != []
      requires (open ==> this in list.busy) && this !in list.idle
      modifies this`http, list`pending, list.pending[0]
      ensures list.Valid() && list.pending == old(list.pending)[1..]
      ensures if old(list.pending[0].Ready()) then http == old(list.pending)[0] && http.backend == this
        else http == null && Dropped(old(list.pending)[0])
      ensures old(list.pending)[0].AsLink() ==
        if http != null then old(list.pending[0].AsLink()).(backend := this) else Link(null, false, [])
    {
      hide NoDup, Allocated, BackendList.Valid, BackendList.Sound, BackendList.HttpOk, BackendList.BackendOk;
      ghost var waiting := list.pending;
      var httpToGet := list.PopPending();
      assert waiting[0] == httpToGet && waiting[1..] == list.pending;
      httpToGet.pending := true;
      if httpToGet.Ready() {
        list.Adopt(this, httpToGet);
      } else {
        list.DropLoose(httpToGet);
      }
    }

    method TakeNext(list: BackendList, ghost was: seq<Http>, ghost ready: seq<bool>)
      requires list.Valid() && this in list.backends && backendList == list && http == null && list.pending != []
      requires (open ==> this in list.busy) && this !in list.idle
      requires |ready| == |was| && Served(was, ready, list.pending, null)
      requires Waiting(was, ready, list.pending)
      modifies this`http, list`pending, list.pending[0]
      ensures list.Valid() && list.pending == old(list.pending)[1..]
      ensures Served(was, ready, list.pending, http) && Waiting(was, ready, list.pending)
      ensures http != null ==> http.backend == this && http == old(list.pending)[0]
      ensures old(list.pending)[0].AsLink() ==
        if http != null then old(list.pending[0].AsLink()).(backend := this) else Link(null, false, [])
    {
      hide NoDup, Dropped, Allocated, BackendList.Valid, BackendList.Sound, BackendList.HttpOk, BackendList.BackendOk;
      hide Served, Waiting, Skipped, Http.Ready, Http.AsLink;
      NextWaiting(list, was, ready);
      ghost var taken := |was| - |list.pending|;
      assert list.pending[0] == was[taken] && list.pending[1..] == was[taken + 1..];
      TakeFirst(list);
      ServedTurn(was, ready, taken, list.pending, http);
    }

    // The loop of downloadFinished over the waiting downloads: the first that still has
    // clients takes this connection, those before it are dropped.
    method TakeReady(list: BackendList)
      requires list.Valid() && this in list.backends && backendList == list && http == null
      requires (open ==> this in list.busy) && this !in list.idle
      modifies this`http, list`pending, list.pending
      ensures list.Valid() && Served(old(list.pending), old(Readiness(list.pending)), list.pending, http)
      ensures Waiting(old(list.pending), old(Readiness(list.pending)), list.pending)
      ensures if http == null then list.pending == [] else http.backend == this && http in old(list.pending)
      ensures forall h :: h in list.pending ==> h in old(list.pending)
      ensures AnyReady(list.pending) ==> old(AnyReady(list.pending))
      ensures forall h :: h in old(list.pending) ==>
        h.AsLink() == if h in list.pending then old(h.AsLink())
                      else if h == http then old(h.AsLink()).(backend := this)
                      else Link(null, false, [])
    {
      hide Served, Readiness, Skipped, Waiting, NoDup, Allocated, Dropped, Without, EveryOther, Handed;
      hide BackendList.Lists, Http.Ready, Http.AsLink, AnyReady, TwoReady, One, Two;
      hide BackendList.Valid, BackendList.Sound, BackendList.HttpOk, BackendList.BackendOk;
      NobodyServed(list.pending);
      ReadyCounts(list.pending);
      ghost var was, ready := list.pending, Readiness(list.pending);
      while list.pending != [] && http == null
        invariant list.Valid() && Served(was, ready, list.pending, http)
        invariant |list.pending| <= |was| && list.pending == was[|was| - |list.pending|..]
        invariant Waiting(was, ready, list.pending)
        invariant http != null ==> http.backend == this && http in old(list.pending)
        invariant forall h :: h in list.pending ==> unchanged(h) && h != http
        invariant forall h :: h in was && h !in list.pending ==>
          h.AsLink() == if h == http then old(h.AsLink()).(backend := this) else Link(null, false, [])
        decreases |list.pending|
      {
        ghost var waiting := list.pending;
        FirstAlone(list);
        TakeNext(list, was, ready);
        assert list.pending == waiting[1..] && forall h :: h in waiting <==> h == waiting[0] || h in list.pending;
      }
      StillWaiting(was, ready, list.pending);
    }

    lemma FirstAlone(list: BackendList)
      requires list.Valid() && list.pending != []
      ensures list.pending[0] !in list.pending[1..]
    {
      forall k | 0 < k < |list.pending| ensures list.pending[k] != list.pending[0] { }
    }

    // downloadFinished with downloads waiting: if none of them wants this connection, it
    // becomes idle.
    method ServePending(list: BackendList)
      requires list.Valid() && this in list.backends && backendList == list && http != null && wasTCPConnected
      modifies this`http, list`busy, list`idle, list`pending, list.pending, http`backend
      ensures list.Valid() && old(http).backend == null
      ensures Served(old(list.pending), old(Readiness(list.pending)), list.pending, http)
      ensures Waiting(old(list.pending), old(Readiness(list.pending)), list.pending)
      ensures http == null ==> list.pending == []
      ensures forall h :: h in list.pending ==> h in old(list.pending)
      ensures http != null ==>
        http in old(list.pending) && http.backend == this && list.busy == old(list.busy) && list.idle == old(list.idle)
      ensures http == null ==>
        list.busy == Without(old(list.busy), this) && list.idle == old(list.idle) + if open then [this] else []
      ensures AnyReady(list.pending) ==> old(AnyReady(list.pending))
      ensures old(list.Carrying()) ==> list.Carrying()
      ensures forall h :: h in list.https ==>
        h.AsLink() == if h == old(http) then old(h.AsLink()).(backend := null)
                      else if h in old(list.pending) && h !in list.pending then
                        if h == http then old(h.AsLink()).(backend := this) else Link(null, false, [])
                      else old(h.AsLink())
    {
      hide Without, NoDup, Served, Waiting, AnyReady, Allocated, BackendList.Valid, Http.AsLink, Http.Ready, Readiness;
      list.LinksOf(this);
      list.Members();
      HandOn(list);
      if http == null {
        list.Forget(this);
        if open {
          list.PushIdle(this);
        }
      }
    }

    // The connection leaves its download for the first ready one that waits.
    method HandOn(list: BackendList)
      requires list.Valid() && this in list.backends && backendList == list && http != null
      modifies this`http, list`pending, list.pending, http`backend
      ensures list.Valid() && old(http).backend == null
      ensures Served(old(list.pending), old(Readiness(list.pending)), list.pending, http)
      ensures Waiting(old(list.pending), old(Readiness(list.pending)), list.pending)
      ensures if http == null then list.pending == [] else http in old(list.pending) && http.backend == this
      ensures forall h :: h in list.pending ==> h in old(list.pending)
      ensures AnyReady(list.pending) ==> old(AnyReady(list.pending))
      ensures old(list.Carrying()) ==> list.CarryingBut(if http == null then this else null)
      ensures forall h :: h in list.https ==>
        h.AsLink() == if h == old(http) then old(h.AsLink()).(backend := null)
                      else if h in old(list.pending) && h !in list.pending then
                        if h == http then old(h.AsLink()).(backend := this) else Link(null, false, [])
                      else old(h.AsLink())
    {
      hide Without, NoDup, Served, Waiting, AnyReady, Allocated, BackendList.Valid, Http.AsLink, Http.Ready, Readiness;
      list.LinksOf(this);
      list.Members();
      list.Release(this);
      TakeReady(list);
    }

    // downloadFinished of a connection that never carried an answer: it is closed for good.
    method Abandon(list: BackendList)
      requires list.Valid() && this in list.backends && backendList == list && http != null && !wasTCPConnected
      modifies this`http, this`open, this`backendList, list`busy, list`idle, list`pending, list`registered, list`backends
      modifies list.backends`http, list.https
      ensures list.Valid() && old(http).backend == null && old(http) !in list.pending && http == null && !open
      ensures old(http.clients) == [] ==> old(http).clients == []
      ensures list.backends == old(list.backends) && list.idle == old(list.idle)
      ensures list.registered == old(list.registered)
      ensures list.busy == Without(old(list.busy), this) && this !in list.busy
      ensures list.pending == if list.busy == [] then EveryOther(old(list.pending)) else old(list.pending)
      ensures list.busy == [] ==> forall h :: h in old(list.pending) ==> h.clients == []
      ensures list.busy == [] ==> !AnyReady(list.pending)
      ensures old(list.Carrying()) ==> list.Carrying()
      ensures forall h :: h in list.https ==>
        h.AsLink() == if h == old(http) then Link(null, old(h.alive), [])
                      else if list.busy != [] || h !in old(list.pending) then old(h.AsLink())
                      else if h in list.pending then old(h.AsLink()).(clients := [])
                      else Link(null, false, [])
    {
      hide Without, NoDup, EveryOther, Allocated, Served, Waiting, Loses, Released, Handed, BackendList.Shown, LossStrands;
      hide BackendList.Valid, BackendList.Stranded, BackendList.Carrying;
      EveryOtherAt(list.pending);
      list.Held(this);
      list.Members();
      Relinquish(list);
      WithoutAbsent(list.busy, this);
      list.ValidIsSound(this);
      list.Members();
      Close(list);
      RemoteSocketClosed(list, NoSocket);
    }

    // A download lets go of this connection: the connection is closed if it never answered,
    // else it serves the waiting downloads, else it becomes idle.
    method DownloadFinished(list: BackendList)
      requires list.Valid() && this in list.backends && (backendList != null ==> http != null)
      modifies this`http, this`open, this`backendList, list`busy, list`idle, list`pending, list`registered, list`backends
      modifies list.backends`http, list.https
      ensures list.Valid() && (old(http) != null ==> old(http).backend == null && old(http) !in list.pending)
      ensures old(http) != null && old(http.clients) == [] ==> old(http).clients == []
      ensures list.backends == old(list.backends) && list.registered == old(list.registered)
      ensures !old(list.Stranded()) ==> !list.Stranded()
      ensures old(http) == null ==>
        list.busy == old(list.busy) && list.idle == old(list.idle) && list.pending == old(list.pending) && http == null
      ensures old(http) != null && !wasTCPConnected ==>
        && http == null && !open && list.busy == Without(old(list.busy), this) && list.idle == old(list.idle)
        && list.pending == (if list.busy == [] then EveryOther(old(list.pending)) else old(list.pending))
        && (list.busy == [] ==> forall h :: h in old(list.pending) ==> h.clients == [])
      ensures old(http) != null && wasTCPConnected ==>
        && open == old(open) && Served(old(list.pending), old(Readiness(list.pending)), list.pending, http)
        && Waiting(old(list.pending), old(Readiness(list.pending)), list.pending)
        && if http != null then
             http in old(list.pending) && http.backend == this &&
             list.busy == old(list.busy) && list.idle == old(list.idle)
           else
             list.pending == [] && list.busy == Without(old(list.busy), this) &&
             list.idle == old(list.idle) + if open then [this] else []
      ensures old(list.Carrying()) ==> list.Carrying()
      ensures old(http) != null && !wasTCPConnected ==> forall h :: h in list.https ==>
        h.AsLink() == if h == old(http) then Link(null, old(h.alive), [])
                      else if list.busy != [] || h !in old(list.pending) then old(h.AsLink())
                      else if h in list.pending then old(h.AsLink()).(clients := [])
                      else Link(null, false, [])
      ensures old(http) != null && wasTCPConnected ==> forall h :: h in list.https ==>
        h.AsLink() == if h == old(http) then old(h.AsLink()).(backend := null)
                      else if h in old(list.pending) && h !in list.pending then
                        if h == http then old(h.AsLink()).(backend := this) else Link(null, false, [])
                      else old(h.AsLink())
    {
      hide Without, NoDup, EveryOther, Allocated, Served, Waiting, AnyReady, Dropped, Handed;
      hide BackendList.Valid, LetGo, Readiness;
      list.LinksOf(this);
      list.Members();
      if backendList == null {
        http := null;
      } else if !wasTCPConnected {
        Abandon(list);
      } else if list.pending == [] {
        Park(list);
        NobodyServed(list.pending);
      } else {
        ServePending(list);
      }
      OddAny(list.pending);
    }

    // The first part of detectTimeout: the download is told and lets this connection go. What
    // the loss of the connection then leaves waiting is there for the second of two ready ones.
    method DropDownload(list: BackendList, ghost dial: Dial)
      requires list.Valid() && this in list.backends && http != null
      modifies this`open, this`backendList, list`busy, list`idle, list`pending, list`registered, list`backends
      modifies list.backends`http, list.backends`open, list.backends`backendList, list.https
      ensures list.Valid() && list.backends == old(list.backends) && list.https == old(list.https)
      ensures list.registered == old(list.registered)
      ensures !old(http).alive && old(http).clients == [] && old(http) !in list.pending
      ensures !old(list.Stranded()) ==> !list.Stranded()
      ensures LossStrands(list, dial) <==>
        !dial.Connecting? && old(wasTCPConnected && list.busy == [this] && TwoReady(list.pending))
      ensures old(list.Carrying()) ==> list.Carrying()
      ensures LetGo(old(list.Shown().Told(http)), list.Shown(), old(http))
    {
      hide Without, NoDup, EveryOther, Allocated, Served, Dropped, Handed, Waiting, TwoReady, AnyReady, OddReady, One, Two;
      hide BackendList.Valid, BackendList.Sound, BackendList.HttpOk, BackendList.BackendOk, BackendList.Lists;
      hide LossStrands, BackendList.Stranded, LetGo, BackendList.Shown, View.Told;
      Bond(list);
      ReadyCounts(list.pending);
      ghost var was, ready, h := list.pending, Readiness(list.pending), http;
      http.Tell(list);
      SameReadiness(was);
      http.DisconnectBackend(list);
      if old(h.backend) != null && wasTCPConnected {
        LossAfter(list, dial, was, ready, old(list.busy));
      } else {
        assert this !in list.busy;
        NoLoss(list, dial);
      }
    }

    // Its download let go, this answered connection serves the first ready one, or nobody waits.
    lemma LossAfter(list: BackendList, dial: Dial, was: seq<Http>, ready: seq<bool>, wasBusy: seq<Backend>)
      requires wasTCPConnected && |ready| == |was|
      requires Served(was, ready, list.pending, http) && Waiting(was, ready, list.pending)
      requires if http == null then list.pending == [] else list.busy == wasBusy
      ensures LossStrands(list, dial) <==> !dial.Connecting? && wasBusy == [this] && Two(ready)
    {
      hide Served, Waiting, Two, AnyReady, OddReady;
      SecondServed(was, ready, list.pending, http);
      OddAny(list.pending);
    }

    lemma NoLoss(list: BackendList, dial: Dial)
      requires this !in list.busy
      ensures !LossStrands(list, dial)
    {
      assert this in [this];
    }

    // What Valid says of a connection and its download.
    lemma Bond(list: BackendList)
      requires list.Valid() && this in list.backends && http != null
      ensures http in list.https && http !in list.pending
      ensures http.backend == this || (http.backend == null && this !in list.busy)
      ensures this !in Without(list.busy, this)
    {
      assert list.BackendOk(this, null);
      DropBusy(list.busy, list.idle, list.maxBackend, this);
    }

    // No byte came for 5 seconds: the download is dropped and the connection closed.
    method DetectTimeout(list: BackendList, expired: bool, dial: Dial) returns (quit: bool)
      requires list.Valid() && this in list.backends
      modifies this`open, this`backendList, list`busy, list`idle, list`pending, list`registered, list`backends
      modifies list.backends`http, list.backends`open, list.backends`backendList, list.https
      ensures list.Valid() && quit == (old(http) != null && expired)
      ensures old(list.backends) <= list.backends && fresh(list.backends - old(list.backends))
      ensures list.registered ==> old(list.registered)
      ensures quit ==> !open && this !in list.busy && this !in list.idle
      ensures quit ==> !old(http).alive && old(http).clients == [] && old(http) !in list.pending
      ensures !quit ==>
        && list.busy == old(list.busy) && list.idle == old(list.idle) && list.pending == old(list.pending)
        && http == old(http) && open == old(open)
      ensures !old(list.Stranded()) ==> (list.Stranded() <==>
        expired && !dial.Connecting? && old(http != null && wasTCPConnected && list.busy == [this] && TwoReady(list.pending)))
      ensures old(list.Carrying()) ==> list.Carrying()
      ensures forall b :: b in list.backends - old(list.backends) ==> !b.wasTCPConnected
      ensures old(list.Carrying()) ==> list.registered == old(list.registered)
      ensures !quit ==> list.registered == old(list.registered) && forall h :: h in list.https ==> unchanged(h)
      ensures !quit ==> list.backends == old(list.backends) && forall b :: b in list.backends ==> b.open == old(b.open)
      ensures quit && old(list.Carrying()) ==>
        && old(http) in old(list.https)
        && Loses(Released(old(list.Shown().Told(http)), old(http)), list.Shown(), this, dial)
    {
      hide Without, NoDup, EveryOther, Allocated, Served, Dropped, Handed, LetGo, Loses, Released, AnyReady, TwoReady, Http.Ready;
      hide BackendList.Valid, BackendList.Sound, BackendList.Stranded, LossStrands, View.Told, Backend.LossStrands;
      if http == null || !expired {
        return false;
      }
      Bond(list);
      ghost var v := list.Shown();
      DropDownload(list, dial);
      ghost var mid := list.Shown();
      LetGoIs(v.Told(old(http)), mid, old(http));
      list.ValidIsSound(this);
      Close(list);
      RemoteSocketClosed(list, dial);
      ClosedFirst(mid, list.Shown(), this, dial);
      quit := true;
    }

    // ~Backend.
    method Destroy(list: BackendList)
      requires list.Valid() && this in list.backends
      modifies this`http, list`busy, list`idle, list`backends, list.https`backend
      ensures list.Valid() && list.backends == old(list.backends) - {this}
      ensures list.busy == Without(old(list.busy), this) && this !in list.busy
      ensures list.idle == Without(old(list.idle), this) && this !in list.idle
      ensures list.https == old(list.https) && forall h :: h in list.https ==> h.backend != this
      ensures !old(list.Stranded()) ==> (list.Stranded() <==> old(list.busy == [this] && AnyReady(list.pending)))
      ensures old(list.Carrying()) ==> list.Carrying()
      ensures forall h :: h in list.https ==> h.backend == if old(h.backend) == this then null else old(h.backend)
    {
      hide Without, NoDup, EveryOther, Served, Dropped, Handed, AnyReady, Allocated;
      hide BackendList.Valid, BackendList.Sound, BackendList.CarryingBut, Http.AsLink, BackendList.Shown;
      AloneIn(list);
      OddAny(list.pending);
      list.Members();
      list.LinksOf(this);
      list.Part(this);
      if backendList != null {
        list.Forget(this);
        list.ValidIsSound(this);
        list.ForgetIdle(this);
      } else {
        list.Unlisted(this);
        WithoutAbsent(list.busy, this);
        WithoutAbsent(list.idle, this);
      }
      list.Delete(this);
      list.Members();
    }

    lemma AloneIn(list: BackendList)
      requires list.Valid()
      ensures Without(list.busy, this) == [] <==> list.busy == [] || list.busy == [this]
    {
      DropBusy(list.busy, list.idle, list.maxBackend, this);
    }

    lemma NotIdle(list: BackendList)
      requires list.Sound(this) && this in list.busy
      ensures this !in list.idle
    {
    }
  }

  // One at an odd position is what the loop of remoteSocketClosed steps over.
  ghost predicate OddReady(pending: seq<Http>)
    reads pending`alive, pending`clients
  {
    exists k :: 0 <= k < |pending| / 2 && pending[2 * k + 1].Ready()
  }

  ghost predicate TwoReady(pending: seq<Http>)
    reads pending`alive, pending`clients
  {
    exists i, j :: 0 <= i < j < |pending| && pending[i].Ready() && pending[j].Ready()
  }

  ghost predicate AnyReady(pending: seq<Http>)
    reads pending`alive, pending`clients
  {
    exists h :: h in pending && h.Ready()
  }

  // Which of the waiting downloads still has an address and a client.
  ghost function Readiness(pending: seq<Http>): (r: seq<bool>)
    reads pending
    ensures |r| == |pending| && forall k :: 0 <= k < |pending| ==> r[k] == pending[k].Ready()
  {
    if pending == [] then [] else [pending[0].Ready()] + Readiness(pending[1..])
  }

  // The waiting list was served to one free connection: the downloads up to the first ready
  // one have left it, that one holds the connection, those before it hold nothing.
  ghost predicate Served(was: seq<Http>, ready: seq<bool>, now: seq<Http>, served: Http?)
    requires |ready| == |was|
    reads was
  {
    && |now| <= |was| && now == was[|was| - |now|..]
    && var taken := |was| - |now|;
    if served == null then
      Skipped(was, ready, taken)
    else
      taken > 0 && served == was[taken - 1] && ready[taken - 1] && Skipped(was, ready, taken - 1)
  }

  ghost predicate Skipped(was: seq<Http>, ready: seq<bool>, taken: nat)
    requires taken <= |was| == |ready|
    reads was[..taken]
  {
    forall k :: 0 <= k < taken ==> !ready[k] && Dropped(was[k])
  }

  // What still waits is a rest of what waited, each as ready as it was.
  ghost predicate Waiting(was: seq<Http>, ready: seq<bool>, now: seq<Http>)
    requires |ready| == |was|
    reads now
  {
    |now| <= |was| && now == was[|was| - |now|..] && Readiness(now) == ready[|was| - |now|..]
  }

  lemma OddAny(pending: seq<Http>)
    ensures (OddReady(pending) ==> AnyReady(pending)) && (AnyReady(pending) ==> pending != [])
  {
  }

  lemma OddStay(pending: seq<Http>)
    ensures AnyReady(EveryOther(pending)) <==> OddReady(pending)
  {
    hide EveryOther;
    EveryOtherAt(pending);
    if AnyReady(EveryOther(pending)) {
      var h :| h in EveryOther(pending) && h.Ready();
      var k :| 0 <= k < |EveryOther(pending)| && EveryOther(pending)[k] == h;
      assert pending[2 * k + 1].Ready();
    }
    if OddReady(pending) {
      var k :| 0 <= k < |pending| / 2 && pending[2 * k + 1].Ready();
      assert EveryOther(pending)[k] in EveryOther(pending);
    }
  }

  twostate lemma SameReady(pending: seq<Http>)
    requires forall h :: h in pending ==> unchanged(h)
    ensures AnyReady(pending) == old(AnyReady(pending))
  {
  }

  // Who is ready among those that still wait was ready before.
  lemma ReadyAt(was: seq<Http>, ready: seq<bool>, now: seq<Http>) returns (k: nat)
    requires |ready| == |was| && Waiting(was, ready, now) && AnyReady(now)
    ensures |was| - |now| <= k < |was| && ready[k]
  {
    var h :| h in now && h.Ready();
    var i :| 0 <= i < |now| && now[i] == h;
    assert Readiness(now)[i];
    k := |was| - |now| + i;
  }

  lemma StillWaiting(was: seq<Http>, ready: seq<bool>, now: seq<Http>)
    requires |ready| == |was| && Waiting(was, ready, now)
    ensures AnyReady(now) ==> One(ready)
  {
    if AnyReady(now) {
      var k := ReadyAt(was, ready, now);
    }
  }

  ghost predicate One(ready: seq<bool>) {
    exists k :: 0 <= k < |ready| && ready[k]
  }

  ghost predicate Two(ready: seq<bool>) {
    exists i, j :: 0 <= i < j < |ready| && ready[i] && ready[j]
  }

  lemma ReadyCounts(pending: seq<Http>)
    ensures AnyReady(pending) <==> One(Readiness(pending))
    ensures TwoReady(pending) <==> Two(Readiness(pending))
  {
    var r := Readiness(pending);
    if AnyReady(pending) {
      var h :| h in pending && h.Ready();
      var k :| 0 <= k < |pending| && pending[k] == h;
      assert r[k];
    }
    if TwoReady(pending) {
      var i, j :| 0 <= i < j < |pending| && pending[i].Ready() && pending[j].Ready();
      assert r[i] && r[j];
    }
  }

  // Somebody ready still waits behind the served one exactly when two of those that waited were ready.
  lemma SecondServed(was: seq<Http>, ready: seq<bool>, now: seq<Http>, served: Http?)
    requires |ready| == |was| && Served(was, ready, now, served) && Waiting(was, ready, now)
    requires served == null ==> now == []
    ensures AnyReady(now) <==> Two(ready)
  {
    var taken := |was| - |now|;
    if AnyReady(now) {
      var k := ReadyAt(was, ready, now);
      assert ready[taken - 1] && ready[k];
    }
    if i, j :| 0 <= i < j < |ready| && ready[i] && ready[j] {
      assert j >= taken;
      assert Readiness(now)[j - taken] && now[j - taken] in now;
    }
  }

  twostate lemma SameReadiness(pending: seq<Http>)
    requires forall h :: h in pending ==> unchanged(h)
    ensures Readiness(pending) == old(Readiness(pending))
  {
    if pending != [] {
      assert pending[0] in pending && forall h :: h in pending[1..] ==> h in pending;
      SameReadiness(pending[1..]);
    }
  }

  // The download at the place taken has been served or dropped.
  lemma ServedTurn(was: seq<Http>, ready: seq<bool>, taken: nat, now: seq<Http>, served: Http?)
    requires taken < |was| == |ready| && now == was[taken + 1..] && Readiness(now) == ready[taken + 1..]
    requires Skipped(was, ready, taken)
    requires if served == null then !ready[taken] && Dropped(was[taken]) else served == was[taken] && ready[taken]
    ensures Served(was, ready, now, served) && Waiting(was, ready, now)
  {
    hide Dropped;
  }

  lemma NobodyServed(was: seq<Http>)
    ensures Served(was, Readiness(was), was, null) && Waiting(was, Readiness(was), was)
  {
  }

  // What a lost busy connection leaves when an idle one was there: the last idle connection
  // is busy now and carries the download.
  ghost predicate Handed(busy: seq<Backend>, kept: seq<Backend>, h: Http, wasIdle: seq<Backend>, idle: seq<Backend>)
    reads h, busy
  {
    && wasIdle != [] && wasIdle == idle + [wasIdle[|wasIdle| - 1]]
    && busy == kept + [wasIdle[|wasIdle| - 1]]
    && h.backend == busy[|busy| - 1] && h.backend.http == h
  }

  // ---------------------------------------------------------------- what is seen between callbacks

  // A download, as values.
  datatype Link = Link(backend: Backend?, alive: bool, clients: seq<nat>) {
    predicate Ready() {
      alive && clients != []
    }
  }

  // A list between callbacks, as values: its connections that have answered, those of its busy
  // ones whose socket is open, and its downloads.
  datatype View = View(registered: bool, busy: seq<Backend>, idle: seq<Backend>, pending: seq<Http>,
                       answered: set<Backend>, open: set<Backend>, links: map<Http, Link>)
  {
    predicate ReadyAt(k: int) {
      0 <= k < |pending| && pending[k] in links && links[pending[k]].Ready()
    }

    ghost predicate Any() {
      exists k :: ReadyAt(k)
    }

    ghost predicate Odd() {
      exists k :: ReadyAt(k) && k % 2 == 1
    }

    ghost predicate Two() {
      exists i, j :: i < j && ReadyAt(i) && ReadyAt(j)
    }

    ghost predicate Stranded() {
      busy == [] && idle == [] && Any()
    }

    // The connection of h has answered.
    function Answering(h: Http): View {
      if h in links && links[h].backend != null then this.(answered := answered + {links[h].backend}) else this
    }

    // The clients of h have been told.
    function Told(h: Http): View {
      if h in links then this.(links := links[h := links[h].(clients := [])]) else this
    }
  }

  // The links when h has let go of b: who left the waiting list has b, or has been dropped.
  ghost predicate LinksServed(v: View, w: View, h: Http, b: Backend, served: Http?) {
    && w.links.Keys == v.links.Keys
    && forall g :: g in v.links ==>
      w.links[g] == if g == h then v.links[g].(backend := null)
                    else if g in v.pending && g !in w.pending then
                      if g == served then v.links[g].(backend := b) else Link(null, false, [])
                    else v.links[g]
  }

  // The answered connection b of h was let go of and has served the waiting list.
  ghost predicate Detached(v: View, w: View, h: Http, b: Backend, ready: seq<bool>, served: Http?)
    reads v.pending
  {
    && |ready| == |v.pending| && Served(v.pending, ready, w.pending, served)
    && w.registered == v.registered && w.answered == v.answered
    && (if served != null then w.busy == v.busy && w.idle == v.idle && w.open == v.open
        else
          && w.pending == [] && w.busy == Without(v.busy, b) && w.idle == v.idle + (if b in v.open then [b] else [])
          && w.open == v.open - {b})
    && LinksServed(v, w, h, b, served)
  }

  lemma ServedShown(v: View, mid: View, h: Http, b: Backend, ready: seq<bool>, served: Http?)
    requires |ready| == |v.pending| && forall k :: v.ReadyAt(k) <==> 0 <= k < |ready| && ready[k]
    requires NoDup(v.pending) && h in v.links && h !in v.pending && v.links[h].backend == b
    requires Detached(v, mid, h, b, ready, served)
    ensures h in mid.links && mid.links[h].backend == null
    ensures exists k :: FirstReady(v, k) && Serves(v, mid.(links := mid.links[h := mid.links[h].(alive := false)]), h, b, k)
  {
    hide View.ReadyAt, Dropped, Without;
    var w := mid.(links := mid.links[h := mid.links[h].(alive := false)]);
    var taken := |v.pending| - |w.pending|;
    var k := if served == null then taken else taken - 1;
    assert v.pending == v.pending[..k] + v.pending[k..];
    TakenAway(v.pending, k, taken);
    assert FirstReady(v, k) && Serves(v, w, h, b, k);
  }

  // Of a list without duplicates: what was taken is in the rest no more.
  lemma TakenAway(pending: seq<Http>, k: nat, taken: nat)
    requires NoDup(pending) && k <= taken <= |pending|
    ensures forall g :: g in pending && g !in pending[taken..] <==> g in pending[..taken]
    ensures taken == k + 1 ==>
      pending[k] !in pending[..k] && forall g :: g in pending[..taken] <==> g in pending[..k] || g == pending[k]
  {
    forall g | g in pending[..taken] ensures g in pending && g !in pending[taken..] {
      var i :| 0 <= i < taken && pending[i] == g;
      assert forall j :: 0 <= j < |pending| - taken ==> pending[taken..][j] == pending[taken + j];
    }
    assert pending == pending[..taken] + pending[taken..];
    if taken == k + 1 {
      assert pending[..taken] == pending[..k] + [pending[k]];
    }
  }

  // Telling the clients of h before or after makes no difference.
  lemma LetGoTold(v: View, w: View, h: Http)
    requires LetGo(v, w, h) && (v.links[h].backend != null ==> h !in v.pending)
    ensures LetGo(v.Told(h), w.Told(h), h)
  {
    hide Without, EveryOther, Serves, FirstReady, Abandons;
    var b := v.links[h].backend;
    if b == null {
      assert w.Told(h).links == v.Told(h).links[h := Link(null, false, [])];
    } else if b !in v.answered {
      AbandonsTold(v, w, h, b);
    } else {
      var k :| FirstReady(v, k) && Serves(v, w, h, b, k);
      ServesTold(v, w, h, b, k);
    }
  }

  lemma AbandonsTold(v: View, w: View, h: Http, b: Backend)
    requires Abandons(v, w, h, b) && h in v.links
    ensures Abandons(v.Told(h), w.Told(h), h, b)
  {
    hide Without, EveryOther;
  }

  lemma ServesTold(v: View, w: View, h: Http, b: Backend, k: nat)
    requires FirstReady(v, k) && Serves(v, w, h, b, k) && h in v.links && h !in v.pending
    ensures FirstReady(v.Told(h), k) && Serves(v.Told(h), w.Told(h), h, b, k)
  {
    hide Without;
    assert forall j :: 0 <= j < |v.pending| ==> v.pending[j] in v.pending;
    assert forall j :: v.Told(h).ReadyAt(j) == v.ReadyAt(j);
  }

  lemma CountsShown(pending: seq<Http>, v: View)
    requires forall k :: v.ReadyAt(k) <==> 0 <= k < |pending| && Readiness(pending)[k]
    ensures AnyReady(pending) <==> v.Any()
    ensures TwoReady(pending) <==> v.Two()
  {
    hide *;
    ReadyCounts(pending);
    CountsOf(Readiness(pending), v);
  }

  lemma CountsOf(ready: seq<bool>, v: View)
    requires forall k :: v.ReadyAt(k) <==> 0 <= k < |ready| && ready[k]
    ensures One(ready) <==> v.Any()
    ensures Two(ready) <==> v.Two()
  {
    hide View.ReadyAt;
  }

  lemma OddShown(pending: seq<Http>, v: View)
    requires forall k :: v.ReadyAt(k) <==> 0 <= k < |pending| && pending[k].Ready()
    ensures OddReady(pending) <==> v.Odd()
  {
    hide View.ReadyAt, Http.Ready;
    if OddReady(pending) {
      var k :| 0 <= k < |pending| / 2 && pending[2 * k + 1].Ready();
      assert v.ReadyAt(2 * k + 1) && (2 * k + 1) % 2 == 1;
    }
    if v.Odd() {
      var k :| v.ReadyAt(k) && k % 2 == 1;
      assert pending[2 * (k / 2) + 1].Ready();
    }
  }

  // A download lets go of its place, of a connection that never answered, or of one that did.
  ghost predicate LetGo(v: View, w: View, h: Http) {
    h in v.links &&
    var b := v.links[h].backend;
    if b == null then
      w == v.(pending := Without(v.pending, h), links := v.links[h := Link(null, false, v.links[h].clients)])
    else if b !in v.answered then
      Abandons(v, w, h, b)
    else
      exists k :: FirstReady(v, k) && Serves(v, w, h, b, k)
  }

  // The connection is closed; when it was the last, the clients of all waiting downloads are told,
  // and every other one of these is dropped.
  ghost predicate Abandons(v: View, w: View, h: Http, b: Backend) {
    && w.registered == v.registered && w.answered == v.answered && w.open == v.open - {b}
    && w.busy == Without(v.busy, b) && w.idle == v.idle
    && w.pending == (if w.busy == [] then EveryOther(v.pending) else v.pending)
    && w.links.Keys == v.links.Keys
    && forall g :: g in v.links ==>
      w.links[g] == if g == h then Link(null, false, [])
                    else if w.busy != [] || g !in v.pending then v.links[g]
                    else if g in w.pending then v.links[g].(clients := [])
                    else Link(null, false, [])
  }

  // The place of the first ready download on the waiting list; its length when there is none.
  ghost predicate FirstReady(v: View, k: nat) {
    k <= |v.pending| && (k < |v.pending| ==> v.ReadyAt(k)) && forall j :: 0 <= j < k ==> !v.ReadyAt(j)
  }

  // The waiting downloads before the k-th are dropped, that one takes the connection; when there
  // is none, an open connection becomes idle.
  ghost predicate Serves(v: View, w: View, h: Http, b: Backend, k: nat) {
    && k <= |v.pending| && w.registered == v.registered && w.answered == v.answered
    && (if k < |v.pending| then
          w.pending == v.pending[k + 1..] && w.busy == v.busy && w.idle == v.idle && w.open == v.open
        else
          && w.pending == [] && w.busy == Without(v.busy, b) && w.open == v.open - {b}
          && w.idle == v.idle + if b in v.open then [b] else [])
    && w.links.Keys == v.links.Keys
    && forall g :: g in v.links ==>
      w.links[g] == if g == h then Link(null, false, v.links[g].clients)
                    else if g in v.pending[..k] then Link(null, false, [])
                    else if k < |v.pending| && g == v.pending[k] then v.links[g].(backend := b)
                    else v.links[g]
  }

  // LetGo leaves nothing open: this is what comes of it.
  ghost function Released(v: View, h: Http): View
    requires h in v.links
  {
    var b := v.links[h].backend;
    if b == null then
      v.(pending := Without(v.pending, h), links := v.links[h := Link(null, false, v.links[h].clients)])
    else if b !in v.answered then
      var busy := Without<Backend>(v.busy, b);
      var pending := if busy == [] then EveryOther(v.pending) else v.pending;
      v.(busy := busy, pending := pending, open := v.open - {b}, links := map g | g in v.links ::
        if g == h then Link(null, false, [])
        else if busy != [] || g !in v.pending then v.links[g]
        else if g in pending then v.links[g].(clients := [])
        else Link(null, false, []))
    else
      var k := FirstFrom(v, 0);
      var served := k < |v.pending|;
      v.(pending := if served then v.pending[k + 1..] else [],
         busy := if served then v.busy else Without<Backend>(v.busy, b),
         open := if served then v.open else v.open - {b},
         idle := v.idle + if !served && b in v.open then [b] else [],
         links := map g | g in v.links ::
           if g == h then Link(null, false, v.links[g].clients)
           else if k <= |v.pending| && g in v.pending[..k] then Link(null, false, [])
           else if served && g == v.pending[k] then v.links[g].(backend := b)
           else v.links[g])
  }

  ghost function FirstFrom(v: View, k: nat): nat
    decreases |v.pending| - k
  {
    if k >= |v.pending| || v.ReadyAt(k) then k else FirstFrom(v, k + 1)
  }

  lemma {:induction false} FirstFromIs(v: View, from: nat, k: nat)
    requires FirstReady(v, k) && from <= k
    ensures FirstFrom(v, from) == k
    decreases k - from
  {
    if from < k {
      FirstFromIs(v, from + 1, k);
    }
  }

  lemma LetGoIs(v: View, w: View, h: Http)
    requires LetGo(v, w, h)
    ensures w == Released(v, h)
  {
    hide Without, EveryOther, FirstReady, View.ReadyAt, FirstFrom;
    var b := v.links[h].backend;
    if b != null && b !in v.answered {
      assert w.links == Released(v, h).links;
    } else if b != null {
      var k :| FirstReady(v, k) && Serves(v, w, h, b, k);
      FirstFromIs(v, 0, k);
      ServesIs(v, w, h, b, k);
    }
  }

  lemma ServesIs(v: View, w: View, h: Http, b: Backend, k: nat)
    requires h in v.links && v.links[h].backend == b && b in v.answered && FirstFrom(v, 0) == k && Serves(v, w, h, b, k)
    ensures w == Released(v, h)
  {
    hide Without, View.ReadyAt, FirstFrom;
    assert w.links == Released(v, h).links;
    assert w.idle == Released(v, h).idle;
  }

  // The links when connection b is gone and its download has connection c, if any.
  ghost predicate Relinked(v: View, w: View, b: Backend, c: Backend?) {
    && w.links.Keys == v.links.Keys
    && forall h :: h in v.links ==>
      w.links[h] == if v.links[h].backend == b then v.links[h].(backend := c) else v.links[h]
  }

  // A connection is lost: before it answered, it may take waiting downloads along; after it
  // answered, its download moves to the last idle connection, else to a new one.
  ghost predicate Loses(v: View, w: View, b: Backend, dial: Dial) {
    if b !in v.answered then LosesUnanswered(v, w, b)
    else if b !in v.busy then w == v.(open := v.open - {b}, idle := Without(v.idle, b))
    else HandsOver(v, w, b, dial)
  }

  // That the socket is closed already makes no difference.
  lemma ClosedFirst(v: View, w: View, b: Backend, dial: Dial)
    ensures var u := v.(open := v.open - {b});
      (Loses(u, w, b, dial) ==> Loses(v, w, b, dial)) && (LosesUnanswered(u, w, b) && b !in v.answered ==> Loses(v, w, b, dial))
  {
    hide Without, EveryOther;
  }

  ghost predicate LosesUnanswered(v: View, w: View, b: Backend) {
    && w.registered == v.registered && w.answered == v.answered && w.open == v.open - {b}
    && w.busy == Without(v.busy, b) && w.idle == v.idle
    && w.pending == (if w.busy == [] then EveryOther(v.pending) else v.pending)
    && w.links.Keys == v.links.Keys
    && forall h :: h in v.links ==>
      w.links[h] == if h in v.pending then if h in w.pending then v.links[h] else Link(null, false, [])
                    else if v.links[h].backend == b then v.links[h].(backend := null)
                    else v.links[h]
  }

  // Connection c has become busy and carries the download that b had.
  ghost predicate TakesOver(v: View, w: View, b: Backend, c: Backend) {
    && w.registered == v.registered && w.answered == v.answered && w.pending == v.pending
    && w.open == v.open + {c} && w.busy == v.busy + [c] && Relinked(v, w, b, c)
  }

  lemma Handing(v: View, mid: View, w: View, b: Backend, dial: Dial)
    requires mid == v.(busy := Without(v.busy, b), open := v.open - {b})
    requires if v.idle != [] then
        TakesOver(mid, w, b, v.idle[|v.idle| - 1]) && v.idle == w.idle + [v.idle[|v.idle| - 1]]
      else if dial.Connecting? then
        && w.busy != [] && w.idle == []
        && var c := w.busy[|w.busy| - 1]; TakesOver(mid, w, b, c) && c !in v.busy && c !in v.answered
      else w == mid
    ensures HandsOver(v, w, b, dial)
  {
    hide Without;
  }

  ghost predicate HandsOver(v: View, w: View, b: Backend, dial: Dial) {
    && w.registered == v.registered && w.answered == v.answered && w.pending == v.pending
    && if v.idle != [] then
         var c := v.idle[|v.idle| - 1];
         && w.open == v.open - {b} + {c} && w.busy == Without(v.busy, b) + [c] && v.idle == w.idle + [c]
         && Relinked(v, w, b, c)
       else if dial.Connecting? then
         && w.busy != [] && w.idle == []
         && var c := w.busy[|w.busy| - 1];
         && w.open == v.open - {b} + {c} && w.busy == Without(v.busy, b) + [c] && c !in v.busy && c !in v.answered
         && Relinked(v, w, b, c)
       else
         w == v.(open := v.open - {b}, busy := Without(v.busy, b))
  }

  class BackendList {
    const maxBackend: nat
    var registered: bool       // present in addressToHttp or addressToHttps
    var busy: seq<Backend>
    var idle: seq<Backend>
    var pending: seq<Http>
    ghost var backends: set<Backend>   // every connection ever opened for the address and not deleted
    ghost var https: set<Http>         // every download ever sent to the address

    ghost predicate Lists()
      reads this
    {
      && Allocated(busy, idle, maxBackend) && NoDup(pending) && (idle == [] || pending == [])
      && (forall b :: b in busy ==> b in backends)
      && (forall b :: b in idle ==> b in backends)
      && (forall h :: h in pending ==> h in https)
      && (!registered ==> busy == [] && idle == [] && pending == [])
    }

    // A backend that holds a download is held by it, unless the connection is dead and the
    // download has been told so; a live one is busy. An idle one is open and holds nothing,
    // except while it is being closed.
    ghost predicate BackendOk(b: Backend, closing: Backend?)
      reads this`busy, this`idle, this`https, this`pending, https`backend
      reads b`backendList, b`http, b`open, b`wasTCPConnected
    {
      && (b.backendList == null || b.backendList == this) && (b.backendList == null ==> b.http == null)
      && (b in busy || b in idle ==> b.backendList == this)
      && (b in idle ==> b.http == null && (b.open || b == closing) && b.wasTCPConnected)
      && (b.http != null ==>
          && b.http in https && b.http !in pending
          && (b.open ==> b in busy)
          && (b.http.backend == b || (b.http.backend == null && b !in busy && !b.open)))
    }

    ghost predicate HttpOk(h: Http)
      reads this`backends, this`pending, h`backend, h`backendList, backends`http
    {
      && (h.backendList == null || h.backendList == this)
      && (h.backend != null ==> h.backend in backends && h.backend.http == h)
      && (h in pending ==> h.backend == null && h.backendList == this)
    }

    ghost function AnsweredOnes(): set<Backend>
      reads this`backends, backends`wasTCPConnected
    {
      set b | b in backends && b.wasTCPConnected
    }

    lemma ClosedIdle(b: Backend)
      requires b !in busy
      ensures b !in OpenBusy() && OpenBusy() - {b} == OpenBusy()
    {
    }

    lemma AnsweredIs(b: Backend)
      requires b in backends
      ensures b in AnsweredOnes() <==> b.wasTCPConnected
      ensures b in Shown().answered <==> b.wasTCPConnected
    {
    }

    ghost function LinkMap(): map<Http, Link>
      reads this`https, https`backend, https`alive, https`clients
    {
      map h | h in https :: h.AsLink()
    }

    ghost function OpenBusy(): set<Backend>
      reads this`busy, this`backends, backends`open
    {
      set b | b in backends && b in busy && b.open
    }

    ghost function Shown(): (v: View)
      reads this, https, backends
    {
      View(registered, busy, idle, pending, AnsweredOnes(), OpenBusy(), LinkMap())
    }

    lemma ReadyShown()
      requires Valid()
      ensures forall k :: Shown().ReadyAt(k) <==> 0 <= k < |pending| && Readiness(pending)[k]
    {
      forall k | 0 <= k < |pending| ensures Shown().ReadyAt(k) == pending[k].Ready() {
        assert pending[k] in https;
      }
    }

    lemma StrandedShown()
      requires Valid()
      ensures Stranded() <==> Shown().Stranded()
      ensures AnyReady(pending) <==> Shown().Any()
      ensures OddReady(pending) <==> Shown().Odd()
      ensures TwoReady(pending) <==> Shown().Two()
    {
      hide Valid, View.ReadyAt, Http.Ready;
      ReadyShown();
      CountsShown(pending, Shown());
      OddShown(pending, Shown());
    }

    // A download that still has an address and a client waits, and no connection is left.
    ghost predicate Stranded()
      reads this`busy, this`idle, this`pending, pending`alive, pending`clients
    {
      busy == [] && idle == [] && AnyReady(pending)
    }

    // Between callbacks a busy connection always carries a download, and a connection never
    // leaves its list.
    ghost predicate Carrying()
      reads this`busy, this`backends, backends`http, backends`backendList
    {
      CarryingBut(null)
    }

    ghost predicate CarryingBut(free: Backend?)
      reads this`busy, this`backends, backends`http, backends`backendList
    {
      && (forall b :: b in busy && b in backends && b != free ==> b.http != null)
      && (forall b :: b in backends ==> b.backendList == this)
    }

    ghost predicate Valid()
      reads this, https`backend, https`backendList
      reads backends`backendList, backends`http, backends`open, backends`wasTCPConnected
    {
      Sound(null)
    }

    ghost predicate Sound(closing: Backend?)
      reads this, https`backend, https`backendList
      reads backends`backendList, backends`http, backends`open, backends`wasTCPConnected
    {
      && Lists()
      && (forall b :: b in backends ==> BackendOk(b, closing))
      && (forall h :: h in https ==> HttpOk(h))
      && (forall b, c :: b in backends && c in backends && b.http != null && b.http == c.http ==> b == c)
    }

    method EraseBusy(b: Backend)
      modifies this`busy
      ensures busy == Without(old(busy), b)
    {
      var index := 0;
      while index < |busy|
        invariant index <= |busy| && busy == old(busy) && b !in busy[..index]
      {
        if busy[index] == b {
          WithoutAt(busy, b, index);
          busy := busy[..index] + busy[index + 1..];
          return;
        }
        index := index + 1;
      }
      WithoutAbsent(busy, b);
    }

    // The loop of downloadFinished over the waiting downloads: their clients are told, the
    // downloads go on waiting.
    method AbortClients()
      modifies pending`clients
      ensures forall h :: h in pending ==> h.clients == []
    {
      var index := 0;
      while index < |pending|
        invariant index <= |pending| && forall k :: 0 <= k < index ==> pending[k].clients == []
      {
        pending[index].Abort();
        index := index + 1;
      }
    }

    // Erasing from busy a connection that is dead or holds nothing.
    method Forget(b: Backend)
      requires Valid() && b in backends && (b.http == null || !b.open)
      modifies this`busy
      ensures Valid() && busy == Without(old(busy), b) && b !in busy
      ensures b in old(busy) ==> |busy| + |idle| < maxBackend
      ensures old(Carrying()) ==> Carrying()
      ensures forall c :: c in busy ==> c in old(busy)
      ensures old(CarryingBut(b)) ==> Carrying()
      ensures OpenBusy() == old(OpenBusy()) - {b}
      ensures Shown() == old(Shown()).(busy := busy, open := old(OpenBusy()) - {b})
    {
      EraseBusy(b);
      DropBusy(old(busy), idle, maxBackend, b);
    }

    method ForgetIdle(b: Backend)
      requires Sound(b) && b in backends
      modifies this`idle
      ensures Valid() && idle == Without(old(idle), b) && b !in idle
      ensures Shown() == old(Shown()).(idle := idle)
      ensures old(Carrying()) ==> Carrying()
    {
      EraseIdle(b);
      DropIdle(busy, old(idle), maxBackend, b);
    }

    method PopIdle() returns (b: Backend)
      requires Valid() && idle != []
      modifies this`idle, this`busy
      ensures Valid() && old(idle) == idle + [b] && busy == old(busy) + [b]
      ensures b in backends && b.http == null && b.open && b.wasTCPConnected
      ensures OpenBusy() == old(OpenBusy()) + {b}
    {
      b := idle[|idle| - 1];
      TakeIdle(busy, idle, maxBackend, b);
      assert b in idle && idle == idle[..|idle| - 1] + [b];
      idle := idle[..|idle| - 1];
      busy := busy + [b];
    }

    // A connection that has just been forgotten goes to the idle list.
    method PushIdle(b: Backend)
      requires Valid() && registered && b in backends && b !in busy && b !in idle && |busy| + |idle| < maxBackend
      requires pending == [] && b.http == null && b.open && b.wasTCPConnected && b.backendList == this
      modifies this`idle
      ensures Valid() && idle == old(idle) + [b]
    {
      idle := idle + [b];
    }

    // A download and its connection let go of each other.
    method Release(b: Backend)
      requires Valid() && b in backends && b.http != null
      modifies b`http, b.http`backend
      ensures Valid() && b.http == null && old(b.http).backend == null
      ensures old(b.http).AsLink() == old(b.http.AsLink()).(backend := null)
    {
      b.http.backend := null;
      b.http := null;
    }

    // The download is told that its dead connection is gone; the connection still names it.
    method Disown(b: Backend)
      requires Valid() && b in backends && b.http != null && b !in busy && !b.open
      modifies b.http`backend
      ensures Valid() && b.http.backend == null
      ensures forall h :: h in https ==> h.AsLink() == if h == b.http then old(h.AsLink()).(backend := null) else old(h.AsLink())
    {
      b.http.backend := null;
    }

    // A free connection takes a download that nobody holds and that does not wait.
    method Adopt(b: Backend, h: Http)
      requires Valid() && b in backends && h in https && b.http == null && (b.open ==> b in busy) && b !in idle
      requires b.backendList == this
      requires h !in pending && h.backend == null && forall c :: c in backends ==> c.http != h
      modifies b`http, h`backend
      ensures Valid() && b.http == h && h.backend == b
    {
      b.http := h;
      h.backend := b;
    }

    // The download of a dead connection moves to a free one.
    method Move(dead: Backend, b: Backend)
      requires Valid() && dead in backends && b in busy && b.http == null && b != dead
      requires dead.http != null && dead.http.backend == dead
      modifies b`http, dead`http, dead.http`backend
      ensures Valid() && dead.http == null && b.http == old(dead.http) && b.http.backend == b
      ensures forall h :: h in https ==>
        h.AsLink() == if h == old(dead.http) then old(h.AsLink()).(backend := b) else old(h.AsLink())
    {
      b.http := dead.http;
      dead.http.backend := b;
      dead.http := null;
    }

    // The download of a dead connection moves to a new one, which becomes busy.
    method MoveToNew(dead: Backend, b: Backend)
      requires Valid() && registered && dead in backends && b in backends && b.http == null && b != dead
      requires b !in busy && b !in idle && b.backendList == this && |busy| + |idle| < maxBackend
      requires dead.http != null && dead.http.backend == dead
      modifies b`http, dead`http, dead.http`backend, this`busy
      ensures Valid() && dead.http == null && b.http == old(dead.http) && b.http.backend == b
      ensures busy == old(busy) + [b]
      ensures forall h :: h in https ==>
        h.AsLink() == if h == old(dead.http) then old(h.AsLink()).(backend := b) else old(h.AsLink())
      ensures b.open ==> OpenBusy() == old(OpenBusy()) + {b}
    {
      b.http := dead.http;
      dead.http.backend := b;
      busy := busy + [b];
      dead.http := null;
    }

    // A download that nobody holds gets a new connection, which becomes busy.
    method AdoptNew(b: Backend, h: Http)
      requires Valid() && registered && b in backends && h in https && b.http == null && b.backendList == this
      requires b !in busy && b !in idle && |busy| + |idle| < maxBackend
      requires h !in pending && h.backend == null && forall c :: c in backends ==> c.http != h
      modifies b`http, h`backend, this`busy
      ensures Valid() && b.http == h && h.backend == b && busy == old(busy) + [b]
    {
      b.http := h;
      h.backend := b;
      busy := busy + [b];
    }

    method Answered(b: Backend)
      requires Valid() && b in backends
      modifies b`wasTCPConnected
      ensures Valid() && b.wasTCPConnected
    {
      b.wasTCPConnected := true;
    }

    lemma Holding(b: Backend)
      requires Valid() && b in backends && b.http != null
      ensures b !in idle && Sound(b) && b.backendList == this
    {
      assert BackendOk(b, null);
      ValidIsSound(b);
    }

    lemma Held(b: Backend)
      requires Valid() && b in backends && b.http != null
      ensures b.http in https && b.http !in pending
    {
      assert BackendOk(b, null);
    }

    lemma ValidIsSound(b: Backend)
      requires Valid()
      ensures Sound(b)
    {
      forall c | c in backends ensures BackendOk(c, b) {
        assert BackendOk(c, null);
      }
    }

    lemma Unlisted(b: Backend)
      requires Valid() && b in backends && b.backendList == null
      ensures b !in busy && b !in idle
    {
      assert BackendOk(b, null);
    }

    method Enroll(h: Http)
      requires Valid() && h !in https && h.backend == null && (h.backendList == null || h.backendList == this)
      modifies this`https
      ensures Valid() && https == old(https) + {h} && forall c :: c in backends ==> c.http != h
    {
      assert forall b :: b in backends ==> BackendOk(b, null);
      https := https + {h};
    }

    // The destructor's first part: the download forgets this connection.
    method Part(b: Backend)
      requires Valid() && b in backends
      modifies b`http, https`backend
      ensures Valid() && b.http == null
      ensures forall h :: h in https ==> h.backend == if old(h.backend) == b then null else old(h.backend)
      ensures old(Carrying()) ==> CarryingBut(b)
    {
      assert forall h :: h in https ==> HttpOk(h);
      if b.http != null {
        assert BackendOk(b, null);
        Release(b);
      }
    }

    // The destructor's last part: a connection in no list is gone.
    method Delete(b: Backend)
      requires Valid() && b in backends && b.http == null && b !in busy && b !in idle
      modifies this`backends
      ensures Valid() && backends == old(backends) - {b} && forall h :: h in https ==> h.backend != b
      ensures old(Carrying()) ==> Carrying()
    {
      assert forall h :: h in https ==> HttpOk(h);
      backends := backends - {b};
    }

    // tryConnectInternalList with a list at hand: an idle connection, else a new one while
    // fewer than maxBackend are busy, else the waiting list.
    method TryConnectInternalList(http: Http, dial: Dial) returns (backend: Backend?, connectInternal: bool)
      requires Valid() && registered && http in https && http !in pending && http.backend == null
      requires (http.backendList == null || http.backendList == this) && forall c :: c in backends ==> c.http != http
      modifies http, this`busy, this`idle, this`pending, this`backends, idle`http
      ensures Valid() && http.backendList == this && http.alive && http.clients == old(http.clients)
      ensures old(backends) <= backends && fresh(backends - old(backends))
      ensures connectInternal <==> backend != null || http in pending
      ensures if old(idle) != [] then
          backend == old(idle)[|old(idle)| - 1] && busy == old(busy) + [backend] &&
          old(idle) == idle + [backend] && pending == old(pending)
        else if |old(busy)| < maxBackend then
          idle == [] && pending == old(pending) &&
          if dial.Connecting? then backend != null && fresh(backend) && busy == old(busy) + [backend]
          else backend == null && busy == old(busy)
        else
          backend == null && busy == old(busy) && idle == [] && pending == old(pending) + [http] && http.pending
      ensures http.backend == backend && (backend != null ==> backend.http == http && backend.open)
      ensures old(Carrying()) ==> Carrying()
      ensures forall b :: b in backends - old(backends) ==> !b.wasTCPConnected
    {
      hide Without, NoDup, EveryOther, Served, Dropped, Handed;
      connectInternal := true;
      List(http);
      if idle != [] {
        backend := PopIdle();
        assert backend in idle + [backend];
        Adopt(backend, http);
      } else if |busy| < maxBackend {
        backend, connectInternal := ConnectNew(http, dial);
      } else {
        http.pending := true;
        Queue(http);
        backend := null;
      }
    }

    // The download knows its list and its url.
    method List(http: Http)
      requires Valid() && http in https && (http.backendList == null || http.backendList == this)
      modifies http`backendList, http`alive
      ensures Valid() && http.backendList == this && http.alive
    {
      http.alive := true;
      http.backendList := this;
    }

    method Queue(http: Http)
      requires Valid() && registered && http in https && http !in pending && http.backend == null && idle == []
      requires http.backendList == this && forall c :: c in backends ==> c.http != http
      modifies this`pending
      ensures Valid() && pending == old(pending) + [http]
    {
      pending := pending + [http];
    }

    // A new connection, whether it opens or not; nobody sees it yet.
    method DialNew(dial: Dial) returns (newBackend: Backend, ok: bool)
      requires Valid()
      modifies this`backends
      ensures Valid() && fresh(newBackend) && backends == old(backends) + {newBackend} && ok == dial.Connecting?
      ensures newBackend.http == null && newBackend.backendList == this && !newBackend.wasTCPConnected
      ensures newBackend.open == !dial.NoSocket? && newBackend !in busy && newBackend !in idle
      ensures old(Carrying()) ==> Carrying()
      ensures Shown() == old(Shown())
    {
      hide NoDup;
      Members();
      ghost var v := Shown();
      newBackend := new Backend(this);
      backends := backends + {newBackend};
      ok := newBackend.TryConnectInternal(dial);
      assert AnsweredOnes() == v.answered;
      assert OpenBusy() == v.open;
    }

    method ConnectNew(http: Http, dial: Dial) returns (backend: Backend?, connectInternal: bool)
      requires Valid() && registered && http in https && http !in pending && http.backend == null
      requires forall c :: c in backends ==> c.http != http
      requires |busy| + |idle| < maxBackend
      modifies http`backend, this`busy, this`backends
      ensures Valid() && old(backends) <= backends && fresh(backends - old(backends))
      ensures connectInternal == dial.Connecting? == (backend != null)
      ensures if backend != null then
          fresh(backend) && busy == old(busy) + [backend] && backend.http == http && http.backend == backend && backend.open
          && !backend.wasTCPConnected
        else busy == old(busy) && http.backend == null
      ensures old(Carrying()) ==> Carrying()
      ensures forall b :: b in backends - old(backends) ==> !b.wasTCPConnected
    {
      hide Without, NoDup, EveryOther, Served, Dropped, Handed;
      var newBackend;
      newBackend, connectInternal := DialNew(dial);
      if !connectInternal {
        return null, false;
      }
      AdoptNew(newBackend, http);
      backend := newBackend;
    }

    method PopPending() returns (h: Http)
      requires Valid() && pending != []
      modifies this`pending
      ensures Valid() && old(pending) == [h] + pending
      ensures h in https && h !in pending && h.backend == null && h.backendList == this && forall c :: c in backends ==> c.http != h
    {
      h := pending[0];
      pending := pending[1..];
    }

    // Dropping a download that nobody holds and that does not wait.
    method DropLoose(h: Http)
      requires Valid() && h in https && h.backend == null && h !in pending
      requires h.backendList == null || h.backendList == this
      modifies h`clients, h`backendList, h`alive, this`pending
      ensures Valid() && pending == old(pending) && Dropped(h)
    {
      WithoutAbsent(pending, h);
      h.Drop(this);
    }

    // The loop of remoteSocketClosed over the waiting downloads, from a valid state.
    method AbortWaiting()
      requires Valid()
      modifies this`pending, pending
      ensures Valid() && pending == EveryOther(old(pending))
      ensures forall h :: h in old(pending) ==> if h in pending then unchanged(h) else Dropped(h)
      ensures forall h :: h in pending ==> h in old(pending)
      ensures AnyReady(pending) <==> old(OddReady(pending))
      ensures old(Carrying()) ==> Carrying()
      ensures forall h :: h in https ==>
        h.AsLink() == if h in old(pending) && h !in pending then Link(null, false, []) else old(h.AsLink())
    {
      hide EveryOther, Without, AnyReady, OddReady;
      EveryOtherNoDup(pending);
      OddStay(pending);
      AbortPending();
      assert AnyReady(pending) == old(AnyReady(EveryOther(pending))) by { SameReady(pending); }
      assert pending != [] ==> pending[0] in old(pending);
      forall h | h in https ensures h.backend == old(h.backend) && HttpOk(h) {
        assert old(HttpOk(h));
        if h in old(pending) {
          assert h in pending || Dropped(h);
        }
      }
      forall b | b in backends ensures BackendOk(b, null) {
        assert old(BackendOk(b, null));
      }
    }

    method EraseIdle(b: Backend)
      modifies this`idle
      ensures idle == Without(old(idle), b)
    {
      var index := 0;
      while index < |idle|
        invariant index <= |idle| && idle == old(idle) && b !in idle[..index]
      {
        if idle[index] == b {
          WithoutAt(idle, b, index);
          idle := idle[..index] + idle[index + 1..];
          return;
        }
        index := index + 1;
      }
      WithoutAbsent(idle, b);
    }

    method ErasePending(h: Http)
      modifies this`pending
      ensures pending == Without(old(pending), h) && |pending| <= |old(pending)|
      ensures NoDup(old(pending)) ==> NoDup(pending) && forall g :: g in pending <==> g in old(pending) && g != h
    {
      if NoDup(pending) { DropWaiting(pending, h); }
      var index := 0;
      while index < |pending|
        invariant index <= |pending| && pending == old(pending) && h !in pending[..index]
      {
        if pending[index] == h {
          WithoutAt(pending, h, index);
          pending := pending[..index] + pending[index + 1..];
          return;
        }
        index := index + 1;
      }
      WithoutAbsent(pending, h);
    }

    method Leave(h: Http)
      requires Valid() && h in https
      modifies this`pending
      ensures Valid() && h !in pending && pending == Without(old(pending), h)
      ensures forall g :: g in pending ==> g in old(pending)
    {
      ErasePending(h);
    }

    // The loop of remoteSocketClosed over the waiting downloads once no connection is left.
    // Aborting a download takes it off the list, and the index moves on all the same.
    method AbortPending()
      requires NoDup(pending) && forall h :: h in pending ==> h.backend == null && h.backendList == this
      modifies this`pending, pending
      ensures pending == EveryOther(old(pending))
      ensures forall h :: h in pending ==> h in old(pending)
      ensures forall h :: h in old(pending) ==> if h in pending then unchanged(h) else Dropped(h)
    {
      hide Without, NoDup, EveryOther, Dropped;
      ghost var was, kept, rest := pending, [], pending;
      assert [] + was == was && [] + EveryOther(was) == EveryOther(was);
      var index := 0;
      while index < |pending|
        invariant pending == kept + rest && NoDup(kept + rest)
        invariant EveryOther(was) == kept + EveryOther(rest)
        invariant if rest == [] then |kept| <= index else |kept| == index
        invariant forall h :: h in kept || h in rest ==> h in was && unchanged(h)
        invariant forall h :: h in was ==> h in kept || h in rest || Dropped(h)
        decreases |rest|
      {
        var http := pending[index];
        assert http == rest[0] && http in rest;
        http.Drop(this);
        kept, rest := NextTurn(was, kept, rest);
        index := index + 1;
      }
      EveryOtherAt<Http>([]);
    }

    // A list that owns nothing yet and is not registered.
    constructor (maxBackend: nat)
      ensures Valid() && !registered && this.maxBackend == maxBackend
      ensures busy == [] && idle == [] && pending == [] && backends == {} && https == {}
    {
      this.maxBackend := maxBackend;
      registered, busy, idle, pending, backends, https := false, [], [], [], {}, {};
    }

    // The first connection of an address: the list is registered only when it opens.
    method Register(http: Http, dial: Dial) returns (backend: Backend?, connectInternal: bool)
      requires Valid() && !registered && maxBackend > 0 && http in https && http.backend == null
      requires (http.backendList == null || http.backendList == this) && forall c :: c in backends ==> c.http != http
      modifies http, this`busy, this`backends, this`registered
      ensures Valid() && http.backendList == this && http.alive && idle == [] && pending == []
      ensures old(backends) <= backends && fresh(backends - old(backends))
      ensures registered == connectInternal == dial.Connecting? == (backend != null)
      ensures if backend != null then
          fresh(backend) && busy == [backend] && backend.http == http && http.backend == backend && backend.open
          && !backend.wasTCPConnected
        else busy == [] && http.backend == null
      ensures old(Carrying()) ==> Carrying()
      ensures forall b :: b in backends - old(backends) ==> !b.wasTCPConnected
    {
      hide Without, NoDup, EveryOther, Served, Dropped, Handed;
      List(http);
      RegisterEmpty();
      backend, connectInternal := ConnectNew(http, dial);
      if !connectInternal {
        Unregister();
      }
    }

    method RegisterEmpty()
      requires Valid()
      modifies this`registered
      ensures Valid() && registered
    {
      registered := true;
    }

    method Unregister()
      requires Valid() && busy == [] && idle == [] && pending == []
      modifies this`registered
      ensures Valid() && !registered
    {
      registered := false;
    }

    lemma Members()
      requires Valid()
      ensures |busy| + |idle| <= maxBackend
      ensures forall b :: b in busy || b in idle ==> b in backends
      ensures idle == [] || pending == []
      ensures forall b :: b in busy ==> b !in idle
      ensures forall b :: b in idle ==> b.open
      ensures forall h :: h in pending ==> h in https
      ensures NoDup(busy) && NoDup(idle) && NoDup(pending)
      ensures busy != [] || idle != [] || pending != [] ==> registered
    {
    }

    lemma Links()
      requires Valid()
      ensures forall h :: h in https ==> HttpOk(h)
      ensures forall b :: b in backends ==> BackendOk(b, null)
    {
    }

    lemma LinksOf(b: Backend)
      requires Valid() && b in backends
      ensures forall h :: h in https && h.backend == b ==> b.http == h && h !in pending
      ensures b.http != null ==> b.http in https && b.http !in pending && (b in busy ==> b.http.backend == b)
      ensures b.http != null && b.http.backend != null ==> b.http.backend == b
      ensures if b.backendList == null then b.http == null else b.backendList == this
      ensures b.http != null ==> b !in idle && (b.open ==> b in busy)
      ensures b in idle ==> b.http == null
      ensures Carrying() ==> b.backendList == this && (b in busy ==> b.http != null)
      ensures forall h :: h in https && h.AsLink().backend == b ==> b.http == h
      ensures b.http != null && b.http.AsLink().backend != b ==> b.http.AsLink().(backend := null) == b.http.AsLink()
      ensures b.http != null && (b in busy || b.http.backend == b) ==> b.http.AsLink().backend == b
    {
      Links();
    }

    // What every reachable state promises, read off the lists and the links.
    lemma PoolSafety()
      requires Valid()
      ensures NoDup(busy + idle) && |busy| + |idle| <= maxBackend && NoDup(pending)
      ensures idle == [] || pending == []
      ensures forall h :: h in https && h.backend != null ==> h.backend.http == h && h !in pending
      ensures forall b :: b in idle ==> b.open && b.http == null
      ensures forall b :: b in backends && b.open && b.http != null ==> b in busy && b.http.backend == b
      ensures forall b, c :: b in backends && c in backends && b.http != null && b.http == c.http ==> b == c
    {
      assert forall h :: h in https ==> HttpOk(h);
      assert forall b :: b in backends ==> BackendOk(b, null);
      forall i, j | 0 <= i < j < |busy + idle| ensures (busy + idle)[i] != (busy + idle)[j] {
        assert (busy + idle)[i] == if i < |busy| then busy[i] else idle[i - |busy|];
        assert (busy + idle)[j] == if j < |busy| then busy[j] else idle[j - |busy|];
        if i < |busy| <= j { assert busy[i] in busy && idle[j - |busy|] in idle; }
      }
    }
  }
}

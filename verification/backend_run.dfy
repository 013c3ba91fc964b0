// Runs of the connection allocator from the program's start: callbacks of the event loop for
// any number of addresses, and when one of them leaves a download waiting for nobody.
module BackendRun {
  import opened Lists
  import opened BackendPool

  type Address = nat

  // The callbacks, as they come. A connection is named by itself, or by its number among the
  // connections in the order in which they became busy.
  datatype Event<C> =
    | Connect(h: Http, address: Address, dial: Dial)
    | Status(h: Http, code: int)
    | Disconnect(h: Http)
    | HttpTimeout(h: Http, expired: bool)
    | Join(h: Http, client: nat)
    | Leave(h: Http, client: nat)
    | SocketClosed(b: C, dial: Dial)
    | BackendTimeout(b: C, expired: bool, dial: Dial)
    | Delete(b: C)

  function Subject(e: Event<Backend>): set<object> {
    match e
    case SocketClosed(b, _) => {b}
    case BackendTimeout(b, _, _) => {b}
    case Delete(b) => {b}
    case _ => {e.h}
  }

  // The callback is one on the list's own objects, or connects a new download to it.
  ghost predicate Concerns(list: BackendList, e: Event<Backend>)
    reads list, Subject(e)
  {
    match e
    case Connect(h, _, _) => list.registered && h !in list.https && h.backend == null && h.backendList == null
    case SocketClosed(b, _) => b in list.backends
    case BackendTimeout(b, _, _) => b in list.backends
    case Delete(b) => b in list.backends
    case _ => e.h in list.https
  }

  // When a callback leaves a ready download waiting with no connection left: it takes away the
  // only connection while somebody waits who is not dropped with it, or a client joins a
  // download that waits for none.
  ghost predicate Strands(list: BackendList, e: Event<Backend>)
    reads list, list.pending, Subject(e)
  {
    match e
    case Connect(h, _, _) => list.maxBackend == 0 && h.clients != []
    case Join(h, _) => list.busy == [] && list.idle == [] && h in list.pending && h.alive && h.clients == []
    case SocketClosed(b, dial) => b.LossStrands(list, dial)
    case BackendTimeout(b, expired, dial) =>
      expired && !dial.Connecting? && b.http != null && b.wasTCPConnected && list.busy == [b] && TwoReady(list.pending)
    case Delete(b) => list.busy == [b] && AnyReady(list.pending)
    case _ => false
  }

  // The same, read off what is seen of a list that carries.
  ghost predicate StrandsIn(v: View, e: Event<Backend>) {
    match e
    case Join(h, _) =>
      v.busy == [] && v.idle == [] && h in v.pending && h in v.links && v.links[h].alive && v.links[h].clients == []
    case SocketClosed(b, dial) => v.busy == [b] && if b !in v.answered then v.Odd() else !dial.Connecting? && v.Any()
    case BackendTimeout(b, expired, dial) =>
      expired && !dial.Connecting? && b in v.answered && v.busy == [b] && v.Two()
    case Delete(b) => v.busy == [b] && v.Any()
    case _ => false
  }

  lemma StrandsShown(list: BackendList, e: Event<Backend>)
    requires list.Valid() && list.Carrying() && list.maxBackend > 0 && Concerns(list, e)
    ensures Strands(list, e) <==> StrandsIn(list.Shown(), e)
  {
    hide View.ReadyAt, AnyReady, OddReady, TwoReady, View.Any, View.Odd, View.Two, BackendList.Valid;
    list.StrandedShown();
    list.Members();
  }

  // ---------------------------------------------------------------- what a callback does to a list

  // A new download takes the last idle connection, else a new one, else the end of the waiting list.
  ghost predicate Connects(max: nat, v: View, w: View, h: Http, dial: Dial) {
    && h !in v.links && w.links.Keys == v.links.Keys + {h} && w.answered == v.answered && w.links[h].alive
    && (forall g :: g in v.links ==> w.links[g] == v.links[g])
    && var b := w.links[h].backend;
    w.open == (if b != null then v.open + {b} else v.open) &&
    if v.idle != [] then
      && b == v.idle[|v.idle| - 1] && w.busy == v.busy + [b] && v.idle == w.idle + [b] && w.pending == v.pending
    else if |v.busy| < max then
      && w.idle == [] && w.pending == v.pending
      && if dial.Connecting? then b != null && b !in v.busy && b !in v.answered && w.busy == v.busy + [b]
         else b == null && w.busy == v.busy
    else
      b == null && w.busy == v.busy && w.idle == [] && w.pending == v.pending + [h]
  }

  // A connection has carried no byte for too long: its download is told and lets it go, then it
  // is lost. A dead one may be named by a download that has been told of that.
  ghost predicate Expires(v: View, w: View, b: Backend, expired: bool, dial: Dial) {
    if !expired || b in v.idle then w == v
    else if b in v.busy then exists h :: h in v.links && v.links[h].backend == b && Drops(v, w, b, h, dial)
    else w == v || exists h :: h in v.links && (v.links[h].backend == b || v.links[h].backend == null) && Drops(v, w, b, h, dial)
  }

  ghost predicate Drops(v: View, w: View, b: Backend, h: Http, dial: Dial) {
    h in v.links && Loses(Released(v.Told(h), h), w, b, dial)
  }

  ghost predicate Effect(max: nat, v: View, w: View, e: Event<Backend>) {
    match e
    case Connect(h, _, dial) => Connects(max, v, w, h, dial)
    case Status(h, code) =>
      if code == 200 then w == v.Answering(h) else LetGo(v.Answering(h).Told(h), w, h)
    case Disconnect(h) => LetGo(v, w, h)
    case HttpTimeout(h, expired) =>
      if !expired then w == v
      else if h in v.links && v.links[h].backend != null then w == v.Told(h).(open := v.open - {v.links[h].backend})
      else LetGo(v.Told(h), w, h)
    case Join(h, client) =>
      h in v.links && var k := v.links[h];
      w == if k.alive && client !in k.clients then v.(links := v.links[h := k.(clients := k.clients + [client])]) else v
    case Leave(h, client) =>
      h in v.links && var k := v.links[h];
      w == v.(links := v.links[h := k.(clients := WithoutAll(k.clients, client))])
    case SocketClosed(b, dial) => Loses(v, w, b, dial)
    case BackendTimeout(b, expired, dial) => Expires(v, w, b, expired, dial)
    case Delete(b) =>
      && w.busy == Without(v.busy, b) && w.idle == Without(v.idle, b) && w.pending == v.pending
      && w.answered == v.answered - {b} && w.open == v.open - {b} && Relinked(v, w, b, null)
  }

  // A callback on a list that carries: what it does, a ready download is left waiting for nobody
  // exactly when StrandsIn says so, and the address keeps its list.
  ghost predicate Moves(max: nat, v: View, w: View, e: Event<Backend>) {
    Effect(max, v, w, e) && w.registered == v.registered && (!v.Stranded() ==> (w.Stranded() <==> StrandsIn(v, e)))
  }

  method HandleConnect(list: BackendList, e: Event<Backend>)
    requires list.Valid() && Concerns(list, e) && e.Connect?
    modifies list, list.backends, list.https, e.h
    ensures list.Valid() && fresh(list.backends - old(list.backends))
    ensures old(list.backends) <= list.backends && list.https == old(list.https) + {e.h}
    ensures list.registered == old(list.registered)
    ensures !old(list.Stranded()) ==> (list.Stranded() <==> old(Strands(list, e)))
    ensures old(list.Carrying()) ==> list.Carrying()
    ensures Effect(list.maxBackend, old(list.Shown()), list.Shown(), e)
  {
    hide Without, NoDup, EveryOther, Allocated, AnyReady, LetGo;
    hide BackendList.Valid, BackendList.Stranded, BackendList.Carrying;
    list.Members();
    ghost var v := list.Shown();
    var ok := e.h.TryConnectInternal(list, e.dial);
    list.Members();
    ghost var w := list.Shown();
    assert w.answered == v.answered;
    assert w.open == if e.h.backend != null then v.open + {e.h.backend} else v.open;
    assert w.links.Keys == v.links.Keys + {e.h};
    assert forall g :: g in v.links ==> w.links[g] == v.links[g];
  }

  // The callbacks on a download that its list has already.
  method HandleDownload(list: BackendList, e: Event<Backend>)
    requires list.Valid() && Concerns(list, e) && (e.Status? || e.Disconnect? || e.HttpTimeout? || e.Join? || e.Leave?)
    modifies list, list.backends, list.https
    ensures list.Valid() && list.backends == old(list.backends) && list.https == old(list.https)
    ensures list.registered == old(list.registered)
    ensures !old(list.Stranded()) ==> (list.Stranded() <==> old(Strands(list, e)))
    ensures old(list.Carrying()) ==> list.Carrying()
    ensures Effect(list.maxBackend, old(list.Shown()), list.Shown(), e)
  {
    hide Without, WithoutAll, NoDup, EveryOther, Allocated, Served, Dropped, Waiting, AnyReady, LetGo;
    hide BackendList.Valid, BackendList.Stranded, BackendList.Carrying;
    ghost var v := list.Shown();
    match e {
      case Status(h, code) => HandleStatus(list, e);
      case Disconnect(h) => HandleDisconnect(list, e);
      case HttpTimeout(h, expired) => HandleHttpTimeout(list, e);
      case Join(h, client) => h.AddClient(client, list);
      case Leave(h, client) => var ok := h.RemoveClient(client, list);
    }
    assert e.Join? || e.Leave? ==> list.Shown().answered == v.answered && list.Shown().open == v.open;
  }

  method HandleDisconnect(list: BackendList, e: Event<Backend>)
    requires list.Valid() && Concerns(list, e) && e.Disconnect?
    modifies list, list.backends, list.https
    ensures list.Valid() && list.backends == old(list.backends) && list.https == old(list.https)
    ensures list.registered == old(list.registered)
    ensures !old(list.Stranded()) ==> !list.Stranded()
    ensures old(list.Carrying()) ==> list.Carrying()
    ensures Effect(list.maxBackend, old(list.Shown()), list.Shown(), e)
  {
    hide LetGo, Served, Waiting, BackendList.Valid, BackendList.Stranded, BackendList.Carrying, BackendList.Shown;
    e.h.DisconnectBackend(list);
  }

  method HandleHttpTimeout(list: BackendList, e: Event<Backend>)
    requires list.Valid() && Concerns(list, e) && e.HttpTimeout?
    modifies list, list.backends, list.https
    ensures list.Valid() && list.backends == old(list.backends) && list.https == old(list.https)
    ensures list.registered == old(list.registered)
    ensures !old(list.Stranded()) ==> !list.Stranded()
    ensures old(list.Carrying()) ==> list.Carrying()
    ensures Effect(list.maxBackend, old(list.Shown()), list.Shown(), e)
  {
    hide Without, WithoutAll, NoDup, EveryOther, Allocated, Served, Dropped, Waiting, AnyReady, LetGo;
    hide BackendList.Valid, BackendList.Stranded, BackendList.Carrying;
    ghost var v := list.Shown();
    ghost var held := e.h.backend;
    if e.h.backend != null {
      e.h.LinkedBack(list);
    }
    e.h.DetectTimeout(list, e.expired);
    ghost var w := list.Shown();
    assert w.answered == v.answered;
    assert !e.expired ==> w.open == v.open && w.links == v.links;
    assert e.expired && held != null ==> w.open == v.open - {held} && w.links == v.Told(e.h).links;
  }

  method HandleStatus(list: BackendList, e: Event<Backend>)
    requires list.Valid() && Concerns(list, e) && e.Status?
    modifies list, list.backends, list.https
    ensures list.Valid() && list.backends == old(list.backends) && list.https == old(list.https)
    ensures list.registered == old(list.registered)
    ensures !old(list.Stranded()) ==> !list.Stranded()
    ensures old(list.Carrying()) ==> list.Carrying()
    ensures Effect(list.maxBackend, old(list.Shown()), list.Shown(), e)
  {
    hide Without, WithoutAll, NoDup, EveryOther, Allocated, Served, Dropped, Waiting, AnyReady, LetGo;
    hide BackendList.Valid, BackendList.Stranded, BackendList.Carrying;
    ghost var v := list.Shown();
    if e.h.backend != null {
      e.h.LinkedBack(list);
    }
    e.h.ReadStatus(list, e.code);
    assert e.code == 200 ==> list.Shown().links == v.links && list.Shown().answered == v.Answering(e.h).answered;
  }

  method HandleLoss(list: BackendList, e: Event<Backend>)
    requires list.Valid() && Concerns(list, e) && e.SocketClosed?
    modifies list, list.backends, list.https
    ensures list.Valid() && fresh(list.backends - old(list.backends))
    ensures old(list.backends) <= list.backends && list.https == old(list.https)
    ensures list.registered ==> old(list.registered)
    ensures !old(list.Stranded()) ==> (list.Stranded() <==> old(Strands(list, e)))
    ensures old(list.Carrying()) ==>
      list.Carrying() && list.registered == old(list.registered) && Effect(list.maxBackend, old(list.Shown()), list.Shown(), e)
  {
    hide Without, NoDup, EveryOther, Allocated, AnyReady, Backend.LossStrands, Loses;
    hide BackendList.Valid, BackendList.Sound, BackendList.Stranded, BackendList.Shown;
    list.ValidIsSound(e.b);
    list.LinksOf(e.b);
    e.b.RemoteSocketClosed(list, e.dial);
  }

  method HandleExpiry(list: BackendList, e: Event<Backend>)
    requires list.Valid() && Concerns(list, e) && e.BackendTimeout?
    modifies list, list.backends, list.https
    ensures list.Valid() && fresh(list.backends - old(list.backends))
    ensures old(list.backends) <= list.backends && list.https == old(list.https)
    ensures list.registered ==> old(list.registered)
    ensures !old(list.Stranded()) ==> (list.Stranded() <==> old(Strands(list, e)))
    ensures old(list.Carrying()) ==>
      list.Carrying() && list.registered == old(list.registered) && Effect(list.maxBackend, old(list.Shown()), list.Shown(), e)
  {
    hide Without, NoDup, EveryOther, Allocated, AnyReady, TwoReady, Loses, Released, LetGo, View.Told;
    hide BackendList.Valid, BackendList.Sound, BackendList.Stranded;
    list.Members();
    list.LinksOf(e.b);
    ghost var v, h := list.Shown(), e.b.http;
    var quit := e.b.DetectTimeout(list, e.expired, e.dial);
    ghost var w := list.Shown();
    assert !quit ==> w.links == v.links && w.open == v.open && w.answered == v.answered;
    assert quit && old(list.Carrying()) ==> Drops(v, w, e.b, h, e.dial);
  }

  method HandleDelete(list: BackendList, e: Event<Backend>)
    requires list.Valid() && Concerns(list, e) && e.Delete?
    modifies list, list.backends, list.https
    ensures list.Valid() && list.backends == old(list.backends) - {e.b} && list.https == old(list.https)
    ensures list.registered == old(list.registered)
    ensures !old(list.Stranded()) ==> (list.Stranded() <==> old(Strands(list, e)))
    ensures old(list.Carrying()) ==> list.Carrying()
    ensures Effect(list.maxBackend, old(list.Shown()), list.Shown(), e)
  {
    hide Without, NoDup, EveryOther, Allocated, AnyReady;
    hide BackendList.Valid, BackendList.Sound, BackendList.Stranded;
    list.Links();
    list.Members();
    BusyWithout(list.busy, e.b);
    ghost var v := list.Shown();
    e.b.Destroy(list);
    ghost var w := list.Shown();
    assert w.answered == v.answered - {e.b} && w.open == v.open - {e.b} && w.links.Keys == v.links.Keys;
  }

  // One callback, run to its end. It leaves a download stranded if and only if Strands says so.
  method Handle(list: BackendList, e: Event<Backend>)
    requires list.Valid() && Concerns(list, e)
    modifies list, list.backends, list.https, if e.Connect? then {e.h} else {}
    ensures list.Valid() && fresh(list.backends - old(list.backends))
    ensures old(list.backends) - (if e.Delete? then {e.b} else {}) <= list.backends
    ensures list.https == old(list.https) + if e.Connect? then {e.h} else {}
    ensures list.registered ==> old(list.registered)
    ensures !old(list.Stranded()) ==> (list.Stranded() <==> old(Strands(list, e)))
    ensures old(list.Carrying()) ==> list.Carrying() && list.registered == old(list.registered)
    ensures list.maxBackend > 0 && old(list.Carrying()) ==> Moves(list.maxBackend, old(list.Shown()), list.Shown(), e)
  {
    hide Effect, Strands, StrandsIn, AnyReady, OddReady, TwoReady, View.Any, View.Odd, View.Two, View.Stranded;
    hide BackendList.Valid, BackendList.Carrying, BackendList.Stranded;
    if list.maxBackend > 0 && list.Carrying() {
      StrandsShown(list, e);
    }
    list.StrandedShown();
    if e.Connect? {
      HandleConnect(list, e);
    } else if e.SocketClosed? {
      HandleLoss(list, e);
    } else if e.BackendTimeout? {
      HandleExpiry(list, e);
    } else if e.Delete? {
      HandleDelete(list, e);
    } else {
      HandleDownload(list, e);
    }
    list.StrandedShown();
  }

  // ---------------------------------------------------------------- runs

  // No connection and no download belongs to two lists.
  ghost predicate Apart(all: set<BackendList>)
    reads all
  {
    forall l, m :: l in all && m in all && l != m ==> l.backends !! m.backends && l.https !! m.https
  }

  ghost predicate AllValid(all: set<BackendList>, max: nat)
    reads all
    reads set l, h | l in all && h in l.https :: h
    reads set l, b | l in all && b in l.backends :: b
  {
    forall l :: l in all ==> l.Valid() && l.Carrying() && l.maxBackend == max
  }

  // The table has exactly the registered lists, each under its address.
  ghost predicate InTable(all: set<BackendList>, place: map<BackendList, Address>, table: map<Address, BackendList>)
    reads all
  {
    && (forall l :: l in all ==> l in place)
    && (forall l :: l in all && l.registered ==> place[l] in table && table[place[l]] == l)
    && (forall a :: a in table ==> table[a] in all && place[table[a]] == a && table[a].registered)
  }

  // What the program knows: the lists of its addresses, the list of every download started and
  // of every connection that was busy once and is not deleted, and those connections by number.
  datatype Tables = Tables(table: map<Address, BackendList>, home: map<Http, BackendList>,
                           owner: map<Backend, BackendList>, seen: seq<Backend>)
  {
    // The connections of a list become known once they are busy.
    function Noted(list: BackendList, connections: seq<Backend>): Tables {
      this.(owner := owner + map b | b in connections :: list, seen := seen + Newcomers(connections, seen))
    }

    function After(list: BackendList, e: Event<Backend>): Tables {
      match e
      case Connect(h, _, _) => this.(home := home[h := list])
      case Delete(b) => this.(owner := owner - {b})
      case _ => this
    }
  }

  // The connections that have no number yet.
  function Newcomers(connections: seq<Backend>, seen: seq<Backend>): seq<Backend> {
    if connections == [] then []
    else (if connections[0] in seen then [] else [connections[0]]) + Newcomers(connections[1..], seen)
  }

  lemma NewcomersAre(connections: seq<Backend>, seen: seq<Backend>)
    ensures forall b :: b in Newcomers(connections, seen) <==> b in connections && b !in seen
  {
  }

  // Where the run's objects are: every download sent and every connection known has its list.
  ghost predicate Homes(all: set<BackendList>, home: map<Http, BackendList>, owner: map<Backend, BackendList>)
    reads all
  {
    && (forall h :: h in home ==> home[h] in all && h in home[h].https)
    && (forall l, h :: l in all && h in l.https ==> h in home)
    && (forall b :: b in owner ==> owner[b] in all && b in owner[b].backends)
  }

  // Every busy or idle connection of these lists has a number, under which its list is found.
  ghost predicate Numbered(lists: set<BackendList>, t: Tables)
    reads lists
  {
    && (forall b :: b in t.owner ==> b in t.seen)
    && (forall l, b :: l in lists && b in l.busy + l.idle ==> b in t.owner && t.owner[b] == l)
  }

  // What holds between callbacks, all being every list ever made and place what it was made for.
  ghost predicate Sound(all: set<BackendList>, place: map<BackendList, Address>, max: nat, t: Tables)
    reads all
    reads set l, h | l in all && h in l.https :: h
    reads set l, b | l in all && b in l.backends :: b
  {
    AllValid(all, max) && Apart(all) && InTable(all, place, t.table) && Homes(all, t.home, t.owner) && Numbered(all, t)
  }

  // The downloads that may still be started.
  ghost predicate Unstarted(downloads: set<Http>, home: map<Http, BackendList>)
    reads downloads
  {
    forall h :: h in downloads && h !in home ==> h.backend == null && h.backendList == null
  }

  // Only downloads that may be started have been, and the others are as they were made.
  ghost predicate Kept(all: set<BackendList>, downloads: set<Http>, t: Tables)
    reads all, downloads
  {
    Unstarted(downloads, t.home) && forall l :: l in all ==> l.https <= downloads
  }

  // The list that a callback is for: the one of the address for a new download, else the one
  // whose object it is. Nobody for a download not started, a number not given or a connection
  // deleted.
  datatype Target = Nobody | At(list: BackendList, call: Event<Backend>) | Opening(h: Http, address: Address, dial: Dial)

  function Resolve(t: Tables, downloads: set<Http>, e: Event<nat>): Target {
    match e
    case Connect(h, address, dial) =>
      if h !in downloads || h in t.home then Nobody
      else if address in t.table then At(t.table[address], Connect(h, address, dial))
      else Opening(h, address, dial)
    case Status(h, code) => if h in t.home then At(t.home[h], Status(h, code)) else Nobody
    case Disconnect(h) => if h in t.home then At(t.home[h], Disconnect(h)) else Nobody
    case HttpTimeout(h, expired) => if h in t.home then At(t.home[h], HttpTimeout(h, expired)) else Nobody
    case Join(h, client) => if h in t.home then At(t.home[h], Join(h, client)) else Nobody
    case Leave(h, client) => if h in t.home then At(t.home[h], Leave(h, client)) else Nobody
    case SocketClosed(n, dial) =>
      if n < |t.seen| && t.seen[n] in t.owner then At(t.owner[t.seen[n]], SocketClosed(t.seen[n], dial)) else Nobody
    case BackendTimeout(n, expired, dial) =>
      if n < |t.seen| && t.seen[n] in t.owner then At(t.owner[t.seen[n]], BackendTimeout(t.seen[n], expired, dial))
      else Nobody
    case Delete(n) => if n < |t.seen| && t.seen[n] in t.owner then At(t.owner[t.seen[n]], Delete(t.seen[n])) else Nobody
  }

  lemma ResolveConcerns(all: set<BackendList>, place: map<BackendList, Address>, max: nat, downloads: set<Http>,
                        t: Tables, e: Event<nat>)
    requires Sound(all, place, max, t) && Kept(all, downloads, t)
    ensures var r := Resolve(t, downloads, e);
      && (r.At? ==> r.list in all && Concerns(r.list, r.call))
      && (r.At? && r.call.Connect? ==> r.call.h in downloads && r.call.h !in t.home)
      && (r.Opening? ==> r.h in downloads && r.h !in t.home && r.address !in t.table)
  {
    hide AllValid, Apart;
  }

  // A run between two callbacks: the tables, and what is seen of every list.
  datatype Snapshot = Snapshot(tables: Tables, lists: map<BackendList, View>)

  ghost function Now(all: set<BackendList>, t: Tables): Snapshot
    reads all
    reads set l, h | l in all && h in l.https :: h
    reads set l, b | l in all && b in l.backends :: b
  {
    Snapshot(t, map l | l in all :: l.Shown())
  }

  // A list made for an address that had none, with its first download.
  ghost predicate Opened(s: Snapshot, r: Snapshot, list: BackendList, h: Http, address: Address, dial: Dial) {
    && list !in s.lists && r.lists.Keys == s.lists.Keys + {list}
    && (forall l :: l in s.lists ==> r.lists[l] == s.lists[l])
    && var w := r.lists[list];
    && w.idle == [] && w.pending == [] && w.answered == {} && w.open == (if dial.Connecting? then set b | b in w.busy else {})
    && w.links.Keys == {h} && w.links[h].alive
    && w.registered == dial.Connecting?
    && var b := w.links[h].backend;
    && (if dial.Connecting? then b != null && w.busy == [b] else b == null && w.busy == [])
    && r.tables == s.tables.(table := if dial.Connecting? then s.tables.table[address := list] else s.tables.table,
                             home := s.tables.home[h := list]).Noted(list, w.busy + w.idle)
  }

  // A callback on a list that is there.
  ghost predicate Acted(max: nat, s: Snapshot, r: Snapshot, list: BackendList, call: Event<Backend>) {
    && list in s.lists && r.lists.Keys == s.lists.Keys
    && (forall l :: l in s.lists && l != list ==> r.lists[l] == s.lists[l])
    && Moves(max, s.lists[list], r.lists[list], call)
    && r.tables == s.tables.After(list, call).Noted(list, r.lists[list].busy + r.lists[list].idle)
  }

  // One callback of the event loop takes s to r.
  ghost predicate StepsTo(max: nat, downloads: set<Http>, s: Snapshot, r: Snapshot, e: Event<nat>) {
    match Resolve(s.tables, downloads, e)
    case Nobody => r == s
    case At(list, call) => Acted(max, s, r, list, call)
    case Opening(h, address, dial) => exists list :: list in r.lists && Opened(s, r, list, h, address, dial)
  }

  // A callback on one list leaves the others alone.
  method HandleAmong(ghost all: set<BackendList>, ghost max: nat, list: BackendList, e: Event<Backend>)
    requires AllValid(all, max) && Apart(all) && list in all && Concerns(list, e)
    requires e.Connect? ==> forall l :: l in all ==> e.h !in l.https
    modifies list, list.backends, list.https, if e.Connect? then {e.h} else {}
    ensures AllValid(all, max) && fresh(list.backends - old(list.backends))
    ensures old(list.backends) - (if e.Delete? then {e.b} else {}) <= list.backends
    ensures list.https == old(list.https) + if e.Connect? then {e.h} else {}
    ensures list.registered == old(list.registered)
    ensures forall l :: l in all && l != list ==> unchanged(l) && l.Shown() == old(l.Shown())
    ensures max > 0 ==> Moves(max, old(list.Shown()), list.Shown(), e)
  {
    hide BackendList.Valid, BackendList.Carrying, BackendList.Stranded, BackendList.Shown, Strands, Moves;
    ghost var others := all - {list};
    assert AllValid(others, max);
    Handle(list, e);
    assert AllValid(others, max);
  }

  method HandleOne(ghost all: set<BackendList>, ghost max: nat, ghost place: map<BackendList, Address>,
                   ghost table: map<Address, BackendList>, list: BackendList, e: Event<Backend>)
    requires AllValid(all, max) && Apart(all) && list in all && Concerns(list, e) && InTable(all, place, table)
    requires e.Connect? ==> forall l :: l in all ==> e.h !in l.https
    modifies list, list.backends, list.https, if e.Connect? then {e.h} else {}
    ensures AllValid(all, max) && Apart(all) && InTable(all, place, table) && fresh(list.backends - old(list.backends))
    ensures old(list.backends) - (if e.Delete? then {e.b} else {}) <= list.backends
    ensures list.https == old(list.https) + if e.Connect? then {e.h} else {}
    ensures list.registered == old(list.registered)
    ensures forall l :: l in all && l != list ==> unchanged(l) && l.Shown() == old(l.Shown())
    ensures max > 0 ==> Moves(max, old(list.Shown()), list.Shown(), e)
  {
    hide AllValid, Concerns, Effect, View.Stranded, StrandsIn;
    HandleAmong(all, max, list, e);
  }

  // The first connection of an address: a new list, in the table only when the dial succeeds.
  method ConnectFirst(ghost all: set<BackendList>, max: nat, h: Http, dial: Dial) returns (list: BackendList, ok: bool)
    requires AllValid(all, max) && Apart(all) && max > 0 && h.backend == null && h.backendList == null
    requires forall l :: l in all ==> h !in l.https
    modifies h
    ensures fresh(list) && fresh(list.backends) && list.https == {h} && list.registered == ok
    ensures ok == dial.Connecting? == (h.backend != null) && h.backendList == list && h.alive
    ensures h.backend != null ==> h.backend.open
    ensures list.idle == [] && list.pending == [] && list.busy == (if h.backend != null then [h.backend] else [])
    ensures list.Shown().answered == {} && forall b :: b in list.busy + list.idle ==> b in list.backends
    ensures AllValid(all + {list}, max) && Apart(all + {list})
    ensures forall l :: l in all ==> l.Shown() == old(l.Shown())
  {
    hide BackendList.Valid, Without, NoDup, EveryOther, Allocated;
    list := new BackendList(max);
    list.Enroll(h);
    var b, connectInternal := list.Register(h, dial);
    ok := connectInternal;
    list.Members();
    assert AllValid(all, max);
  }

  // The table when a list is made for an address that has none.
  lemma TableGains(all: set<BackendList>, place: map<BackendList, Address>, table: map<Address, BackendList>,
                   list: BackendList, address: Address)
    requires InTable(all, place, table) && list !in all && address !in table
    ensures InTable(all + {list}, place[list := address], if list.registered then table[address := list] else table)
  {
  }

  // The known connections of a list that a callback has just changed.
  lemma NotedKeeps(all: set<BackendList>, list: BackendList, t: Tables)
    requires Homes(all, t.home, t.owner) && Numbered(all - {list}, t) && list in all && Apart(all)
    requires forall b :: b in t.owner ==> b in t.seen
    requires forall b :: b in list.busy + list.idle ==> b in list.backends
    ensures var r := t.Noted(list, list.busy + list.idle); Homes(all, r.home, r.owner) && Numbered(all, r)
  {
    NewcomersAre(list.busy + list.idle, t.seen);
    var r := t.Noted(list, list.busy + list.idle);
    forall l, b | l in all && b in l.busy + l.idle ensures b in r.owner && r.owner[b] == l {
      if l != list {
        assert l in all - {list} && t.owner[b] == l && b in l.backends;
      }
    }
  }

  lemma HomesGain(all: set<BackendList>, t: Tables, list: BackendList, h: Http, table: map<Address, BackendList>)
    requires Homes(all, t.home, t.owner) && Numbered(all, t) && list !in all && list.https == {h} && h !in t.home
    requires forall b :: b in list.busy + list.idle ==> b in list.backends
    requires Apart(all + {list})
    ensures var r := t.(table := table, home := t.home[h := list]).Noted(list, list.busy + list.idle);
      Homes(all + {list}, r.home, r.owner) && Numbered(all + {list}, r)
  {
    var u := t.(table := table, home := t.home[h := list]);
    assert all + {list} - {list} == all;
    assert forall l, b :: l in all && b in l.busy + l.idle ==> b in t.owner && t.owner[b] == l;
    NotedKeeps(all + {list}, list, u);
  }

  lemma OpenedShown(s: Snapshot, all: set<BackendList>, list: BackendList, h: Http, address: Address, dial: Dial, r: Tables)
    requires s.lists.Keys == all && list !in all && list.https == {h} && list.registered == dial.Connecting? == (h.backend != null)
    requires h.backend != null ==> h.backend.open && h.backend in list.backends
    requires h.alive && list.idle == [] && list.pending == [] && list.busy == (if h.backend != null then [h.backend] else [])
    requires list.Shown().answered == {} && forall l :: l in all ==> l.Shown() == s.lists[l]
    requires r == s.tables.(table := if dial.Connecting? then s.tables.table[address := list] else s.tables.table,
                            home := s.tables.home[h := list]).Noted(list, list.busy + list.idle)
    ensures Opened(s, Now(all + {list}, r), list, h, address, dial)
  {
    hide BackendList.Shown;
    FirstShown(list, h);
    assert list.Shown().open == set b | b in list.busy;
  }

  lemma NotSent(all: set<BackendList>, t: Tables, h: Http)
    requires Homes(all, t.home, t.owner) && h !in t.home
    ensures forall l :: l in all ==> h !in l.https
  {
  }

  lemma FirstShown(list: BackendList, h: Http)
    requires list.https == {h}
    ensures list.Shown().links == map[h := Link(h.backend, h.alive, h.clients)]
    ensures list.Shown().busy == list.busy && list.Shown().idle == list.idle && list.Shown().pending == list.pending
    ensures list.Shown().registered == list.registered
    ensures list.Shown().open == set b | b in list.backends && b in list.busy && b.open
  {
  }

  lemma StillNumbered(all: set<BackendList>, list: BackendList, t: Tables, e: Event<Backend>)
    requires Homes(all, t.home, t.owner) && Numbered(all, t) && list in all && Apart(all) && Concerns(list, e)
    ensures Numbered(all - {list}, t.After(list, e))
  {
    var r := t.After(list, e);
    forall l, b | l in all - {list} && b in l.busy + l.idle ensures b in r.owner && r.owner[b] == l {
      assert t.owner[b] == l && b in l.backends;
    }
  }

  lemma Nothing(max: nat)
    ensures Sound({}, map[], max, Tables(map[], map[], map[], []))
    ensures Now({}, Tables(map[], map[], map[], [])) == Snapshot(Tables(map[], map[], map[], []), map[])
  {
  }

  method HandleHome(ghost all: set<BackendList>, ghost max: nat, ghost place: map<BackendList, Address>,
                    t: Tables, list: BackendList, e: Event<Backend>) returns (r: Tables)
    requires Sound(all, place, max, t) && list in all && Concerns(list, e)
    requires e.Connect? ==> e.h !in t.home
    modifies list, list.backends, list.https, if e.Connect? then {e.h} else {}
    ensures AllValid(all, max) && Apart(all) && InTable(all, place, r.table) && Homes(all, r.home, r.owner)
    ensures Numbered(all - {list}, r) && forall b :: b in r.owner ==> b in r.seen
    ensures fresh(list.backends - old(list.backends))
    ensures list.https == old(list.https) + if e.Connect? then {e.h} else {}
    ensures forall l :: l in all && l != list ==> unchanged(l) && l.Shown() == old(l.Shown())
    ensures max > 0 ==> Moves(max, old(list.Shown()), list.Shown(), e)
    ensures r == t.After(list, e)
  {
    hide AllValid, InTable, Concerns, Moves, BackendList.Shown;
    assert Numbered(all - {list}, t.After(list, e)) by { StillNumbered(all, list, t, e); }
    HandleOne(all, max, place, t.table, list, e);
    r := t;
    if e.Connect? {
      r := t.(home := t.home[e.h := list]);
    } else if e.Delete? {
      r := t.(owner := t.owner - {e.b});
    }
  }

  // A callback on a list that is there.
  method Dispatch(ghost all: set<BackendList>, ghost max: nat, ghost place: map<BackendList, Address>,
                  t: Tables, list: BackendList, e: Event<Backend>) returns (r: Tables)
    requires Sound(all, place, max, t) && list in all && Concerns(list, e) && max > 0
    requires e.Connect? ==> e.h !in t.home
    modifies list, list.backends, list.https, if e.Connect? then {e.h} else {}
    ensures Sound(all, place, max, r) && fresh(list.backends - old(list.backends))
    ensures list.https == old(list.https) + if e.Connect? then {e.h} else {}
    ensures r.home == if e.Connect? then t.home[e.h := list] else t.home
    ensures forall l :: l in all && l != list ==> unchanged(l) && l.Shown() == old(l.Shown())
    ensures Moves(max, old(list.Shown()), list.Shown(), e)
    ensures r == t.After(list, e).Noted(list, list.Shown().busy + list.Shown().idle)
  {
    hide Apart, InTable, Concerns, Homes, Numbered, Moves, BackendList.Valid, BackendList.Carrying;
    r := HandleHome(all, max, place, t, list, e);
    list.Members();
    NotedKeeps(all, list, r);
    r := r.Noted(list, list.busy + list.idle);
  }

  // A download whose address has no list.
  method Open(ghost all: set<BackendList>, max: nat, ghost place: map<BackendList, Address>,
              t: Tables, h: Http, address: Address, dial: Dial) returns (list: BackendList, r: Tables)
    requires Sound(all, place, max, t) && max > 0 && h !in t.home && h.backend == null && h.backendList == null
    requires address !in t.table
    modifies h
    ensures fresh(list) && fresh(list.backends) && list.https == {h} && r.home == t.home[h := list]
    ensures Sound(all + {list}, place[list := address], max, r)
    ensures Opened(old(Now(all, t)), Now(all + {list}, r), list, h, address, dial)
  {
    hide AllValid, Apart, InTable, Homes, Numbered, BackendList.Shown;
    var ok;
    ghost var s := Now(all, t);
    NotSent(all, t, h);
    list, ok := ConnectFirst(all, max, h, dial);
    TableGains(all, place, t.table, list, address);
    var table := if ok then t.table[address := list] else t.table;
    HomesGain(all, t, list, h, table);
    r := t.(table := table, home := t.home[h := list]).Noted(list, list.busy + list.idle);
    OpenedShown(s, all, list, h, address, dial, r);
  }

  lemma SentHave(all: set<BackendList>, place: map<BackendList, Address>, max: nat, t: Tables, list: BackendList)
    requires Sound(all, place, max, t) && list in all
    ensures forall h :: h in list.https ==> h in t.home
  {
    hide AllValid, Apart, InTable, Numbered;
  }

  lemma NowKnows(all: set<BackendList>, t: Tables)
    ensures Now(all, t).tables == t
  {
  }

  lemma NowHas(all: set<BackendList>, t: Tables)
    ensures Now(all, t).tables == t && Now(all, t).lists.Keys == all
    ensures forall l :: l in all ==> Now(all, t).lists[l] == l.Shown()
  {
  }

  method Act(ghost all: set<BackendList>, ghost max: nat, ghost place: map<BackendList, Address>,
             t: Tables, list: BackendList, e: Event<Backend>) returns (r: Tables)
    requires Sound(all, place, max, t) && list in all && Concerns(list, e) && max > 0
    requires e.Connect? ==> e.h !in t.home
    modifies list, list.backends, list.https, if e.Connect? then {e.h} else {}
    ensures Sound(all, place, max, r) && fresh(list.backends - old(list.backends))
    ensures list.https == old(list.https) + if e.Connect? then {e.h} else {}
    ensures r.home == if e.Connect? then t.home[e.h := list] else t.home
    ensures forall l :: l in all && l != list ==> unchanged(l)
    ensures Acted(max, old(Now(all, t)), Now(all, r), list, e)
  {
    hide AllValid, Apart, InTable, Concerns, Homes, Numbered, Moves, Acted, Sound, BackendList.Shown, Now;
    NowHas(all, t);
    ghost var s := Now(all, t);
    r := Dispatch(all, max, place, t, list, e);
    ActedShown(max, s, all, r, list, e);
  }

  method StepKnown(ghost all: set<BackendList>, ghost max: nat, ghost place: map<BackendList, Address>,
                   ghost downloads: set<Http>, t: Tables, list: BackendList, call: Event<Backend>) returns (r: Tables)
    requires Sound(all, place, max, t) && Kept(all, downloads, t) && list in all && Concerns(list, call) && max > 0
    requires call.Connect? ==> call.h in downloads && call.h !in t.home
    modifies list, list.backends, downloads
    ensures Sound(all, place, max, r) && Kept(all, downloads, r)
    ensures forall l :: l in all ==> fresh(l.backends - old(l.backends))
    ensures Acted(max, old(Now(all, t)), Now(all, r), list, call)
  {
    hide AllValid, Apart, InTable, Concerns, Homes, Numbered, Moves, Acted, Sound, BackendList.Shown, Now;
    SentHave(all, place, max, t, list);
    r := Act(all, max, place, t, list, call);
  }

  lemma ActedShown(max: nat, s: Snapshot, all: set<BackendList>, r: Tables, list: BackendList, call: Event<Backend>)
    requires s.lists.Keys == all && list in all && Moves(max, s.lists[list], list.Shown(), call)
    requires forall l :: l in all && l != list ==> l.Shown() == s.lists[l]
    requires r == s.tables.After(list, call).Noted(list, list.Shown().busy + list.Shown().idle)
    ensures Acted(max, s, Now(all, r), list, call)
  {
    hide Moves, BackendList.Shown;
  }

  method StepOpen(ghost all: set<BackendList>, max: nat, ghost place: map<BackendList, Address>,
                  ghost downloads: set<Http>, t: Tables, h: Http, address: Address, dial: Dial)
    returns (ghost list: BackendList, r: Tables)
    requires Sound(all, place, max, t) && Kept(all, downloads, t) && max > 0 && h in downloads && h !in t.home
    requires address !in t.table
    modifies downloads
    ensures Sound(all + {list}, place[list := address], max, r) && Kept(all + {list}, downloads, r)
    ensures fresh(list) && fresh(list.backends)
    ensures forall l :: l in all ==> unchanged(l)
    ensures list in Now(all + {list}, r).lists && Opened(old(Now(all, t)), Now(all + {list}, r), list, h, address, dial)
  {
    hide AllValid, Apart, InTable, Concerns, Homes, Sound, Opened, BackendList.Shown;
    var first, u := Open(all, max, place, t, h, address, dial);
    list, r := first, u;
  }

  // One callback of the event loop. A callback for nobody is skipped, a download is connected once.
  method Step(ghost all: set<BackendList>, max: nat, ghost place: map<BackendList, Address>,
              downloads: set<Http>, t: Tables, e: Event<nat>)
    returns (ghost lists: set<BackendList>, ghost places: map<BackendList, Address>, r: Tables)
    requires Sound(all, place, max, t) && max > 0 && Kept(all, downloads, t)
    modifies all, set l, b | l in all && b in l.backends :: b
    modifies downloads
    ensures Sound(lists, places, max, r) && Kept(lists, downloads, r)
    ensures all <= lists && fresh(lists - all)
    ensures forall l :: l in all ==> fresh(l.backends - old(l.backends))
    ensures forall l :: l in lists - all ==> fresh(l.backends)
    ensures StepsTo(max, downloads, old(Now(all, t)), Now(lists, r), e)
  {
    hide AllValid, Apart, InTable, Concerns, Homes, Sound, Numbered, Kept, Acted, Opened, Now, Resolve;
    lists, places, r := all, place, t;
    NowKnows(all, t);
    ResolveConcerns(all, place, max, downloads, t, e);
    match Resolve(t, downloads, e) {
      case Nobody =>
      case At(list, call) => r := StepKnown(all, max, place, downloads, t, list, call);
      case Opening(h, address, dial) =>
        ghost var list;
        list, r := StepOpen(all, max, place, downloads, t, h, address, dial);
        lists, places := all + {list}, place[list := address];
    }
  }

  // Whatever connection is busy or idle, callbacks can name it.
  lemma EveryoneNamed(all: set<BackendList>, t: Tables, downloads: set<Http>, list: BackendList, b: Backend) returns (n: nat)
    requires Numbered(all, t) && list in all && b in list.busy + list.idle
    ensures forall dial :: Resolve(t, downloads, SocketClosed(n, dial)) == At(list, SocketClosed(b, dial))
    ensures forall expired, dial ::
      Resolve(t, downloads, BackendTimeout(n, expired, dial)) == At(list, BackendTimeout(b, expired, dial))
    ensures Resolve(t, downloads, Delete(n)) == At(list, Delete(b))
  {
    assert t.owner[b] == list && b in t.seen;
    n :| 0 <= n < |t.seen| && t.seen[n] == b;
  }

  // A callback of a run that leaves a list with a download waiting for nobody.
  ghost predicate StrandsAt(s: Snapshot, downloads: set<Http>, e: Event<nat>) {
    match Resolve(s.tables, downloads, e)
    case At(list, call) => list in s.lists && StrandsIn(s.lists[list], call)
    case _ => false
  }

  ghost predicate SomeStranded(s: Snapshot) {
    exists l :: l in s.lists && s.lists[l].Stranded()
  }

  // What a run went through: every snapshot follows from the one before by its callback.
  ghost predicate Traced(max: nat, downloads: set<Http>, events: seq<Event<nat>>, trace: seq<Snapshot>) {
    && |trace| == |events| + 1 && trace[0] == Snapshot(Tables(map[], map[], map[], []), map[])
    && forall i :: 0 <= i < |events| ==> StepsTo(max, downloads, trace[i], trace[i + 1], events[i])
  }

  // As long as no callback strands, no list is stranded; and the first that does strands its list.
  lemma {:induction false} NobodyStranded(max: nat, downloads: set<Http>, events: seq<Event<nat>>, trace: seq<Snapshot>, n: nat)
    requires Traced(max, downloads, events, trace) && n <= |events|
    requires forall i :: 0 <= i < n ==> !StrandsAt(trace[i], downloads, events[i])
    ensures !SomeStranded(trace[n])
    ensures n < |events| ==> (SomeStranded(trace[n + 1]) <==> StrandsAt(trace[n], downloads, events[n]))
  {
    hide View.Stranded, StrandsIn, Effect;
    if n > 0 {
      NobodyStranded(max, downloads, events, trace, n - 1);
    }
    if n < |events| {
      StrandsOnce(max, downloads, trace[n], trace[n + 1], events[n]);
    }
  }

  lemma StrandsOnce(max: nat, downloads: set<Http>, s: Snapshot, r: Snapshot, e: Event<nat>)
    requires StepsTo(max, downloads, s, r, e) && !SomeStranded(s)
    ensures SomeStranded(r) <==> StrandsAt(s, downloads, e)
  {
    hide StrandsIn, Effect, View.Any;
    match Resolve(s.tables, downloads, e) {
      case Nobody =>
      case At(list, call) =>
        assert !s.lists[list].Stranded();
        assert r.lists[list].Stranded() ==> SomeStranded(r);
      case Opening(h, address, dial) =>
        var list :| list in r.lists && Opened(s, r, list, h, address, dial);
        NothingWaits(r.lists[list]);
    }
  }

  lemma NothingWaits(v: View)
    requires v.pending == []
    ensures !v.Stranded()
  {
  }

  // An address never loses its list, also when the list owns no connection any more.
  lemma {:induction false} ListsStay(max: nat, downloads: set<Http>, events: seq<Event<nat>>, trace: seq<Snapshot>, i: nat, j: nat)
    requires Traced(max, downloads, events, trace) && i <= j <= |events|
    ensures forall a :: a in trace[i].tables.table ==>
      a in trace[j].tables.table && trace[j].tables.table[a] == trace[i].tables.table[a]
    ensures trace[i].lists.Keys <= trace[j].lists.Keys
    ensures |trace[i].tables.seen| <= |trace[j].tables.seen| &&
      trace[j].tables.seen[..|trace[i].tables.seen|] == trace[i].tables.seen
  {
    hide StepsTo;
    if i < j {
      ListsStay(max, downloads, events, trace, i, j - 1);
      StepStays(max, downloads, trace[j - 1], trace[j], events[j - 1]);
    }
  }

  lemma OpeningNew(t: Tables, downloads: set<Http>, e: Event<nat>)
    ensures Resolve(t, downloads, e).Opening? ==> Resolve(t, downloads, e).address !in t.table
  {
  }

  lemma StepStays(max: nat, downloads: set<Http>, s: Snapshot, r: Snapshot, e: Event<nat>)
    requires StepsTo(max, downloads, s, r, e)
    ensures forall a :: a in s.tables.table ==> a in r.tables.table && r.tables.table[a] == s.tables.table[a]
    ensures s.lists.Keys <= r.lists.Keys
    ensures |s.tables.seen| <= |r.tables.seen| && r.tables.seen[..|s.tables.seen|] == s.tables.seen
  {
    hide Moves, Newcomers, Resolve;
    OpeningNew(s.tables, downloads, e);
    match Resolve(s.tables, downloads, e) {
      case Nobody =>
      case At(list, call) => assert Acted(max, s, r, list, call);
      case Opening(h, address, dial) =>
        var list :| list in r.lists && Opened(s, r, list, h, address, dial);
    }
  }

  // Any run of callbacks from the program's start, where no address has a list: every list ever
  // made is valid afterwards, no two share a connection or a download, and an address has one
  // registered list at most, which it keeps. The run went through a trace of snapshots, and ready
  // downloads are left waiting for nobody only when a callback of the run strands them.
  method Run(max: nat, downloads: set<Http>, events: seq<Event<nat>>)
    returns (t: Tables, ghost all: set<BackendList>, ghost place: map<BackendList, Address>, ghost trace: seq<Snapshot>)
    requires max > 0 && forall h :: h in downloads ==> h.backend == null && h.backendList == null
    modifies downloads
    ensures AllValid(all, max) && Apart(all) && InTable(all, place, t.table)
    ensures Homes(all, t.home, t.owner) && Numbered(all, t)
    ensures forall h :: h in downloads && h !in t.home ==> h.backend == null
    ensures Traced(max, downloads, events, trace) && trace[|events|] == Now(all, t)
    ensures (forall i :: 0 <= i < |events| ==> !StrandsAt(trace[i], downloads, events[i])) ==>
      forall l :: l in all ==> !l.Stranded()
  {
    hide AllValid, Apart, InTable, Homes, Numbered, StepsTo, StrandsAt, BackendList.Stranded;
    t, all, place := Tables(map[], map[], map[], []), {}, map[];
    Nothing(max);
    trace := [Now(all, t)];
    var i := 0;
    while i < |events|
      invariant i <= |events| && Sound(all, place, max, t) && Kept(all, downloads, t)
      invariant fresh(all) && forall l :: l in all ==> fresh(l.backends)
      invariant |trace| == i + 1 && trace[0] == Snapshot(Tables(map[], map[], map[], []), map[]) && trace[i] == Now(all, t)
      invariant forall k :: 0 <= k < i ==> StepsTo(max, downloads, trace[k], trace[k + 1], events[k])
    {
      all, place, t := Step(all, max, place, downloads, t, events[i]);
      trace := trace + [Now(all, t)];
      i := i + 1;
    }
    if forall k :: 0 <= k < |events| ==> !StrandsAt(trace[k], downloads, events[k]) {
      NobodyStranded(max, downloads, events, trace, |events|);
      AllShown(all, max, t);
    }
  }

  lemma AllShown(all: set<BackendList>, max: nat, t: Tables)
    requires AllValid(all, max)
    ensures forall l :: l in all ==> (l.Stranded() <==> Now(all, t).lists[l].Stranded())
  {
    hide BackendList.Stranded, View.Stranded, BackendList.Valid;
    forall l | l in all ensures l.Stranded() <==> l.Shown().Stranded() {
      l.StrandedShown();
    }
  }

  // ---------------------------------------------------------------- downloads that wait for nobody

  // One connection allowed: it carries a first download, and others wait that are ready.
  method Saturated(waiting: nat) returns (list: BackendList, b: Backend)
    ensures list.Valid() && list.maxBackend == 1 && list.busy == [b] && list.idle == [] && b in list.backends
    ensures b.http != null && b.open && !b.wasTCPConnected && b.http in list.https
    ensures |list.pending| == waiting && forall h :: h in list.pending ==> h.Ready()
    ensures fresh(list) && fresh(list.backends) && fresh(list.https)
  {
    hide Without, NoDup, Allocated, EveryOther, BackendList.Valid, AnyReady;
    list := new BackendList(1);
    var h := new Http([0]);
    list.Enroll(h);
    var c, ok := list.Register(h, Connecting);
    b := c;
    list.Members();
    var i := 0;
    while i < waiting
      invariant i <= waiting && list.Valid() && list.registered && list.busy == [b] && list.idle == [] && |list.pending| == i
      invariant b in list.backends && b.http != null && b.open && !b.wasTCPConnected && b.http in list.https
      invariant list.maxBackend == 1 && forall h :: h in list.pending ==> h.Ready()
      invariant fresh(list.backends) && fresh(list.https)
    {
      Queue(list, i + 1);
      i := i + 1;
    }
  }

  // Another download of the address, for one client, while no connection is free.
  method Queue(list: BackendList, client: nat)
    requires list.Valid() && list.registered && list.idle == [] && |list.busy| >= list.maxBackend
    modifies list
    ensures list.Valid() && list.registered && list.busy == old(list.busy) && list.idle == []
    ensures list.backends >= old(list.backends) && fresh(list.backends - old(list.backends))
    ensures |list.pending| == |old(list.pending)| + 1 && list.pending[..|old(list.pending)|] == old(list.pending)
    ensures list.pending[|old(list.pending)|].Ready() && fresh(list.https - old(list.https)) && old(list.https) <= list.https
  {
    hide Without, NoDup, Allocated, EveryOther, BackendList.Valid, AnyReady;
    var g := new Http([client]);
    var ok := g.TryConnectInternal(list, Connecting);
  }

  // The loss of a connection that has not answered drops the first of two waiting downloads,
  // and the second waits for nobody.
  method StrandedUnanswered() returns (list: BackendList)
    ensures list.Valid() && list.Stranded() && |list.pending| == 1
  {
    hide Without, NoDup, Allocated, BackendList.Valid;
    var b: Backend;
    list, b := Saturated(2);
    EveryOtherAt(list.pending);
    assert list.pending[1] in list.pending && list.pending[2 * 0 + 1].Ready();
    list.ValidIsSound(b);
    b.RemoteSocketClosed(list, NoSocket);
  }

  // One that has answered is dialled again; when that fails, nobody is dropped.
  method StrandedRedial() returns (list: BackendList)
    ensures list.Valid() && list.Stranded() && |list.pending| == 1
  {
    hide Without, NoDup, Allocated, BackendList.Valid;
    var b: Backend;
    list, b := Saturated(1);
    list.Answered(b);
    assert list.pending[0] in list.pending;
    list.ValidIsSound(b);
    b.RemoteSocketClosed(list, NoSocket);
  }

  // ---------------------------------------------------------------- runs that leave a download waiting for nobody

  // One list with one connection, number 0, which carries the download h.
  ghost predicate Single(s: Snapshot, list: BackendList, b: Backend, h: Http) {
    && s.tables.table == map[0 := list] && s.tables.owner == map[b := list] && s.tables.seen == [b]
    && h in s.tables.home && s.tables.home[h] == list && s.lists.Keys == {list}
    && var v := s.lists[list];
    v.registered && v.busy == [b] && v.idle == [] && h in v.links && v.links[h].backend == b
  }

  lemma FirstConnected(max: nat, downloads: set<Http>, h: Http, r: Snapshot) returns (list: BackendList, b: Backend)
    requires h in downloads
    requires StepsTo(max, downloads, Snapshot(Tables(map[], map[], map[], []), map[]), r, Connect(h, 0, Connecting))
    ensures Single(r, list, b, h) && r.tables.home.Keys == {h} && r.lists[list].pending == [] && r.lists[list].answered == {}
    ensures r.lists[list].links.Keys == {h}
  {
    list :| list in r.lists && Opened(Snapshot(Tables(map[], map[], map[], []), map[]), r, list, h, 0, Connecting);
    b := r.lists[list].links[h].backend;
    assert r.lists[list].busy + r.lists[list].idle == [b];
    assert Newcomers([b], []) == [b];
  }

  // A callback that makes no connection busy leaves the numbers as they are.
  lemma StaysSingle(max: nat, s: Snapshot, r: Snapshot, list: BackendList, b: Backend, h: Http, call: Event<Backend>)
    requires Single(s, list, b, h) && Acted(max, s, r, list, call) && !call.Delete?
    requires r.lists[list].busy == [b] && r.lists[list].idle == []
    requires h in r.lists[list].links && r.lists[list].links[h].backend == b
    requires call.Connect? ==> call.h != h
    ensures Single(r, list, b, h) && r.tables.home == s.tables.After(list, call).home
  {
    hide Effect, View.Stranded, StrandsIn;
    assert r.lists[list].busy + r.lists[list].idle == [b];
    assert Newcomers([b], [b]) == [];
  }

  lemma Answers(max: nat, downloads: set<Http>, s: Snapshot, r: Snapshot, list: BackendList, b: Backend, h: Http)
    requires Single(s, list, b, h) && StepsTo(max, downloads, s, r, Status(h, 200))
    ensures Single(r, list, b, h) && r.tables.home == s.tables.home
    ensures r.lists[list] == s.lists[list].(answered := s.lists[list].answered + {b})
  {
    hide View.Stranded, StrandsIn;
    assert r.lists[list] == s.lists[list].Answering(h);
    StaysSingle(max, s, r, list, b, h, Status(h, 200));
  }

  // With one connection allowed, a second download waits.
  lemma Waits(downloads: set<Http>, s: Snapshot, r: Snapshot, list: BackendList, b: Backend, h: Http, g: Http)
    requires Single(s, list, b, h) && StepsTo(1, downloads, s, r, Connect(g, 0, Connecting))
    requires g in downloads && g !in s.tables.home && h != g
    ensures Single(r, list, b, h) && r.tables.home == s.tables.home[g := list]
    ensures var v, w := s.lists[list], r.lists[list];
      w.pending == v.pending + [g] && w.answered == v.answered && g in w.links && w.links[g].alive
  {
    hide View.Stranded, StrandsIn;
    StaysSingle(1, s, r, list, b, h, Connect(g, 0, Connecting));
  }

  lemma Joins(max: nat, downloads: set<Http>, s: Snapshot, r: Snapshot, list: BackendList, b: Backend, h: Http, g: Http)
    requires Single(s, list, b, h) && StepsTo(max, downloads, s, r, Join(g, 7))
    requires g in s.tables.home && s.tables.home[g] == list && h != g && g in s.lists[list].links && s.lists[list].links[g].alive
    ensures Single(r, list, b, h) && r.tables.home == s.tables.home
    ensures var v, w := s.lists[list], r.lists[list];
      w.pending == v.pending && w.answered == v.answered && g in w.links && w.links[g].Ready()
  {
    hide View.Stranded, StrandsIn;
    StaysSingle(max, s, r, list, b, h, Join(g, 7));
  }

  lemma Lost(max: nat, downloads: set<Http>, s: Snapshot, r: Snapshot, list: BackendList, b: Backend, h: Http, g: Http)
    requires Single(s, list, b, h) && StepsTo(max, downloads, s, r, SocketClosed(0, NoSocket))
    requires var v := s.lists[list]; v.pending == [g] && v.answered == {b} && g in v.links && v.links[g].Ready()
    ensures r.tables.table == map[0 := list] && r.lists.Keys == {list}
    ensures r.lists[list].Stranded() && r.lists[list].pending == [g]
  {
    hide Relinked;
    assert Without([b], b) == [];
    assert s.lists[list].ReadyAt(0);
    assert Acted(max, s, r, list, SocketClosed(b, NoSocket));
  }

  lemma RedialTrace(downloads: set<Http>, h: Http, g: Http, events: seq<Event<nat>>, trace: seq<Snapshot>)
    requires h != g && h in downloads && g in downloads && Traced(1, downloads, events, trace)
    requires events == RedialEvents(h, g)
    ensures var t := trace[5].tables;
      0 in t.table && t.table[0] in trace[5].lists &&
      trace[5].lists[t.table[0]].Stranded() && trace[5].lists[t.table[0]].pending == [g]
  {
    hide StepsTo, Single, View.Stranded, Link.Ready;
    assert forall i :: 0 <= i < 5 ==> StepsTo(1, downloads, trace[i], trace[i + 1], events[i]);
    var list, b := FirstConnected(1, downloads, h, trace[1]);
    SingleHas(trace[1], list, b, h);
    Answers(1, downloads, trace[1], trace[2], list, b, h);
    SingleHas(trace[2], list, b, h);
    Waits(downloads, trace[2], trace[3], list, b, h, g);
    SingleHas(trace[3], list, b, h);
    Joins(1, downloads, trace[3], trace[4], list, b, h, g);
    SingleHas(trace[4], list, b, h);
    Lost(1, downloads, trace[4], trace[5], list, b, h, g);
  }

  lemma SingleHas(s: Snapshot, list: BackendList, b: Backend, h: Http)
    requires Single(s, list, b, h)
    ensures list in s.lists && h in s.tables.home
  {
  }

  function RedialEvents(h: Http, g: Http): seq<Event<nat>> {
    [Connect(h, 0, Connecting), Status(h, 200), Connect(g, 0, Connecting), Join(g, 7), SocketClosed(0, NoSocket)]
  }

  lemma Among(all: set<BackendList>, max: nat, place: map<BackendList, Address>, t: Tables, a: Address)
    requires AllValid(all, max) && InTable(all, place, t.table) && a in t.table
    ensures t.table[a] in all && t.table[a].Valid() && t.table[a].registered
  {
  }

  // The program's run that StrandedRedial ends.
  method RunToRedial() returns (list: BackendList)
    ensures list.Valid() && list.registered && list.Stranded() && |list.pending| == 1
  {
    hide BackendList.Valid, BackendList.Stranded, View.Stranded, StepsTo, AllValid, InTable, Homes, Numbered, Apart, Traced;
    var h := new Http([]);
    var g := new Http([]);
    var events := RedialEvents(h, g);
    ghost var all, place, trace;
    var t;
    t, all, place, trace := Run(1, {h, g}, events);
    RedialTrace({h, g}, h, g, events, trace);
    AllShown(all, 1, t);
    list := t.table[0];
    Among(all, 1, place, t, 0);
  }

  // The lost connection's download is carried by a new one, number 1.
  lemma Redialled(max: nat, downloads: set<Http>, s: Snapshot, r: Snapshot, list: BackendList, b: Backend, h: Http)
    returns (c: Backend)
    requires Single(s, list, b, h) && s.lists[list].answered == {b}
    requires StepsTo(max, downloads, s, r, SocketClosed(0, Connecting))
    ensures c != b && r.tables.table == map[0 := list] && r.tables.seen == [b, c] && r.tables.owner == map[b := list, c := list]
    ensures r.lists.Keys == {list}
    ensures var w := r.lists[list]; w.registered && w.busy == [c] && w.idle == [] && h in w.links && w.links[h].backend == c
  {
    hide Moves, Acted, StepsTo, Newcomers;
    var call := SocketClosed(b, Connecting);
    assert Acted(max, s, r, list, call) by { LossActs(max, downloads, s, r, list, b); }
    c := RedialledView(max, s, r, list, b, h);
    NotedNew(s.tables, list, b, c);
  }

  lemma LossActs(max: nat, downloads: set<Http>, s: Snapshot, r: Snapshot, list: BackendList, b: Backend)
    requires s.tables.seen != [] && s.tables.seen[0] == b && b in s.tables.owner && s.tables.owner[b] == list
    requires StepsTo(max, downloads, s, r, SocketClosed(0, Connecting))
    ensures Acted(max, s, r, list, SocketClosed(b, Connecting))
  {
    hide Acted;
  }

  lemma RedialledView(max: nat, s: Snapshot, r: Snapshot, list: BackendList, b: Backend, h: Http) returns (c: Backend)
    requires Acted(max, s, r, list, SocketClosed(b, Connecting)) && s.lists.Keys == {list}
    requires var v := s.lists[list];
      v.registered && v.busy == [b] && v.idle == [] && v.answered == {b} && h in v.links && v.links[h].backend == b
    ensures c != b && r.lists.Keys == {list} && r.tables == s.tables.Noted(list, [c])
    ensures var w := r.lists[list]; w.registered && w.busy == [c] && w.idle == [] && h in w.links && w.links[h].backend == c
  {
    hide View.Stranded, StrandsIn, Newcomers;
    var w := r.lists[list];
    assert HandsOver(s.lists[list], w, b, Connecting);
    c := w.busy[|w.busy| - 1];
    assert Without([b], b) == [] && [] + [c] == [c];
    assert w.busy + w.idle == [c];
  }

  lemma NotedNew(t: Tables, list: BackendList, b: Backend, c: Backend)
    requires b != c && t.owner == map[b := list] && t.seen == [b]
    ensures t.Noted(list, [c]) == t.(owner := map[b := list, c := list], seen := [b, c])
  {
    assert Newcomers([c], [b]) == [c];
  }

  lemma DeletedOther(max: nat, v: View, w: View, b: Backend, c: Backend, h: Http)
    requires Moves(max, v, w, Delete(b)) && b != c
    requires v.registered && v.busy == [c] && v.idle == [] && h in v.links && v.links[h].backend == c
    ensures w.registered && w.busy == [c] && w.idle == [] && h in w.links && w.links[h].backend == c
  {
    hide View.Stranded, StrandsIn;
    WithoutAbsent([c], b);
  }

  lemma DeleteActs(max: nat, downloads: set<Http>, s: Snapshot, r: Snapshot, list: BackendList, b: Backend)
    requires s.tables.seen != [] && s.tables.seen[0] == b && b in s.tables.owner && s.tables.owner[b] == list
    requires StepsTo(max, downloads, s, r, Delete(0))
    ensures Acted(max, s, r, list, Delete(b))
  {
    hide Acted;
  }

  lemma NotedAgain(t: Tables, list: BackendList, b: Backend, c: Backend)
    requires b != c && t.owner == map[b := list, c := list] && t.seen == [b, c]
    ensures t.After(list, Delete(b)).Noted(list, [c]) == t.(owner := map[c := list])
  {
    assert Newcomers([c], [b, c]) == [];
    assert t.owner - {b} == map[c := list];
  }

  lemma Deleted(max: nat, downloads: set<Http>, s: Snapshot, r: Snapshot, list: BackendList, b: Backend, c: Backend, h: Http)
    requires c != b && s.tables.table == map[0 := list] && s.tables.seen == [b, c] && s.tables.owner == map[b := list, c := list]
    requires s.lists.Keys == {list}
    requires var v := s.lists[list]; v.registered && v.busy == [c] && v.idle == [] && h in v.links && v.links[h].backend == c
    requires StepsTo(max, downloads, s, r, Delete(0))
    ensures r.tables.table == map[0 := list] && r.tables.seen == [b, c] && r.tables.owner == map[c := list]
    ensures r.lists.Keys == {list}
    ensures var w := r.lists[list]; w.registered && w.busy == [c] && w.idle == [] && h in w.links && w.links[h].backend == c
  {
    hide Moves, Newcomers, Opened, StepsTo;
    assert Acted(max, s, r, list, Delete(b)) by { DeleteActs(max, downloads, s, r, list, b); }
    DeletedOther(max, s.lists[list], r.lists[list], b, c, h);
    assert r.lists[list].busy + r.lists[list].idle == [c];
    NotedAgain(s.tables, list, b, c);
  }

  function RenewEvents(h: Http): seq<Event<nat>> {
    [Connect(h, 0, Connecting), Status(h, 200), SocketClosed(0, Connecting), Delete(0)]
  }

  lemma RenewTrace(downloads: set<Http>, h: Http, events: seq<Event<nat>>, trace: seq<Snapshot>)
    requires h in downloads && Traced(1, downloads, events, trace) && events == RenewEvents(h)
    ensures var t := trace[4].tables;
      0 in t.table && |t.seen| == 2 && t.seen[0] !in t.owner && t.seen[1] in t.owner && t.table[0] in trace[4].lists
    ensures var list := trace[4].lists[trace[4].tables.table[0]]; var c := trace[4].tables.seen[1];
      list.busy == [c] && h in list.links && list.links[h].backend == c
  {
    hide StepsTo, Single, View.Stranded;
    assert forall i :: 0 <= i < 4 ==> StepsTo(1, downloads, trace[i], trace[i + 1], events[i]);
    var list, b := FirstConnected(1, downloads, h, trace[1]);
    SingleHas(trace[1], list, b, h);
    Answers(1, downloads, trace[1], trace[2], list, b, h);
    SingleHas(trace[2], list, b, h);
    var c := Redialled(1, downloads, trace[2], trace[3], list, b, h);
    Deleted(1, downloads, trace[3], trace[4], list, b, c, h);
  }

  // A run in which a connection is lost and deleted: a second one carries its download.
  method RunToRenewed() returns (t: Tables, h: Http)
    ensures |t.seen| == 2 && t.seen[0] !in t.owner && t.seen[1] in t.owner && 0 in t.table
    ensures t.table[0].busy == [t.seen[1]] && h.backend == t.seen[1]
  {
    hide BackendList.Valid, View.Stranded, StepsTo, InTable, Homes, Numbered, Apart, AllValid, Traced;
    h := new Http([]);
    var events := RenewEvents(h);
    ghost var all, place, trace;
    t, all, place, trace := Run(1, {h}, events);
    RenewTrace({h}, h, events, trace);
  }
}

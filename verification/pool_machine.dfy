/** The thread pool as a state machine: one step per critical section, in any interleaving of workers
    and clients. The queue appears as the sequence of its jobs; `pool.dfy` shows that the circular
    buffer implements it. */
module PoolMachine {

  /** A job is a function and an opaque argument. */
  datatype Job = Job(code: nat, argument: nat)

  /** Awake: about to take the lock. Waiting: asleep on `queuePopCond`. */
  datatype Worker = Awake | Waiting | Running(job: Job) | Exited

  /** A client inside `POOL_add`: about to check the queue, or asleep on `queuePushCond`, or done. */
  datatype Pusher = Active(job: Job) | Blocked(job: Job) | Returned

  /** How far `POOL_join` has come. */
  datatype Stage = Open | ShutDown | PushersCalled | WorkersCalled

  datatype State = State(
    queueSize: nat, queued: seq<Job>,
    busy: nat, limit: nat,
    workers: seq<Worker>, pushers: seq<Pusher>, stage: Stage,
    accepted: seq<Job>,      // every job taken into the queue, in order
    popped: seq<Job>,        // every job taken out of it, in order
    finished: multiset<Job>  // every job that has run
  )

  ghost predicate IsShutDown(s: State)
  {
    s.stage != Open
  }

  ghost predicate IsFull(s: State)
  {
    if s.queueSize > 1 then |s.queued| == s.queueSize - 1 else s.busy == s.limit || s.queued != []
  }

  // ----- condition variables -----

  /** Threads only ever pass from asleep to awake. */
  ghost predicate WorkersWoken(ws: seq<Worker>, ws': seq<Worker>)
  {
    |ws'| == |ws| && forall i :: 0 <= i < |ws| ==> ws'[i] == ws[i] || (ws[i] == Waiting && ws'[i] == Awake)
  }

  ghost predicate PushersWoken(ps: seq<Pusher>, ps': seq<Pusher>)
  {
    |ps'| == |ps| && forall i :: 0 <= i < |ps| ==> ps'[i] == ps[i] || (ps[i].Blocked? && ps'[i] == Active(ps[i].job))
  }

  /** A signal wakes at least one sleeper if there is one. */
  ghost predicate WorkerSignal(ws: seq<Worker>, ws': seq<Worker>)
  {
    WorkersWoken(ws, ws') && (Waiting in ws ==> exists i :: 0 <= i < |ws| && ws[i] == Waiting && ws'[i] == Awake)
  }

  ghost predicate PusherSignal(ps: seq<Pusher>, ps': seq<Pusher>)
  {
    PushersWoken(ps, ps') && (AnyBlocked(ps) ==> exists i :: 0 <= i < |ps| && ps[i].Blocked? && ps'[i].Active?)
  }

  ghost predicate AnyBlocked(ps: seq<Pusher>)
  {
    exists i :: 0 <= i < |ps| && ps[i].Blocked?
  }

  ghost predicate WorkerBroadcast(ws: seq<Worker>, ws': seq<Worker>)
  {
    WorkersWoken(ws, ws') && Waiting !in ws'
  }

  ghost predicate PusherBroadcast(ps: seq<Pusher>, ps': seq<Pusher>)
  {
    PushersWoken(ps, ps') && !AnyBlocked(ps')
  }

  // ----- steps -----

  datatype Step =
    | Check(w: nat)          // a worker's pass through the loop head: pop, sleep or exit
    | Finish(w: nat)         // a worker comes back from its job
    | Call(job: Job)         // a client enters POOL_add
    | Add(p: nat)            // a client's pass through the loop of POOL_add: queue, sleep or give up
    | TryAdd(job: Job)
    | Resize(n: nat, gotMemory: bool, created: nat)
    | SetShutDown
    | CallPushers
    | CallWorkers
    | Spurious

  ghost predicate CheckStep(s: State, s': State, w: nat)
  {
    && w < |s.workers| && s.workers[w] == Awake
    && if s.queued == [] || s.busy >= s.limit then
         s' == s.(workers := s.workers[w := if IsShutDown(s) then Exited else Waiting])
       else
         && PusherSignal(s.pushers, s'.pushers)
         && s' == s.(queued := s.queued[1..], busy := s.busy + 1, pushers := s'.pushers,
                     workers := s.workers[w := Running(s.queued[0])], popped := s.popped + [s.queued[0]])
  }

  ghost predicate FinishStep(s: State, s': State, w: nat)
  {
    && w < |s.workers| && s.workers[w].Running? && s.busy > 0
    && (if s.queueSize == 1 then PusherSignal(s.pushers, s'.pushers) else s'.pushers == s.pushers)
    && s' == s.(busy := s.busy - 1, workers := s.workers[w := Awake], pushers := s'.pushers,
                finished := s.finished + multiset{s.workers[w].job})
  }

  /** `POOL_add_internal`: a job offered after shutdown is dropped. */
  ghost predicate Enqueue(s: State, s': State, job: Job, pushers': seq<Pusher>)
  {
    if IsShutDown(s) then s' == s.(pushers := pushers')
    else
      && WorkerSignal(s.workers, s'.workers)
      && s' == s.(queued := s.queued + [job], accepted := s.accepted + [job], workers := s'.workers, pushers := pushers')
  }

  ghost predicate AddStep(s: State, s': State, p: nat)
  {
    && p < |s.pushers| && s.pushers[p].Active?
    && var job := s.pushers[p].job;
       if IsFull(s) && !IsShutDown(s) then s' == s.(pushers := s.pushers[p := Blocked(job)])
       else Enqueue(s, s', job, s.pushers[p := Returned])
  }

  ghost predicate TryAddStep(s: State, s': State, job: Job)
  {
    if IsFull(s) then s' == s else Enqueue(s, s', job, s.pushers)
  }

  /** `POOL_resize`: shrinking only lowers the limit; growing starts `created` threads, and raises the
      limit only if all of them started. Every outcome ends with a broadcast. */
  ghost predicate ResizeStep(s: State, s': State, n: nat, gotMemory: bool, created: nat)
  {
    if n <= |s.workers| then
      WorkerBroadcast(s.workers, s'.workers) && s' == s.(limit := if n == 0 then s.limit else n, workers := s'.workers)
    else if !gotMemory then
      WorkerBroadcast(s.workers, s'.workers) && s' == s.(workers := s'.workers)
    else
      && created <= n - |s.workers|
      && WorkerBroadcast(s.workers + seq(created, _ => Awake), s'.workers)
      && s' == s.(limit := if created == n - |s.workers| then n else s.limit, workers := s'.workers)
  }

  ghost predicate Next(s: State, s': State, step: Step)
  {
    match step
    case Check(w) => CheckStep(s, s', w)
    case Finish(w) => FinishStep(s, s', w)
    case Call(job) => s' == s.(pushers := s.pushers + [Active(job)])
    case Add(p) => AddStep(s, s', p)
    case TryAdd(job) => TryAddStep(s, s', job)
    case Resize(n, gotMemory, created) => ResizeStep(s, s', n, gotMemory, created)
    case SetShutDown => s.stage == Open && s' == s.(stage := ShutDown)
    case CallPushers =>
      s.stage == ShutDown && PusherBroadcast(s.pushers, s'.pushers)
      && s' == s.(pushers := s'.pushers, stage := PushersCalled)
    case CallWorkers =>
      s.stage == PushersCalled && WorkerBroadcast(s.workers, s'.workers)
      && s' == s.(workers := s'.workers, stage := WorkersCalled)
    case Spurious =>
      WorkersWoken(s.workers, s'.workers) && PushersWoken(s.pushers, s'.pushers)
      && s' == s.(workers := s'.workers, pushers := s'.pushers)
  }

  /** After `POOL_create`: the new threads may already have looked at the empty queue and gone to sleep. */
  ghost predicate Init(s: State, numThreads: nat, queueSize: nat)
  {
    && numThreads > 0 && |s.workers| == numThreads && s.limit == numThreads
    && (forall i :: 0 <= i < |s.workers| ==> s.workers[i] == Awake || s.workers[i] == Waiting)
    && s.queueSize == queueSize + 1 && s.queued == [] && s.busy == 0
    && s.pushers == [] && s.stage == Open && s.accepted == [] && s.popped == [] && s.finished == multiset{}
  }

  // ----- what every reachable state keeps -----

  /** The jobs being run, one per running worker. */
  ghost function InHand(ws: seq<Worker>): multiset<Job>
  {
    if ws == [] then multiset{}
    else InHand(ws[..|ws| - 1]) + Holds(ws[|ws| - 1])
  }

  ghost function CountActive(ps: seq<Pusher>): nat
  {
    if ps == [] then 0 else CountActive(ps[..|ps| - 1]) + if ps[|ps| - 1].Active? then 1 else 0
  }

  /** A worker that will act without being woken. */
  ghost predicate AnyLive(ws: seq<Worker>)
  {
    exists i :: 0 <= i < |ws| && (ws[i] == Awake || ws[i].Running?)
  }

  ghost predicate Fifo(s: State)
  {
    && s.queueSize >= 1
    && s.accepted == s.popped + s.queued
    && |s.queued| <= (if s.queueSize == 1 then 1 else s.queueSize - 1)
  }

  ghost predicate RunOnce(s: State)
  {
    && s.busy == |InHand(s.workers)|
    && multiset(s.popped) == s.finished + InHand(s.workers)
  }

  ghost predicate NoStrandedWork(s: State)
  {
    && 1 <= s.limit <= |s.workers|
    && (s.queued != [] ==> AnyLive(s.workers))
    && (Exited in s.workers ==> IsShutDown(s))
    && (s.stage == WorkersCalled ==> Waiting !in s.workers)
  }

  /** While the pool is open, sleeping clients are never left behind free room: as many clients are
      awake as there are free places, or, without a queue, a job is there or running. */
  ghost predicate NoStrandedPusher(s: State)
  {
    && (AnyBlocked(s.pushers) && !IsShutDown(s) ==>
          if s.queueSize > 1 then s.queueSize - 1 - |s.queued| <= CountActive(s.pushers)
          else CountActive(s.pushers) > 0 || s.queued != [] || s.busy > 0)
    && (s.stage == PushersCalled || s.stage == WorkersCalled ==> !AnyBlocked(s.pushers))
  }

  ghost predicate Inv(s: State)
  {
    Fifo(s) && RunOnce(s) && NoStrandedWork(s) && NoStrandedPusher(s)
  }

  // ----- bookkeeping lemmas -----

  /** What one worker has in hand. */
  ghost function Holds(w: Worker): multiset<Job>
  {
    if w.Running? then multiset{w.job} else multiset{}
  }

  lemma Regroup(a: multiset<Job>, b: multiset<Job>, c: multiset<Job>, d: multiset<Job>, e: multiset<Job>)
    requires a + b == c + d
    ensures (a + e) + b == (c + e) + d
  {
    assert (a + e) + b == (a + b) + e;
  }

  lemma {:induction false} InHandUpdate(ws: seq<Worker>, i: nat, w: Worker)
    requires i < |ws|
    ensures InHand(ws[i := w]) + Holds(ws[i]) == InHand(ws) + Holds(w)
    decreases |ws|
  {
    hide Holds;
    var l := |ws| - 1;
    var init, u := ws[..l], ws[i := w];
    if i < l {
      InHandUpdate(init, i, w);
      assert u[..l] == init[i := w] && u[l] == ws[l];
      Regroup(InHand(init[i := w]), Holds(ws[i]), InHand(init), Holds(w), Holds(ws[l]));
    } else {
      assert u[..l] == init && u[l] == w;
      Regroup(multiset{}, InHand(init), InHand(init), multiset{}, Holds(w));
      assert InHand(u) == InHand(init) + Holds(w) && InHand(ws) == InHand(init) + Holds(ws[l]);
    }
  }

  lemma {:induction false} InHandWoken(ws: seq<Worker>, ws': seq<Worker>)
    requires WorkersWoken(ws, ws')
    ensures InHand(ws') == InHand(ws)
    decreases |ws|
  {
    if ws != [] {
      InHandWoken(ws[..|ws| - 1], ws'[..|ws| - 1]);
    }
  }

  lemma {:induction false} InHandGrown(ws: seq<Worker>, n: nat)
    ensures InHand(ws + seq(n, _ => Awake)) == InHand(ws)
    decreases n
  {
    var more := ws + seq(n, _ => Awake);
    if n == 0 {
      assert more == ws;
    } else {
      assert more[..|more| - 1] == ws + seq(n - 1, _ => Awake);
      InHandGrown(ws, n - 1);
    }
  }

  lemma {:induction false} SomeRunning(ws: seq<Worker>)
    requires |InHand(ws)| > 0
    ensures exists i :: 0 <= i < |ws| && ws[i].Running?
    decreases |ws|
  {
    var l := |ws| - 1;
    if !ws[l].Running? {
      SomeRunning(ws[..l]);
      var i :| 0 <= i < l && ws[..l][i].Running?;
      assert ws[i].Running?;
    }
  }

  lemma {:induction false} CountUpdate(ps: seq<Pusher>, i: nat, p: Pusher)
    requires i < |ps|
    ensures CountActive(ps[i := p]) ==
            CountActive(ps) - (if ps[i].Active? then 1 else 0) + (if p.Active? then 1 else 0)
    decreases |ps|
  {
    var l := |ps| - 1;
    if i < l {
      CountUpdate(ps[..l], i, p);
      assert ps[i := p][..l] == ps[..l][i := p];
    } else {
      assert ps[i := p][..l] == ps[..l];
    }
  }

  lemma {:induction false} CountWoken(ps: seq<Pusher>, ps': seq<Pusher>)
    requires PushersWoken(ps, ps')
    ensures CountActive(ps') >= CountActive(ps)
    ensures (exists i :: 0 <= i < |ps| && ps[i].Blocked? && ps'[i].Active?) ==> CountActive(ps') > CountActive(ps)
    decreases |ps|
  {
    if ps != [] {
      var l := |ps| - 1;
      CountWoken(ps[..l], ps'[..l]);
      if i :| 0 <= i < |ps| && ps[i].Blocked? && ps'[i].Active? {
        if i < l {
          assert ps[..l][i].Blocked? && ps'[..l][i].Active?;
        }
      }
    }
  }

  lemma WokenLive(ws: seq<Worker>, ws': seq<Worker>)
    requires WorkersWoken(ws, ws') && AnyLive(ws)
    ensures AnyLive(ws')
  {
    var i :| 0 <= i < |ws| && (ws[i] == Awake || ws[i].Running?);
    assert ws'[i] == ws[i];
  }

  lemma WokenBlocked(ps: seq<Pusher>, ps': seq<Pusher>)
    requires PushersWoken(ps, ps') && AnyBlocked(ps')
    ensures AnyBlocked(ps)
  {
    var i :| 0 <= i < |ps| && ps'[i].Blocked?;
    assert ps[i].Blocked?;
  }

  // ----- each step keeps the invariant -----

  lemma SleepOrExitKeeps(s: State, s': State, w: nat)
    requires Inv(s) && CheckStep(s, s', w) && (s.queued == [] || s.busy >= s.limit)
    ensures Inv(s')
  {
    hide InHand, CountActive;
    var idle := if IsShutDown(s) then Exited else Waiting;
    InHandUpdate(s.workers, w, idle);
    assert s'.workers == s.workers[w := idle];
    assert Holds(idle) == Holds(Awake) == multiset{};
    assert InHand(s'.workers) + multiset{} == InHand(s'.workers);
    assert InHand(s.workers) + multiset{} == InHand(s.workers);
    assert s'.pushers == s.pushers && s'.queued == s.queued && s'.busy == s.busy;
    if s.queued != [] {
      SomeRunning(s'.workers);
    }
  }

  /** A popped job is in the hands of exactly one worker. */
  lemma PopRunsOnce(s: State, s': State, w: nat)
    requires RunOnce(s) && CheckStep(s, s', w) && s.queued != [] && s.busy < s.limit
    ensures RunOnce(s')
  {
    InHandUpdate(s.workers, w, Running(s.queued[0]));
    assert InHand(s'.workers) == InHand(s.workers) + multiset{s.queued[0]};
    assert multiset(s'.popped) == multiset(s.popped) + multiset{s.queued[0]};
  }

  lemma PopKeeps(s: State, s': State, w: nat)
    requires Inv(s) && CheckStep(s, s', w) && s.queued != [] && s.busy < s.limit
    ensures Inv(s')
  {
    hide InHand;
    PopRunsOnce(s, s', w);
    assert s'.workers[w].Running?;
    CountWoken(s.pushers, s'.pushers);
    if AnyBlocked(s'.pushers) {
      WokenBlocked(s.pushers, s'.pushers);
    }
    assert s.accepted == s'.popped + s'.queued;
  }

  lemma FinishKeeps(s: State, s': State, w: nat)
    requires Inv(s) && FinishStep(s, s', w)
    ensures Inv(s')
  {
    var job := s.workers[w].job;
    InHandUpdate(s.workers, w, Awake);
    assert InHand(s'.workers) + multiset{job} == InHand(s.workers);
    assert s'.finished + InHand(s'.workers) == s.finished + InHand(s.workers);
    assert s'.workers[w] == Awake;
    if s.queueSize == 1 {
      CountWoken(s.pushers, s'.pushers);
      if AnyBlocked(s'.pushers) {
        WokenBlocked(s.pushers, s'.pushers);
      }
    }
  }

  /** A queued job finds a worker: the signal wakes one, or none was asleep. */
  lemma EnqueueLive(s: State, s': State, job: Job, pushers': seq<Pusher>)
    requires NoStrandedWork(s) && Enqueue(s, s', job, pushers') && !IsShutDown(s)
    ensures NoStrandedWork(s')
  {
    if Waiting in s.workers {
      var i :| 0 <= i < |s.workers| && s.workers[i] == Waiting && s'.workers[i] == Awake;
    } else {
      assert s.workers[0] == Awake || s.workers[0].Running? by {
        assert s.workers[0] in s.workers;
      }
      assert s'.workers[0] == s.workers[0];
    }
  }

  lemma EnqueueKeeps(s: State, s': State, job: Job, pushers': seq<Pusher>)
    requires Inv(s) && Enqueue(s, s', job, pushers') && !IsShutDown(s) && !IsFull(s)
    requires |pushers'| == |s.pushers| && CountActive(pushers') + 1 >= CountActive(s.pushers)
    requires AnyBlocked(pushers') ==> AnyBlocked(s.pushers)
    ensures Inv(s')
  {
    hide InHand, CountActive;
    EnqueueLive(s, s', job, pushers');
    InHandWoken(s.workers, s'.workers);
    assert s'.accepted == s'.popped + s'.queued;
  }

  lemma AddKeeps(s: State, s': State, p: nat)
    requires Inv(s) && AddStep(s, s', p)
    ensures Inv(s')
  {
    hide InHand, CountActive;
    var job := s.pushers[p].job;
    if IsFull(s) && !IsShutDown(s) {
      CountUpdate(s.pushers, p, Blocked(job));
    } else {
      var pushers' := s.pushers[p := Returned];
      CountUpdate(s.pushers, p, Returned);
      if AnyBlocked(pushers') {
        var i :| 0 <= i < |pushers'| && pushers'[i].Blocked?;
        assert s.pushers[i].Blocked?;
      }
      if !IsShutDown(s) {
        EnqueueKeeps(s, s', job, pushers');
      }
    }
  }

  lemma ResizeKeeps(s: State, s': State, n: nat, gotMemory: bool, created: nat)
    requires Inv(s) && ResizeStep(s, s', n, gotMemory, created)
    ensures Inv(s')
  {
    hide InHand, CountActive;
    var grown := if n > |s.workers| && gotMemory then created else 0;
    var ws := s.workers + seq(grown, _ => Awake);
    assert grown == 0 ==> ws == s.workers;
    InHandGrown(s.workers, grown);
    InHandWoken(ws, s'.workers);
    if s.queued != [] {
      var i :| 0 <= i < |s.workers| && (s.workers[i] == Awake || s.workers[i].Running?);
      assert ws[i] == s.workers[i];
      WokenLive(ws, s'.workers);
    }
  }

  lemma WakingKeeps(s: State, s': State)
    requires Inv(s) && WorkersWoken(s.workers, s'.workers) && PushersWoken(s.pushers, s'.pushers)
    requires s' == s.(workers := s'.workers, pushers := s'.pushers, stage := s'.stage)
    requires IsShutDown(s) <==> IsShutDown(s')
    requires s'.stage == WorkersCalled ==> Waiting !in s'.workers && (s.stage == PushersCalled || s.stage == WorkersCalled)
    requires s'.stage == PushersCalled ==> !AnyBlocked(s'.pushers) || s.stage == PushersCalled
    ensures Inv(s')
  {
    hide InHand, CountActive;
    InHandWoken(s.workers, s'.workers);
    CountWoken(s.pushers, s'.pushers);
    if s.queued != [] {
      WokenLive(s.workers, s'.workers);
    }
    if AnyBlocked(s'.pushers) {
      WokenBlocked(s.pushers, s'.pushers);
    }
  }

  lemma CallKeeps(s: State, job: Job)
    requires Inv(s)
    ensures Inv(s.(pushers := s.pushers + [Active(job)]))
  {
    var ps := s.pushers + [Active(job)];
    assert ps[..|s.pushers|] == s.pushers;
    if AnyBlocked(ps) {
      var i :| 0 <= i < |ps| && ps[i].Blocked?;
      assert s.pushers[i].Blocked?;
    }
  }

  /** Every step keeps the invariant. */
  lemma NextKeeps(s: State, s': State, step: Step)
    requires Inv(s) && Next(s, s', step)
    ensures Inv(s')
  {
    hide Inv, Fifo, RunOnce, NoStrandedWork, NoStrandedPusher, InHand, CountActive;
    match step
    case Check(w) =>
      if s.queued == [] || s.busy >= s.limit {
        SleepOrExitKeeps(s, s', w);
      } else {
        PopKeeps(s, s', w);
      }
    case Finish(w) => FinishKeeps(s, s', w);
    case Call(job) => CallKeeps(s, job);
    case Add(p) => AddKeeps(s, s', p);
    case TryAdd(job) => TryAddKeeps(s, s', job);
    case Resize(n, gotMemory, created) => ResizeKeeps(s, s', n, gotMemory, created);
    case SetShutDown => ShutDownKeeps(s);
    case CallPushers => WakingKeeps(s, s');
    case CallWorkers => WakingKeeps(s, s');
    case Spurious =>
      SpuriousKeeps(s, s');
  }

  lemma TryAddKeeps(s: State, s': State, job: Job)
    requires Inv(s) && TryAddStep(s, s', job)
    ensures Inv(s')
  {
    hide InHand, CountActive;
    if !IsFull(s) && !IsShutDown(s) {
      EnqueueKeeps(s, s', job, s.pushers);
    }
  }

  lemma ShutDownKeeps(s: State)
    requires Inv(s) && s.stage == Open
    ensures Inv(s.(stage := ShutDown))
  {
  }

  lemma SpuriousKeeps(s: State, s': State)
    requires Inv(s) && Next(s, s', Spurious)
    ensures Inv(s')
  {
    hide InHand, CountActive;
    if Waiting in s'.workers {
      var i :| 0 <= i < |s'.workers| && s'.workers[i] == Waiting;
      assert s.workers[i] == Waiting;
    }
    WakingKeeps(s, s');
  }

  lemma InitKeeps(s: State, numThreads: nat, queueSize: nat)
    requires Init(s, numThreads, queueSize)
    ensures Inv(s)
  {
    NothingInHand(s.workers);
  }

  lemma {:induction false} NothingInHand(ws: seq<Worker>)
    requires forall i :: 0 <= i < |ws| ==> !ws[i].Running?
    ensures InHand(ws) == multiset{}
    decreases |ws|
  {
    if ws != [] {
      NothingInHand(ws[..|ws| - 1]);
    }
  }

  // ----- whole runs -----

  /** A run: states and the steps between them, in any interleaving. */
  ghost predicate IsRun(states: seq<State>, steps: seq<Step>, numThreads: nat, queueSize: nat)
  {
    && |states| == |steps| + 1 && Init(states[0], numThreads, queueSize)
    && forall i :: 0 <= i < |steps| ==> Next(states[i], states[i + 1], steps[i])
  }

  lemma {:induction false} RunKeeps(states: seq<State>, steps: seq<Step>, numThreads: nat, queueSize: nat, i: nat)
    requires IsRun(states, steps, numThreads, queueSize) && i < |states|
    ensures Inv(states[i])
  {
    hide Inv, Next, Init;
    if i == 0 {
      InitKeeps(states[0], numThreads, queueSize);
    } else {
      RunKeeps(states, steps, numThreads, queueSize, i - 1);
      NextKeeps(states[i - 1], states[i], steps[i - 1]);
    }
  }

  /** In every reachable state of every run: jobs leave in the order they were accepted, none is lost or
      run twice, the queue never overflows, and a waiting job has a live worker. */
  lemma JobsRunOnceInOrder(states: seq<State>, steps: seq<Step>, numThreads: nat, queueSize: nat, i: nat)
    requires IsRun(states, steps, numThreads, queueSize) && i < |states|
    ensures var s := states[i];
            && s.accepted == s.popped + s.queued
            && multiset(s.popped) == s.finished + InHand(s.workers)
            && s.busy == |InHand(s.workers)|
            && (s.queued != [] ==> AnyLive(s.workers))
            && |s.queued| <= (if s.queueSize == 1 then 1 else s.queueSize - 1)
  {
    RunKeeps(states, steps, numThreads, queueSize, i);
  }

  /** Once `POOL_join` has called the clients, none of them sleeps in `POOL_add` any more. */
  lemma NoClientLeftAsleep(states: seq<State>, steps: seq<Step>, numThreads: nat, queueSize: nat, i: nat)
    requires IsRun(states, steps, numThreads, queueSize) && i < |states|
    requires states[i].stage == PushersCalled || states[i].stage == WorkersCalled
    ensures !AnyBlocked(states[i].pushers)
  {
    RunKeeps(states, steps, numThreads, queueSize, i);
  }

  /** When `POOL_join` has joined every worker, every accepted job has finished exactly once. */
  lemma JoinedMeansDone(states: seq<State>, steps: seq<Step>, numThreads: nat, queueSize: nat, i: nat)
    requires IsRun(states, steps, numThreads, queueSize) && i < |states|
    requires forall w :: 0 <= w < |states[i].workers| ==> states[i].workers[w] == Exited
    ensures states[i].queued == [] && states[i].busy == 0
    ensures states[i].popped == states[i].accepted && states[i].finished == multiset(states[i].accepted)
  {
    RunKeeps(states, steps, numThreads, queueSize, i);
    NothingInHand(states[i].workers);
    assert states[i].popped + [] == states[i].popped;
  }

  /** No deadlock: while the pool is open and a client sleeps in `POOL_add`, either another client is
      about to check the queue or some worker is not asleep. */
  lemma SleepingClientIsServed(states: seq<State>, steps: seq<Step>, numThreads: nat, queueSize: nat, i: nat)
    requires IsRun(states, steps, numThreads, queueSize) && i < |states|
    requires states[i].stage == Open && AnyBlocked(states[i].pushers)
    ensures (exists p :: 0 <= p < |states[i].pushers| && states[i].pushers[p].Active?) || AnyLive(states[i].workers)
  {
    var s := states[i];
    RunKeeps(states, steps, numThreads, queueSize, i);
    if CountActive(s.pushers) > 0 {
      SomeActive(s.pushers);
    } else if s.queued == [] {
      SomeRunning(s.workers);
    }
  }

  lemma {:induction false} SomeActive(ps: seq<Pusher>)
    requires CountActive(ps) > 0
    ensures exists i :: 0 <= i < |ps| && ps[i].Active?
    decreases |ps|
  {
    var l := |ps| - 1;
    if !ps[l].Active? {
      SomeActive(ps[..l]);
      var i :| 0 <= i < l && ps[..l][i].Active?;
      assert ps[i].Active?;
    }
  }

  // ----- no job waits while there is room for it -----

  ghost function CountAwake(ws: seq<Worker>): nat
  {
    if ws == [] then 0 else CountAwake(ws[..|ws| - 1]) + if ws[|ws| - 1] == Awake then 1 else 0
  }

  /** As many workers are about to take the lock as there are waiting jobs, or as the limit lets run. */
  ghost predicate Manned(s: State)
  {
    |s.queued| <= CountAwake(s.workers) || s.limit - s.busy <= CountAwake(s.workers)
  }

  lemma {:induction false} AwakeUpdate(ws: seq<Worker>, i: nat, w: Worker)
    requires i < |ws|
    ensures CountAwake(ws[i := w]) ==
            CountAwake(ws) - (if ws[i] == Awake then 1 else 0) + (if w == Awake then 1 else 0)
    decreases |ws|
  {
    var l := |ws| - 1;
    if i < l {
      AwakeUpdate(ws[..l], i, w);
      assert ws[i := w][..l] == ws[..l][i := w];
    } else {
      assert ws[i := w][..l] == ws[..l];
    }
  }

  lemma {:induction false} AwakeWoken(ws: seq<Worker>, ws': seq<Worker>)
    requires WorkersWoken(ws, ws')
    ensures CountAwake(ws') >= CountAwake(ws)
    ensures (exists i :: 0 <= i < |ws| && ws[i] == Waiting && ws'[i] == Awake) ==> CountAwake(ws') > CountAwake(ws)
    decreases |ws|
  {
    if ws != [] {
      var l := |ws| - 1;
      AwakeWoken(ws[..l], ws'[..l]);
      if i :| 0 <= i < |ws| && ws[i] == Waiting && ws'[i] == Awake {
        if i < l {
          assert ws[..l][i] == Waiting && ws'[..l][i] == Awake;
        }
      }
    }
  }

  /** When nobody sleeps or has exited, whoever does not run a job is awake. */
  lemma {:induction false} NobodyIdle(ws: seq<Worker>)
    requires Waiting !in ws && Exited !in ws
    ensures CountAwake(ws) + |InHand(ws)| == |ws|
    decreases |ws|
  {
    if ws != [] {
      var l := |ws| - 1;
      assert ws[l] in ws && forall w :: w in ws[..l] ==> w in ws;
      NobodyIdle(ws[..l]);
    }
  }

  lemma EnqueueManned(s: State, s': State, job: Job, pushers': seq<Pusher>)
    requires Inv(s) && Manned(s) && Enqueue(s, s', job, pushers')
    ensures Manned(s')
  {
    hide InHand, CountAwake, CountActive;
    if !IsShutDown(s) {
      AwakeWoken(s.workers, s'.workers);
      if Waiting !in s.workers {
        NobodyIdle(s.workers);
      }
    }
  }

  lemma ResizeManned(s: State, s': State, n: nat, gotMemory: bool, created: nat)
    requires Inv(s) && s.stage == Open && ResizeStep(s, s', n, gotMemory, created)
    ensures Manned(s')
  {
    hide InHand, CountAwake, CountActive;
    ResizeKeeps(s, s', n, gotMemory, created);
    NobodyIdle(s'.workers);
  }

  /** Every step keeps it; a resize only while the pool is open, since workers exit at the limit too. */
  lemma MannedKeeps(s: State, s': State, step: Step)
    requires Inv(s) && Manned(s) && Next(s, s', step) && (step.Resize? ==> s.stage == Open)
    ensures Manned(s')
  {
    hide InHand, CountAwake, CountActive, Inv, Enqueue;
    match step
    case Check(w) => AwakeUpdate(s.workers, w, s'.workers[w]);
    case Finish(w) => AwakeUpdate(s.workers, w, Awake);
    case Add(p) =>
      if !IsFull(s) || IsShutDown(s) {
        EnqueueManned(s, s', s.pushers[p].job, s.pushers[p := Returned]);
      }
    case TryAdd(job) =>
      if !IsFull(s) {
        EnqueueManned(s, s', job, s.pushers);
      }
    case Resize(n, gotMemory, created) => ResizeManned(s, s', n, gotMemory, created);
    case CallWorkers => AwakeWoken(s.workers, s'.workers);
    case Spurious => AwakeWoken(s.workers, s'.workers);
    case _ =>
  }

  /** In every reachable state: no job waits while the limit leaves room and nobody is about to take it. */
  lemma {:induction false} NoJobWaitsForNobody(states: seq<State>, steps: seq<Step>, numThreads: nat, queueSize: nat, i: nat)
    requires IsRun(states, steps, numThreads, queueSize) && i < |states|
    requires forall k :: 0 <= k < i && steps[k].Resize? ==> states[k].stage == Open
    ensures Manned(states[i])
  {
    hide Inv, Next, Manned, Init;
    if i == 0 {
      NothingQueued(states[0], numThreads, queueSize);
    } else {
      NoJobWaitsForNobody(states, steps, numThreads, queueSize, i - 1);
      RunKeeps(states, steps, numThreads, queueSize, i - 1);
      MannedKeeps(states[i - 1], states[i], steps[i - 1]);
    }
  }

  lemma NothingQueued(s: State, numThreads: nat, queueSize: nat)
    requires Init(s, numThreads, queueSize)
    ensures Manned(s)
  {
  }

  /** A run whose last step is a resize after the shutdown: the worker that exited at the limit is not
      there any more when the limit rises. */
  ghost function Late(k: nat): State
  {
    var a, b := Job(0, 0), Job(1, 0);
    if k == 0 then State(3, [], 0, 2, [Awake, Awake], [], Open, [], [], multiset{})
    else if k == 1 then Late(0).(limit := 1)
    else if k == 2 then Late(1).(queued := [a], accepted := [a])
    else if k == 3 then State(3, [], 1, 1, [Running(a), Awake], [], Open, [a], [a], multiset{})
    else if k == 4 then Late(3).(queued := [b], accepted := [a, b])
    else if k == 5 then Late(4).(stage := ShutDown)
    else if k == 6 then Late(5).(stage := PushersCalled)
    else if k == 7 then Late(6).(stage := WorkersCalled)
    else if k == 8 then Late(7).(workers := [Running(a), Exited])
    else Late(8).(limit := 2)
  }

  ghost function LateStep(k: nat): Step
  {
    match k
    case 0 => Resize(1, true, 0)
    case 1 => TryAdd(Job(0, 0))
    case 2 => Check(0)
    case 3 => TryAdd(Job(1, 0))
    case 4 => SetShutDown
    case 5 => CallPushers
    case 6 => CallWorkers
    case 7 => Check(1)
    case _ => Resize(2, true, 0)
  }

  lemma LateStart(k: nat)
    requires k < 4
    ensures Next(Late(k), Late(k + 1), LateStep(k))
  {
    if k == 0 {
      assert WorkerBroadcast(Late(0).workers, Late(1).workers);
    } else if k == 1 || k == 3 {
      assert WorkerSignal(Late(k).workers, Late(k + 1).workers);
    }
  }

  lemma LateEnd(k: nat)
    requires 4 <= k < 9
    ensures Next(Late(k), Late(k + 1), LateStep(k))
  {
    if k == 8 {
      assert Late(8).workers + seq(0, _ => Awake) == Late(8).workers;
    }
  }

  /** So a resize after the shutdown can leave a job waiting with room for it. */
  lemma ResizeAfterShutDown() returns (states: seq<State>, steps: seq<Step>)
    ensures IsRun(states, steps, 2, 2) && |steps| == 9 && steps[8].Resize? && states[8].stage != Open
    ensures Manned(states[8]) && !Manned(states[9])
  {
    hide Next;
    states, steps := seq(10, k requires 0 <= k => Late(k)), seq(9, k requires 0 <= k => LateStep(k));
    forall k | 0 <= k < 9 ensures Next(states[k], states[k + 1], steps[k]) {
      if k < 4 {
        LateStart(k);
      } else {
        LateEnd(k);
      }
    }
    assert Late(8).workers == [Running(Job(0, 0)), Exited];
    assert [Running(Job(0, 0)), Exited][..1] == [Running(Job(0, 0))] && [Running(Job(0, 0))][..0] == [];
    assert CountAwake([Running(Job(0, 0))]) == 0;
    assert CountAwake(Late(8).workers) == 0;
  }

  // ----- joining ends -----

  ghost function Weight(w: Worker): nat
  {
    match w
    case Running(_) => 2
    case Awake => 1
    case _ => 0
  }

  ghost function Total(ws: seq<Worker>): nat
  {
    if ws == [] then 0 else Total(ws[..|ws| - 1]) + Weight(ws[|ws| - 1])
  }

  /** How many worker steps can still happen after the last broadcast of `POOL_join`. */
  ghost function Remaining(s: State): nat
  {
    2 * |s.queued| + Total(s.workers)
  }

  lemma {:induction false} TotalUpdate(ws: seq<Worker>, i: nat, w: Worker)
    requires i < |ws|
    ensures Total(ws[i := w]) == Total(ws) - Weight(ws[i]) + Weight(w)
    decreases |ws|
  {
    var l := |ws| - 1;
    if i < l {
      TotalUpdate(ws[..l], i, w);
      assert ws[i := w][..l] == ws[..l][i := w];
    } else {
      assert ws[i := w][..l] == ws[..l];
    }
  }

  /** After the last broadcast every worker that has not exited can take a step, each such step brings
      the end nearer, and no client's step moves it away: joining terminates once workers are scheduled. */
  lemma JoinProgresses(s: State, s': State, step: Step)
    requires Inv(s) && s.stage == WorkersCalled && Next(s, s', step) && !step.Resize?
    ensures s'.stage == WorkersCalled
    ensures if step.Check? || step.Finish? then Remaining(s') < Remaining(s) else Remaining(s') == Remaining(s)
  {
    hide InHand, CountActive;
    match step
    case Check(w) => TotalUpdate(s.workers, w, s'.workers[w]);
    case Finish(w) => TotalUpdate(s.workers, w, s'.workers[w]);
    case Spurious => assert s'.workers == s.workers;
    case _ =>
  }

  lemma JoinEnabled(s: State, w: nat)
    requires Inv(s) && s.stage == WorkersCalled && w < |s.workers| && s.workers[w] != Exited
    ensures s.workers[w] == Awake || (s.workers[w].Running? && s.busy > 0)
  {
    assert s.workers[w] in s.workers;
    if s.workers[w].Running? {
      InHandUpdate(s.workers, w, Awake);
    }
  }

  // ----- when a job is taken -----

  /** An open pool takes a job exactly when its queue has room; without a queue, when no job waits and
      the number of workers that run one is not the limit. */
  lemma TakenWhen(s: State, s': State, step: Step)
    requires Inv(s) && Next(s, s', step) && s.stage == Open && (step.TryAdd? || step.Add?)
    ensures s'.accepted != s.accepted <==>
            if s.queueSize > 1 then |s.queued| + 1 < s.queueSize else s.queued == [] && |InHand(s.workers)| != s.limit
  {
    hide InHand, CountActive;
    var job := if step.TryAdd? then step.job else s.pushers[step.p].job;
    assert |s.accepted + [job]| != |s.accepted|;
  }

  /** As long as nobody has lowered the limit, no more workers run a job than it allows. */
  lemma {:induction false} RunningWithin(states: seq<State>, steps: seq<Step>, numThreads: nat, queueSize: nat, i: nat)
    requires IsRun(states, steps, numThreads, queueSize) && i < |states|
    requires forall k :: 0 <= k < i ==> !steps[k].Resize?
    ensures states[i].busy <= states[i].limit && states[i].queueSize == queueSize + 1
  {
    hide InHand, Enqueue;
    if i > 0 {
      RunningWithin(states, steps, numThreads, queueSize, i - 1);
      assert Next(states[i - 1], states[i], steps[i - 1]);
      WithinNext(states[i - 1], states[i], steps[i - 1]);
    }
  }

  lemma WithinNext(s: State, s': State, step: Step)
    requires Next(s, s', step) && !step.Resize? && s.busy <= s.limit
    ensures s'.busy <= s'.limit && s'.queueSize == s.queueSize
  {
  }

  /** A pool without a queue then takes a job only for a worker that is free to run it at once. */
  lemma NoQueueNoWait(states: seq<State>, steps: seq<Step>, numThreads: nat, i: nat)
    requires IsRun(states, steps, numThreads, 0) && i < |steps| && states[i].stage == Open
    requires (steps[i].TryAdd? || steps[i].Add?) && forall k :: 0 <= k < i ==> !steps[k].Resize?
    ensures states[i + 1].accepted != states[i].accepted <==>
            states[i].queued == [] && |InHand(states[i].workers)| < states[i].limit
  {
    hide InHand, Enqueue, Inv, Init, Next;
    RunKeeps(states, steps, numThreads, 0, i);
    RunningWithin(states, steps, numThreads, 0, i);
    TakenWhen(states[i], states[i + 1], steps[i]);
    BusyInHand(states[i]);
  }

  lemma BusyInHand(s: State)
    requires Inv(s)
    ensures s.busy == |InHand(s.workers)|
  {
    hide InHand, CountActive;
  }
}

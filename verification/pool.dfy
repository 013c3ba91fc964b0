/** The thread pool object: a circular buffer with an explicit empty flag, changed in place by critical
    sections. Each section is proved to be one step of the state machine of `pool_machine.dfy`. */
module ThreadPool {
  import opened Wrappers
  import opened PoolMachine

  // ----- the circular buffer -----

  /** One slot is wasted to tell full from empty, except when there is only one slot. */
  ghost predicate RingOk(q: seq<Job>, head: nat, tail: nat, empty: bool)
  {
    && head < |q| && tail < |q|
    && (empty ==> head == tail)
    && (!empty && |q| > 1 ==> head != tail)
  }

  /** The queued jobs, oldest first. */
  ghost function Live(q: seq<Job>, head: nat, tail: nat, empty: bool): seq<Job>
    requires RingOk(q, head, tail, empty)
  {
    if empty then [] else if head < tail then q[head..tail] else q[head..] + q[..tail]
  }

  function Wrap(i: nat, n: nat): (r: nat)
    requires i < n
    ensures r == if i + 1 == n then 0 else i + 1
  {
    if i + 1 == n then
      assert (i + 1) % n == 0;
      (i + 1) % n
    else (i + 1) % n
  }

  lemma PopLive(q: seq<Job>, head: nat, tail: nat)
    requires RingOk(q, head, tail, false)
    ensures var head' := Wrap(head, |q|);
            && RingOk(q, head', tail, head' == tail)
            && Live(q, head, tail, false) == [q[head]] + Live(q, head', tail, head' == tail)
  {
  }

  lemma PushLive(q: seq<Job>, head: nat, tail: nat, empty: bool, job: Job)
    requires RingOk(q, head, tail, empty)
    requires if |q| > 1 then head != Wrap(tail, |q|) else empty
    ensures var q', tail' := q[tail := job], Wrap(tail, |q|);
            && RingOk(q', head, tail', false)
            && Live(q', head, tail', false) == Live(q, head, tail, empty) + [job]
  {
    var q', tail' := q[tail := job], Wrap(tail, |q|);
    var live, live' := Live(q, head, tail, empty), Live(q', head, tail', false);
    assert |live'| == |live| + 1;
    assert live'[|live|] == job;
    assert live'[..|live|] == live;
  }

  /** The index comparison of `isQueueFull` means that all but one slot are in use. */
  lemma FullMeans(q: seq<Job>, head: nat, tail: nat, empty: bool)
    requires RingOk(q, head, tail, empty) && |q| > 1
    ensures head == Wrap(tail, |q|) <==> |Live(q, head, tail, empty)| == |q| - 1
  {
  }

  // ----- the pool -----

  /** `POOL_ctx`. The ghost fields record where each thread and client stands, and the history. */
  class PoolCtx {
    const queue: array<Job>
    const queueSize: nat
    var queueHead: nat
    var queueTail: nat
    var numThreadsBusy: nat
    var queueEmpty: bool
    var shutdown: bool
    var threadCapacity: nat
    var threadLimit: nat

    ghost var workers: seq<Worker>
    ghost var pushers: seq<Pusher>
    ghost var stage: Stage
    ghost var accepted: seq<Job>
    ghost var popped: seq<Job>
    ghost var finished: multiset<Job>

    ghost predicate RingValid()
      reads this, queue
    {
      queue.Length == queueSize && RingOk(queue[..], queueHead, queueTail, queueEmpty)
    }

    ghost function View(): State
      requires RingValid()
      reads this, queue
    {
      State(queueSize, Live(queue[..], queueHead, queueTail, queueEmpty), numThreadsBusy, threadLimit,
            workers, pushers, stage, accepted, popped, finished)
    }

    ghost predicate Valid()
      reads this, queue
    {
      && RingValid() && Inv(View())
      && shutdown == IsShutDown(View()) && threadCapacity == |workers|
    }

    /** `POOL_create`, once all threads have started; `started` says which of them already sleep. */
    constructor (numThreads: nat, size: nat, ghost started: seq<Worker>)
      requires numThreads > 0 && |started| == numThreads
      requires forall i :: 0 <= i < numThreads ==> started[i] == Awake || started[i] == Waiting
      ensures Valid() && Init(View(), numThreads, size) && fresh(queue)
    {
      queueSize := size + 1;
      queue := new Job[size + 1](_ => Job(0, 0));
      queueHead, queueTail, numThreadsBusy, queueEmpty, shutdown := 0, 0, 0, true, false;
      threadCapacity, threadLimit := numThreads, numThreads;
      workers, pushers, stage := started, [], Open;
      accepted, popped, finished := [], [], multiset{};
      new;
      InitKeeps(View(), numThreads, size);
    }

    /** The locked part of `POOL_thread`'s loop head, up to unlock, wait or return. `woken` is the outcome
        of the signal on `queuePushCond`, if one is sent. */
    method TakeJob(w: nat, ghost woken: seq<Pusher>) returns (job: Option<Job>)
      requires Valid() && w < |workers| && workers[w] == Awake && PusherSignal(pushers, woken)
      modifies this
      ensures Valid() && Next(old(View()), View(), Check(w))
      ensures workers == old(workers)[w := if job.Some? then Running(job.value) else if shutdown then Exited else Waiting]
    {
      hide Inv, Live, RingOk, PusherSignal;
      ghost var before := View();
      EmptyMeans(queue[..], queueHead, queueTail, queueEmpty);
      if queueEmpty || numThreadsBusy >= threadLimit {
        ghost var idle := if shutdown then Exited else Waiting;
        workers := workers[w := idle];
        job := None;
        NextKeeps(before, View(), Check(w));
        return;
      }
      var taken := PopJob(w, woken);
      job := Some(taken);
    }

    /** The part of the loop head that takes the oldest job out of the queue. */
    method PopJob(w: nat, ghost woken: seq<Pusher>) returns (job: Job)
      requires Valid() && w < |workers| && workers[w] == Awake && PusherSignal(pushers, woken)
      requires !queueEmpty && numThreadsBusy < threadLimit
      modifies this
      ensures Valid() && Next(old(View()), View(), Check(w)) && workers == old(workers)[w := Running(job)]
    {
      hide Inv, Live, RingOk, PusherSignal;
      ghost var before := View();
      job := PopFront();
      numThreadsBusy := numThreadsBusy + 1;
      pushers, popped := woken, popped + [job];
      workers := workers[w := Running(job)];
      NextKeeps(before, View(), Check(w));
    }

    method PopFront() returns (job: Job)
      requires RingValid() && !queueEmpty
      modifies this`queueHead, this`queueEmpty
      ensures RingValid() && old(View().queued) == [job] + View().queued
      ensures View() == old(View()).(queued := View().queued)
    {
      hide Live, RingOk;
      PopLive(queue[..], queueHead, queueTail);
      job := queue[queueHead];
      queueHead := Wrap(queueHead, queueSize);
      queueEmpty := queueHead == queueTail;
    }

    /** The second locked part of the loop, after the job has run. */
    method JobDone(w: nat, ghost woken: seq<Pusher>)
      requires Valid() && w < |workers| && workers[w].Running?
      requires if queueSize == 1 then PusherSignal(pushers, woken) else woken == pushers
      modifies this
      ensures Valid() && Next(old(View()), View(), Finish(w))
    {
      hide Inv;
      ghost var before := View();
      SomeoneBusy(before, w);
      finished := finished + multiset{workers[w].job};
      numThreadsBusy := numThreadsBusy - 1;
      pushers := woken;
      workers := workers[w := Awake];
      NextKeeps(before, View(), Finish(w));
    }

    method IsQueueFull() returns (full: bool)
      requires Valid()
      ensures full == IsFull(View())
    {
      EmptyMeans(queue[..], queueHead, queueTail, queueEmpty);
      if queueSize > 1 {
        FullMeans(queue[..], queueHead, queueTail, queueEmpty);
        full := queueHead == Wrap(queueTail, queueSize);
      } else {
        full := numThreadsBusy == threadLimit || !queueEmpty;
      }
    }

    /** `POOL_add_internal`. */
    method AddInternal(job: Job, ghost pushers': seq<Pusher>, ghost woken: seq<Worker>)
      requires Valid() && (shutdown || !IsFull(View()))
      requires WorkerSignal(workers, woken)
      modifies this, queue
      ensures RingValid() && shutdown == old(shutdown) && threadCapacity == old(threadCapacity)
      ensures |workers| == old(|workers|) && stage == old(stage) && pushers == pushers'
      ensures Enqueue(old(View()), View(), job, pushers')
    {
      hide Inv, Live, RingOk, WorkerSignal;
      SignalLength(workers, woken);
      if shutdown {
        pushers := pushers';
        return;
      }
      EmptyMeans(queue[..], queueHead, queueTail, queueEmpty);
      if queueSize > 1 {
        FullMeans(queue[..], queueHead, queueTail, queueEmpty);
      }
      PushLive(queue[..], queueHead, queueTail, queueEmpty, job);
      ghost var q := queue[..];
      queueEmpty := false;
      queue[queueTail] := job;
      assert queue[..] == q[queueTail := job];
      queueTail := Wrap(queueTail, queueSize);
      accepted, workers, pushers := accepted + [job], woken, pushers';
    }

    /** One pass through the loop of `POOL_add`. */
    method Add(p: nat, job: Job, ghost woken: seq<Worker>) returns (done: bool)
      requires Valid() && p < |pushers| && pushers[p] == Active(job) && WorkerSignal(workers, woken)
      modifies this, queue
      ensures Valid() && Next(old(View()), View(), Step.Add(p))
      ensures done <==> pushers == old(pushers)[p := Returned]
    {
      hide Inv;
      ghost var before := View();
      var full := IsQueueFull();
      if full && !shutdown {
        pushers := pushers[p := Blocked(job)];
        done := false;
        assert pushers[p] != old(pushers)[p := Returned][p];
      } else {
        AddInternal(job, pushers[p := Returned], woken);
        done := true;
      }
      NextKeeps(before, View(), Step.Add(p));
    }

    /** `POOL_add` is entered. */
    ghost method Enter(job: Job)
      requires Valid()
      modifies this`pushers
      ensures Valid() && Next(old(View()), View(), Call(job))
      ensures pushers == old(pushers) + [Active(job)]
    {
      ghost var before := View();
      pushers := pushers + [Active(job)];
      NextKeeps(before, View(), Call(job));
    }

    /** `POOL_tryAdd`: refuses only when the queue is full. */
    method TryAdd(job: Job, ghost woken: seq<Worker>) returns (ok: bool)
      requires Valid() && WorkerSignal(workers, woken)
      modifies this, queue
      ensures Valid() && Next(old(View()), View(), Step.TryAdd(job))
      ensures ok <==> !IsFull(old(View()))
    {
      hide Inv;
      ghost var before := View();
      var full := IsQueueFull();
      if full {
        ok := false;
      } else {
        AddInternal(job, pushers, woken);
        ok := true;
      }
      NextKeeps(before, View(), Step.TryAdd(job));
    }

    /** `POOL_resize`. `gotMemory` and `created` are the outcomes of `malloc` and of the thread
        creations; `woken` that of the final broadcast. */
    method Resize(numThreads: nat, gotMemory: bool, created: nat, ghost woken: seq<Worker>) returns (failed: bool)
      requires Valid()
      requires numThreads > |workers| ==> created <= numThreads - |workers|
      requires WorkerBroadcast(
                 if numThreads > |workers| && gotMemory then workers + seq(created, _ => Awake) else workers, woken)
      modifies this
      ensures Valid() && Next(old(View()), View(), Step.Resize(numThreads, gotMemory, created))
      ensures failed <==> numThreads == 0
                          || (numThreads > old(|workers|) && (!gotMemory || created < numThreads - old(|workers|)))
    {
      hide Inv;
      ghost var before := View();
      failed := ResizeInternal(numThreads, gotMemory, created);
      workers := woken;
      NextKeeps(before, View(), Step.Resize(numThreads, gotMemory, created));
    }

    /** `POOL_resize_internal`; the threads it starts are the new tail of `workers`. */
    method ResizeInternal(numThreads: nat, gotMemory: bool, created: nat) returns (failed: bool)
      requires threadCapacity == |workers|
      requires numThreads > threadCapacity ==> created <= numThreads - threadCapacity
      modifies this`threadCapacity, this`threadLimit, this`workers
      ensures workers == old(workers) + seq(if numThreads > old(|workers|) && gotMemory then created else 0, _ => Awake)
      ensures threadCapacity == |workers|
      ensures failed <==> numThreads == 0
                          || (numThreads > old(|workers|) && (!gotMemory || created < numThreads - old(|workers|)))
      ensures threadLimit == if failed then old(threadLimit) else numThreads
    {
      if numThreads <= threadCapacity {
        assert workers == workers + seq(0, _ => Awake);
        if numThreads == 0 {
          return true;
        }
        threadLimit := numThreads;
        return false;
      }
      if !gotMemory {
        assert workers == workers + seq(0, _ => Awake);
        return true;
      }
      workers := workers + seq(created, _ => Awake);
      if created < numThreads - threadCapacity {
        threadCapacity := threadCapacity + created;
        return true;
      }
      threadCapacity := numThreads;
      threadLimit := numThreads;
      return false;
    }

    /** The locked part of `POOL_join`. */
    method ShutDownQueue()
      requires Valid() && stage == Open
      modifies this
      ensures Valid() && Next(old(View()), View(), SetShutDown)
    {
      hide Inv;
      ghost var before := View();
      shutdown := true;
      stage := ShutDown;
      NextKeeps(before, View(), SetShutDown);
    }

    /** The two broadcasts of `POOL_join`, which change only who is asleep. */
    ghost method CallEveryone(awakePushers: seq<Pusher>, awakeWorkers: seq<Worker>) returns (between: State)
      requires Valid() && stage == ShutDown
      requires PusherBroadcast(pushers, awakePushers) && WorkerBroadcast(workers, awakeWorkers)
      modifies this`pushers, this`workers, this`stage
      ensures Valid() && Next(old(View()), between, CallPushers) && Next(between, View(), CallWorkers)
    {
      hide Inv;
      var before := View();
      pushers, stage := awakePushers, PushersCalled;
      between := View();
      NextKeeps(before, between, CallPushers);
      workers, stage := awakeWorkers, WorkersCalled;
      NextKeeps(between, View(), CallWorkers);
    }
  }

  /** A running worker is counted busy. */
  lemma SomeoneBusy(s: State, w: nat)
    requires Inv(s) && w < |s.workers| && s.workers[w].Running?
    ensures s.busy > 0
  {
    InHandUpdate(s.workers, w, Awake);
  }

  lemma SignalLength(ws: seq<Worker>, ws': seq<Worker>)
    requires WorkerSignal(ws, ws')
    ensures |ws'| == |ws|
  {
  }

  lemma EmptyMeans(q: seq<Job>, head: nat, tail: nat, empty: bool)
    requires RingOk(q, head, tail, empty)
    ensures head < |q| && tail < |q|
    ensures empty <==> Live(q, head, tail, empty) == []
  {
  }
}

/** The promises of the upload pipeline, for every run: order, conservation, one worker, no lost
    wake-up, bounded uploads, and that it drains. */
module PipelineTheorems {
  import opened Outcomes
  import opened Sums
  import opened Backlog
  import opened TelemetryPipeline
  import opened PipelineSafety

  // --- Order ------------------------------------------------------------------------------------

  /** The queue always is the newest part of the enqueue log. A batch on its way with a worker is older
      than all of it, and its immediate predecessor unless the queue is full; so putting it back never
      reorders. Workers take batches in the order of the log, and go back only to retry the last one. */
  lemma QueueIsNewestPartOfLog(states: seq<System>, actions: seq<Action>, k: nat)
    requires IsRun(states, actions) && k < |states|
    ensures var s := states[k]; var n := |s.log| - |s.backlog.pending|;
      && |s.backlog.pending| <= MAX_PENDING
      && 0 <= n && s.backlog.pending == s.log[n..]
      && (forall w :: 0 <= w < |s.workers| && Carries(s.workers[w]) ==>
            && s.workers[w].at < n && s.log[s.workers[w].at] == s.workers[w].batch
            && (|s.backlog.pending| < MAX_PENDING ==> s.workers[w].at == n - 1))
      && (forall i, j :: 0 <= i < j < |s.attempts| ==> s.attempts[i] <= s.attempts[j])
  {
    RunKeepsInv(states, actions, k);
    var s := states[k];
    forall w | 0 <= w < |s.workers| && Carries(s.workers[w])
      ensures CarriedInOrder(s, s.workers[w])
    {
    }
  }

  lemma EnqueueFate(s: System, i: nat, b: nat)
    requires Settled(s) && Enabled(s, Enqueue(i)) && b < |s.fates|
    ensures s.fates[i] == Held
    ensures s.backlog.Full() ==> s.backlog.pending[0] < |s.fates| && s.fates[s.backlog.pending[0]] == Pending
    ensures Step(s, Enqueue(i)).fates[b]
         == if b == i then Pending
            else if s.backlog.Full() && b == s.backlog.pending[0] then Overflowed
            else s.fates[b]
  {
    if s.backlog.Full() {
      assert s.backlog.pending[0] == s.log[First(s)];
      assert s.backlog.pending[0] in s.backlog.pending;
    }
  }

  lemma HandleFate(s: System, w: nat, b: nat)
    requires Accounted(s) && Enabled(s, Handle(w)) && b < |s.fates|
    ensures s.workers[w].batch < |s.fates| && s.fates[s.workers[w].batch] == InFlight
    ensures b != s.workers[w].batch ==> Step(s, Handle(w)).fates[b] == s.fates[b]
  {
    assert InFlightWith(s, s.workers[w].batch);
  }

  lemma EnqueueLosesTheOldest(s: System, i: nat, b: nat)
    requires Inv(s) && Enabled(s, Enqueue(i)) && b < |s.fates|
    requires s.fates[b] != Overflowed && Step(s, Enqueue(i)).fates[b] == Overflowed
    ensures var r := Step(s, Enqueue(i)); 0 <= First(s) < First(r) && First(s) < |r.log| && r.log[First(s)] == b
  {
    EnqueueFate(s, i, b);
    assert s.backlog.pending[0] == s.log[First(s)];
  }

  lemma HandleLosesTheOldest(s: System, w: nat, b: nat)
    requires Inv(s) && Enabled(s, Handle(w)) && b < |s.fates|
    requires s.fates[b] != Overflowed && Step(s, Handle(w)).fates[b] == Overflowed
    ensures var r, at := Step(s, Handle(w)), s.workers[w].at; at < First(r) && at < |r.log| && r.log[at] == b
  {
    HandleFate(s, w, b);
    assert CarriedInOrder(s, s.workers[w]);
  }

  /** Whichever step drops a batch by overflow, everything that is pending afterwards is newer. */
  lemma OverflowLosesTheOldest(s: System, a: Action, b: nat)
    requires Inv(s) && Enabled(s, a) && b < |s.fates|
    requires s.fates[b] != Overflowed && Step(s, a).fates[b] == Overflowed
    ensures var r := Step(s, a);
      && |r.backlog.pending| <= |r.log|
      && r.backlog.pending == r.log[|r.log| - |r.backlog.pending|..]
      && b in r.log[..|r.log| - |r.backlog.pending|]
  {
    StepKeepsInv(s, a);
    if a.Enqueue? {
      EnqueueLosesTheOldest(s, a.i, b);
    } else {
      OnlyTwoOverflow(s, a, b);
      HandleLosesTheOldest(s, a.w, b);
    }
  }

  lemma OnlyTwoOverflow(s: System, a: Action, b: nat)
    requires Enabled(s, a) && b < |s.fates|
    requires s.fates[b] != Overflowed && Step(s, a).fates[b] == Overflowed
    ensures a.Enqueue? || a.Handle?
  {
  }

  // --- Conservation -----------------------------------------------------------------------------

  predicate IsFinal(f: Fate) {
    f == Acknowledged || f == Dropped || f == Overflowed || f == Lost
  }

  function One(b: bool): nat {
    if b then 1 else 0
  }

  /** Every batch is in exactly one place: with its submitter, in the queue, with a worker, or gone in
      one recorded way. The two drop counters count what they should. */
  lemma BatchesAreConserved(states: seq<System>, actions: seq<Action>, k: nat)
    requires IsRun(states, actions) && k < |states|
    ensures var s := states[k];
      && |s.fates| == |s.submitters|
      && (forall b :: 0 <= b < |s.fates| && s.fates[b] != NoBatch ==>
            One(Holds(s.submitters[b])) + One(b in s.backlog.pending) + One(InFlightWith(s, b)) + One(IsFinal(s.fates[b])) == 1)
      && s.backlog.permanentDrops == Sum(s.fates, Is(Dropped))
      && s.backlog.overflowDrops == Sum(s.fates, Is(Overflowed))
  {
    RunKeepsInv(states, actions, k);
  }

  /** Once a batch is gone it stays gone: no step changes a final fate. */
  lemma {:induction false} FinalFateStays(s: System, a: Action, b: nat)
    requires Inv(s) && Enabled(s, a) && b < |s.fates| && IsFinal(s.fates[b])
    ensures Step(s, a).fates[b] == s.fates[b]
  {
    if a.Enqueue? {
      EnqueueFate(s, a.i, b);
    } else if a.Handle? {
      HandleFate(s, a.w, b);
    } else {
      OtherFates(s, a, b);
    }
  }

  lemma OtherFates(s: System, a: Action, b: nat)
    requires Accounted(s) && Enabled(s, a) && b < |s.fates| && IsFinal(s.fates[b])
    requires !a.Enqueue? && !a.Handle?
    ensures Step(s, a).fates[b] == s.fates[b]
  {
    if a.Take? && s.backlog.pending != [] {
      assert s.backlog.pending[0] in s.backlog.pending;
    }
  }

  // --- Uploads ----------------------------------------------------------------------------------

  function SubmitterUploads(t: Submitter): nat {
    if t == Sending then 1 else 0
  }

  function WorkerUploads(w: Worker): nat {
    if w.Uploading? then 1 else 0
  }

  lemma UploadsAreBounded(states: seq<System>, actions: seq<Action>, k: nat)
    requires IsRun(states, actions) && k < |states|
    ensures Sum(states[k].submitters, SubmitterUploads) + Sum(states[k].workers, WorkerUploads) <= MAX_UPLOADS
  {
    RunKeepsInv(states, actions, k);
    SumBelow(states[k].submitters, SubmitterUploads, SubmitterHolds);
    SumBelow(states[k].workers, WorkerUploads, WorkerHolds);
  }

  // --- Workers ----------------------------------------------------------------------------------

  /** The flag is up exactly when a worker is live or about to be spawned; there are never two; and a
      queue that nobody works on has a task that is about to look at it. */
  lemma OneWorkerAndNoLostWakeup(states: seq<System>, actions: seq<Action>, k: nat)
    requires IsRun(states, actions) && k < |states|
    ensures var s := states[k];
      && (s.backlog.flushing <==>
            || (exists w :: 0 <= w < |s.workers| && IsLive(s.workers[w]) == 1)
            || (exists i :: 0 <= i < |s.submitters| && s.submitters[i] == MustSpawn))
      && (forall v, w :: 0 <= v < w < |s.workers| ==> IsLive(s.workers[v]) == 0 || IsLive(s.workers[w]) == 0)
      && (forall w, i :: 0 <= w < |s.workers| && IsLive(s.workers[w]) == 1 && 0 <= i < |s.submitters| ==>
            s.submitters[i] != MustSpawn)
      && (s.backlog.pending != [] && !s.backlog.flushing ==>
            exists i :: 0 <= i < |s.submitters| && WillTrigger(s.submitters[i]))
  {
    RunKeepsInv(states, actions, k);
    var s := states[k];
    SumZero(s.workers, IsLive);
    SumZero(s.submitters, IsSpawning);
    forall i | 0 <= i < |s.submitters| && s.submitters[i] == MustSpawn
      ensures Sum(s.submitters, IsSpawning) >= 1
    {
      SumPart(s.submitters, i, IsSpawning);
    }
    forall w | 0 <= w < |s.workers| && IsLive(s.workers[w]) == 1
      ensures Sum(s.workers, IsLive) >= 1
      ensures forall v :: 0 <= v < |s.workers| && v != w ==> IsLive(s.workers[v]) == 0
    {
      SumPart(s.workers, w, IsLive);
      OnlyWorker(s, w);
    }
  }

  // --- Draining ---------------------------------------------------------------------------------

  /** Not an arrival from outside, and not a failed retry of a worker. */
  predicate IsProgress(s: System, a: Action)
    requires Enabled(s, a)
  {
    && !a.Submit? && !a.Shed? && !a.Connect?
    && (a.WorkerResult? ==> !a.result.Retryable?)
    && (a.Handle? ==> !s.workers[a.w].result.Retryable?)
  }

  function SubmitterWork(t: Submitter): nat {
    match t
    case Fresh => 13
    case Sending => 12
    case MustRequeue => 11
    case MustEnqueue => 10
    case MustCount => 7
    case MustRelease => 6
    case MustTrigger => 5
    case MustSpawn => 4
    case Finished => 0
  }

  function WorkerWork(w: Worker): nat {
    match w
    case Uploading(_, _) => 5
    case Returned(_, _, _) => 4
    case Waiting => 3
    case Permitted => 2
    case Leaving => 1
    case Stopped => 0
  }

  /** A bound on the steps that are left when nothing arrives and no retry fails. */
  function Work(s: System): nat {
    Sum(s.submitters, SubmitterWork) + Sum(s.workers, WorkerWork) + 4 * |s.backlog.pending|
  }

  lemma PendingGrows(s: System, a: Action)
    requires Enabled(s, a) && MovesSubmitter(a)
    ensures |Step(s, a).backlog.pending| <= |s.backlog.pending| + (if a.Enqueue? then 1 else 0)
  {
  }

  /** A submitter moves to a state with less work, by more than what its batch adds to the queue. */
  lemma SubmitterAdvances(s: System, a: Action)
    requires Enabled(s, a) && MovesSubmitter(a)
    ensures a.i < |Step(s, a).submitters|
    ensures SubmitterWork(Step(s, a).submitters[a.i]) + (if a.Enqueue? then 4 else if a.Spawn? then 3 else 0)
          < SubmitterWork(s.submitters[a.i])
    ensures Step(s, a).workers == if a.Spawn? then s.workers + [Waiting] else s.workers
  {
  }

  lemma TaskProgress(s: System, a: Action)
    requires Enabled(s, a) && MovesSubmitter(a)
    ensures Work(Step(s, a)) < Work(s)
  {
    var r := Step(s, a);
    PendingGrows(s, a);
    SubmitterAdvances(s, a);
    OneSubmitterMoves(s, a);
    SumUpdate(s.submitters, a.i, r.submitters[a.i], SubmitterWork);
    SumAppend(s.workers, Waiting, WorkerWork);
  }

  lemma WorkerProgress(s: System, a: Action)
    requires Inv(s) && Enabled(s, a) && MovesWorker(a) && IsProgress(s, a)
    ensures Work(Step(s, a)) < Work(s)
  {
    OneWorkerMoves(s, a);
    WorkerAdvances(s, a);
    SumUpdate(s.workers, a.w, Step(s, a).workers[a.w], WorkerWork);
  }

  /** A worker moves to a state with less work, or takes as much from the queue. */
  lemma WorkerAdvances(s: System, a: Action)
    requires Enabled(s, a) && MovesWorker(a) && IsProgress(s, a)
    ensures a.w < |Step(s, a).workers|
    ensures WorkerWork(Step(s, a).workers[a.w]) + 4 * |Step(s, a).backlog.pending|
          < WorkerWork(s.workers[a.w]) + 4 * |s.backlog.pending|
  {
  }

  lemma OneWorkerMoves(s: System, a: Action)
    requires Enabled(s, a) && MovesWorker(a)
    ensures |Step(s, a).workers| == |s.workers|
    ensures Step(s, a).workers == s.workers[a.w := Step(s, a).workers[a.w]]
    ensures Step(s, a).submitters == s.submitters
  {
  }

  /** From any reachable state, a stretch of a run without arrivals and failed retries is no longer than
      the work left. */
  lemma {:induction false} StretchIsShort(states: seq<System>, actions: seq<Action>)
    requires |states| == |actions| + 1 && Inv(states[0])
    requires forall k :: 0 <= k < |actions| ==>
      Enabled(states[k], actions[k]) && IsProgress(states[k], actions[k]) && states[k + 1] == Step(states[k], actions[k])
    ensures Inv(states[|actions|])
    ensures |actions| + Work(states[|actions|]) <= Work(states[0])
    decreases |actions|
  {
    var n := |actions|;
    if n > 0 {
      assert forall k :: 0 <= k < n ==> states[..n][k] == states[k];
      StretchIsShort(states[..n], actions[..n - 1]);
      var s, a := states[n - 1], actions[n - 1];
      StepKeepsInv(s, a);
      if MovesSubmitter(a) { TaskProgress(s, a); } else { WorkerProgress(s, a); }
    }
  }

  /** No task can take a step of progress. */
  ghost predicate Quiescent(s: System) {
    forall a :: Enabled(s, a) ==> !IsProgress(s, a)
  }

  lemma QuietSubmitters(s: System)
    requires Quiescent(s)
    ensures forall i :: 0 <= i < |s.submitters| ==> s.submitters[i] == Finished
  {
    forall i | 0 <= i < |s.submitters|
      ensures s.submitters[i] == Finished
    {
      assert !Enabled(s, TryDirect(i)) && !Enabled(s, DirectResult(i, Accepted)) && !Enabled(s, Enqueue(i));
      assert !Enabled(s, Count(i)) && !Enabled(s, Release(i)) && !Enabled(s, Trigger(i)) && !Enabled(s, Spawn(i));
    }
  }

  predicate Asleep(s: System, w: Worker) {
    w == Stopped || (w == Waiting && s.permits == 0) || (w.Returned? && w.result.Retryable?)
  }

  lemma QuietWorkers(s: System)
    requires Quiescent(s)
    ensures forall w :: 0 <= w < |s.workers| ==> Asleep(s, s.workers[w])
  {
    forall w | 0 <= w < |s.workers|
      ensures Asleep(s, s.workers[w])
    {
      assert !Enabled(s, Acquire(w)) && !Enabled(s, Take(w)) && !Enabled(s, WorkerResult(w, Accepted));
      assert !Enabled(s, Leave(w));
      if s.workers[w].Returned? { assert Enabled(s, Handle(w)); }
    }
  }

  /** When no progress is possible and no failed retry is waiting to be put back, the pipeline has
      drained: all permits are back, no worker is left, the flag is down, the queue is empty, and every
      batch is gone in a recorded way. */
  lemma QuiescentIsDrained(s: System)
    requires Inv(s) && Quiescent(s)
    requires forall w :: 0 <= w < |s.workers| && s.workers[w].Returned? ==> !s.workers[w].result.Retryable?
    ensures s.permits == MAX_UPLOADS && !s.backlog.flushing && s.backlog.pending == []
    ensures forall w :: 0 <= w < |s.workers| ==> s.workers[w] == Stopped
    ensures forall b :: 0 <= b < |s.fates| ==> s.fates[b] == NoBatch || IsFinal(s.fates[b])
  {
    QuietSubmitters(s);
    QuietWorkers(s);
    SumZero(s.submitters, SubmitterHolds);
    SumZero(s.workers, WorkerHolds);
    SumZero(s.submitters, IsSpawning);
    SumZero(s.workers, IsLive);
    assert forall i :: 0 <= i < |s.submitters| ==> !WillTrigger(s.submitters[i]);
    assert s.backlog.pending == [];
    NobodyHasABatch(s);
  }

  lemma NobodyHasABatch(s: System)
    requires Accounted(s) && s.backlog.pending == []
    requires forall i :: 0 <= i < |s.submitters| ==> s.submitters[i] == Finished
    requires forall w :: 0 <= w < |s.workers| ==> s.workers[w] == Stopped
    ensures forall b :: 0 <= b < |s.fates| ==> s.fates[b] == NoBatch || IsFinal(s.fates[b])
  {
  }
}

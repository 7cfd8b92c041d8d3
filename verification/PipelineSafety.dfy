/** What holds in every reachable state of the upload pipeline, whatever the interleaving. */
module PipelineSafety {
  import opened Outcomes
  import opened Sums
  import opened Backlog
  import opened TelemetryPipeline

  // --- The invariant ----------------------------------------------------------------------------

  function SubmitterHolds(t: Submitter): nat {
    match t
    case Sending => 1
    case MustRequeue => 1
    case MustCount => 1
    case MustRelease => 1
    case _ => 0
  }

  function WorkerHolds(w: Worker): nat {
    match w
    case Permitted => 1
    case Uploading(_, _) => 1
    case Leaving => 1
    case _ => 0
  }

  /** A worker that will look at the queue again. */
  function IsLive(w: Worker): nat {
    match w
    case Leaving => 0
    case Stopped => 0
    case _ => 1
  }

  function IsSpawning(t: Submitter): nat {
    if t == MustSpawn then 1 else 0
  }

  function LiveWorkers(s: System): nat {
    Sum(s.workers, IsLive) + Sum(s.submitters, IsSpawning)
  }

  function HeldPermits(s: System): nat {
    Sum(s.submitters, SubmitterHolds) + Sum(s.workers, WorkerHolds)
  }

  predicate WillTrigger(t: Submitter) {
    t == MustRelease || t == MustTrigger
  }

  /** A non-empty queue has a worker, or a task that is about to look whether it needs one. */
  predicate NoLostWakeup(s: System) {
    s.backlog.pending == [] || s.backlog.flushing || exists i :: 0 <= i < |s.submitters| && WillTrigger(s.submitters[i])
  }

  predicate Carries(w: Worker) {
    w.Uploading? || w.Returned?
  }

  /** The place in the log of the oldest pending batch. */
  function First(s: System): int {
    |s.log| - |s.backlog.pending|
  }

  /** The queue is the newest part of the log. What a worker carries is older, and is its immediate
      predecessor unless the queue is full. Workers took batches in the order of the log. */
  predicate InOrder(s: System) {
    && |s.backlog.pending| <= MAX_PENDING
    && 0 <= First(s)
    && s.backlog.pending == s.log[First(s)..]
    && (forall k, l :: 0 <= k < l < |s.log| ==> s.log[k] != s.log[l])
    && (forall w :: 0 <= w < |s.workers| && Carries(s.workers[w]) ==> CarriedInOrder(s, s.workers[w]))
    && (forall k, l :: 0 <= k < l < |s.attempts| ==> s.attempts[k] <= s.attempts[l])
    && (forall k :: 0 <= k < |s.attempts| ==> s.attempts[k] <= First(s))
  }

  predicate CarriedInOrder(s: System, w: Worker)
    requires Carries(w)
  {
    && w.at < First(s) && s.log[w.at] == w.batch
    && (!s.backlog.Full() ==> w.at == First(s) - 1)
    && (forall k :: 0 <= k < |s.attempts| ==> s.attempts[k] <= w.at)
  }

  predicate Holds(t: Submitter) {
    t == Fresh || t == Sending || t == MustRequeue || t == MustCount || t == MustEnqueue
  }

  predicate InFlightWith(s: System, b: nat) {
    exists w :: 0 <= w < |s.workers| && Carries(s.workers[w]) && s.workers[w].batch == b
  }

  /** The account of the batches agrees with where they are. */
  predicate Accounted(s: System) {
    && |s.fates| == |s.submitters|
    && (forall k :: 0 <= k < |s.log| ==> s.log[k] < |s.fates| && s.fates[s.log[k]] != Held && s.fates[s.log[k]] != NoBatch)
    && (forall b :: 0 <= b < |s.fates| ==> (s.fates[b] == Held <==> Holds(s.submitters[b])))
    && (forall b :: 0 <= b < |s.fates| ==> (s.fates[b] == Pending <==> b in s.backlog.pending))
    && (forall b :: 0 <= b < |s.fates| ==> (s.fates[b] == InFlight <==> InFlightWith(s, b)))
    && (forall w :: 0 <= w < |s.workers| && Carries(s.workers[w]) ==> s.workers[w].batch < |s.fates|)
  }

  function Is(fate: Fate): Fate -> nat {
    f => if f == fate then 1 else 0
  }

  predicate CountersAgree(s: System) {
    && s.backlog.permanentDrops == Sum(s.fates, Is(Dropped))
    && s.backlog.overflowDrops == Sum(s.fates, Is(Overflowed))
  }

  predicate Balanced(s: System) {
    s.permits + HeldPermits(s) == MAX_UPLOADS && LiveWorkers(s) == (if s.backlog.flushing then 1 else 0)
  }

  predicate Settled(s: System) {
    InOrder(s) && Accounted(s) && CountersAgree(s)
  }

  predicate Inv(s: System) {
    Balanced(s) && NoLostWakeup(s) && Settled(s)
  }

  lemma InitialInv()
    ensures Inv(Initial())
  {
  }

  // --- Sums after a move ------------------------------------------------------------------------

  lemma MoveSums(s: System, i: nat, task: Submitter)
    requires i < |s.submitters|
    ensures Sum(s.submitters[i := task], SubmitterHolds) + SubmitterHolds(s.submitters[i])
         == Sum(s.submitters, SubmitterHolds) + SubmitterHolds(task)
    ensures Sum(s.submitters[i := task], IsSpawning) + IsSpawning(s.submitters[i])
         == Sum(s.submitters, IsSpawning) + IsSpawning(task)
  {
    SumUpdate(s.submitters, i, task, SubmitterHolds);
    SumUpdate(s.submitters, i, task, IsSpawning);
  }

  lemma WorkerSums(s: System, w: nat, worker: Worker)
    requires w < |s.workers|
    ensures Sum(s.workers[w := worker], WorkerHolds) + WorkerHolds(s.workers[w])
         == Sum(s.workers, WorkerHolds) + WorkerHolds(worker)
    ensures Sum(s.workers[w := worker], IsLive) + IsLive(s.workers[w]) == Sum(s.workers, IsLive) + IsLive(worker)
  {
    SumUpdate(s.workers, w, worker, WorkerHolds);
    SumUpdate(s.workers, w, worker, IsLive);
  }

  /** A live worker is the only one, nobody is spawning another, and the flag is up. */
  lemma OnlyWorker(s: System, w: nat)
    requires Balanced(s) && w < |s.workers| && IsLive(s.workers[w]) == 1
    ensures s.backlog.flushing
    ensures forall v :: 0 <= v < |s.workers| && v != w ==> IsLive(s.workers[v]) == 0
  {
    SumPart(s.workers, w, IsLive);
    forall v | 0 <= v < |s.workers| && v != w
      ensures IsLive(s.workers[v]) == 0
    {
      if v < w { SumParts(s.workers, v, w, IsLive); } else { SumParts(s.workers, w, v, IsLive); }
    }
  }

  lemma SettleSums(s: System, b: nat, fate: Fate)
    requires b < |s.fates|
    ensures Sum(s.fates[b := fate], Is(Dropped)) + Is(Dropped)(s.fates[b]) == Sum(s.fates, Is(Dropped)) + Is(Dropped)(fate)
    ensures Sum(s.fates[b := fate], Is(Overflowed)) + Is(Overflowed)(s.fates[b])
         == Sum(s.fates, Is(Overflowed)) + Is(Overflowed)(fate)
  {
    SumUpdate(s.fates, b, fate, Is(Dropped));
    SumUpdate(s.fates, b, fate, Is(Overflowed));
  }

  // --- Permits and workers ----------------------------------------------------------------------

  predicate MovesSubmitter(a: Action) {
    a.TryDirect? || a.DirectResult? || a.Abort? || a.Enqueue? || a.Count? || a.Release? || a.Trigger? || a.Spawn?
  }

  lemma MoveKeepsBalance(s: System, a: Action)
    requires Balanced(s) && Enabled(s, a) && MovesSubmitter(a) && !a.Spawn?
    ensures Balanced(Step(s, a))
  {
    var r := Step(s, a);
    OneSubmitterMoves(s, a);
    MoveSums(s, a.i, r.submitters[a.i]);
  }

  lemma OneSubmitterMoves(s: System, a: Action)
    requires Enabled(s, a) && MovesSubmitter(a)
    ensures |Step(s, a).submitters| == |s.submitters|
    ensures Step(s, a).submitters == s.submitters[a.i := Step(s, a).submitters[a.i]]
    ensures !a.Spawn? ==> Step(s, a).workers == s.workers
  {
  }

  lemma SpawnKeepsBalance(s: System, i: nat)
    requires Balanced(s) && Enabled(s, Spawn(i))
    ensures Balanced(Step(s, Spawn(i)))
  {
    var r := Step(s, Spawn(i));
    assert r.submitters == s.submitters[i := Finished] && r.workers == s.workers + [Waiting];
    assert r.permits == s.permits && r.backlog.flushing == s.backlog.flushing;
    SpawnSums(s, i);
  }

  lemma SpawnSums(s: System, i: nat)
    requires i < |s.submitters| && IsSpawning(s.submitters[i]) == 1
    ensures Sum(s.submitters[i := Finished], SubmitterHolds) == Sum(s.submitters, SubmitterHolds)
    ensures Sum(s.submitters[i := Finished], IsSpawning) == Sum(s.submitters, IsSpawning) - 1
    ensures Sum(s.workers + [Waiting], WorkerHolds) == Sum(s.workers, WorkerHolds)
    ensures Sum(s.workers + [Waiting], IsLive) == Sum(s.workers, IsLive) + 1
  {
    MoveSums(s, i, Finished);
    SumAppend(s.workers, Waiting, WorkerHolds);
    SumAppend(s.workers, Waiting, IsLive);
  }

  lemma NewTaskKeepsBalance(s: System, task: Submitter, fate: Fate)
    requires Balanced(s) && SubmitterHolds(task) == 0 && IsSpawning(task) == 0
    ensures Balanced(NewTask(s, task, fate))
  {
    var r := NewTask(s, task, fate);
    AppendSums(s, task);
    assert r.workers == s.workers && HeldPermits(r) == HeldPermits(s) && LiveWorkers(r) == LiveWorkers(s);
  }

  lemma AppendSums(s: System, task: Submitter)
    ensures Sum(s.submitters + [task], SubmitterHolds) == Sum(s.submitters, SubmitterHolds) + SubmitterHolds(task)
    ensures Sum(s.submitters + [task], IsSpawning) == Sum(s.submitters, IsSpawning) + IsSpawning(task)
  {
    SumAppend(s.submitters, task, SubmitterHolds);
    SumAppend(s.submitters, task, IsSpawning);
  }

  lemma WorkerKeepsBalance(s: System, a: Action)
    requires Balanced(s) && Enabled(s, a)
    requires MovesWorker(a)
    ensures Balanced(Step(s, a))
  {
    var r, w := Step(s, a), a.w;
    assert r.workers == s.workers[w := r.workers[w]] && r.submitters == s.submitters;
    SumPart(s.workers, w, IsLive);
    WorkerMoves(s, a, r);
    WorkerSums(s, w, r.workers[w]);
  }

  /** A worker takes and returns its own permit, and takes the flag down as it goes. */
  lemma WorkerMoves(s: System, a: Action, r: System)
    requires Enabled(s, a) && MovesWorker(a) && r == Step(s, a)
    requires IsLive(s.workers[a.w]) == 1 ==> s.backlog.flushing
    ensures r.permits + WorkerHolds(r.workers[a.w]) == s.permits + WorkerHolds(s.workers[a.w])
    ensures IsLive(s.workers[a.w]) == 0 ==> IsLive(r.workers[a.w]) == 0 && r.backlog.flushing == s.backlog.flushing
    ensures IsLive(s.workers[a.w]) == 1 ==> r.backlog.flushing == (IsLive(r.workers[a.w]) == 1)
  {
  }

  // --- Wake-ups ---------------------------------------------------------------------------------

  lemma WakerStays(s: System, a: Action, i: nat)
    requires Enabled(s, a) && i < |s.submitters| && WillTrigger(s.submitters[i])
    requires !Step(s, a).backlog.flushing && Step(s, a).backlog.pending != []
    ensures i < |Step(s, a).submitters| && WillTrigger(Step(s, a).submitters[i])
  {
  }

  lemma QueueWasThere(s: System, a: Action)
    requires Enabled(s, a) && !a.Enqueue?
    requires a.Handle? ==> s.backlog.flushing
    requires !Step(s, a).backlog.flushing && Step(s, a).backlog.pending != []
    ensures !s.backlog.flushing && s.backlog.pending != []
  {
  }

  lemma WakeupIsKept(s: System, a: Action)
    requires Inv(s) && Enabled(s, a)
    ensures NoLostWakeup(Step(s, a))
  {
    var r := Step(s, a);
    if !r.backlog.flushing && r.backlog.pending != [] {
      if a.Enqueue? {
        assert WillTrigger(r.submitters[a.i]);
      } else {
        if a.Handle? { OnlyWorker(s, a.w); }
        QueueWasThere(s, a);
        var i :| 0 <= i < |s.submitters| && WillTrigger(s.submitters[i]);
        WakerStays(s, a, i);
      }
    }
  }

  // --- The account, for tasks -------------------------------------------------------------------

  /** Nothing but submitters changes, and what they hold stays the same. */
  predicate SameBatches(s: System, r: System) {
    && r == s.(submitters := r.submitters, permits := r.permits, workers := r.workers,
               backlog := s.backlog.(flushing := r.backlog.flushing))
    && |r.submitters| == |s.submitters|
    && (forall i :: 0 <= i < |s.submitters| ==> Holds(r.submitters[i]) == Holds(s.submitters[i]))
    && |s.workers| <= |r.workers|
    && (forall w :: 0 <= w < |s.workers| ==> r.workers[w] == s.workers[w])
    && (forall w :: |s.workers| <= w < |r.workers| ==> !Carries(r.workers[w]))
  }

  lemma SameBatchesSettled(s: System, r: System)
    requires Settled(s) && SameBatches(s, r)
    ensures Settled(r)
  {
    assert forall w :: 0 <= w < |s.workers| ==> r.workers[w] == s.workers[w];
    forall b | 0 <= b < |s.fates|
      ensures InFlightWith(r, b) == InFlightWith(s, b)
    {
      if InFlightWith(s, b) {
        var w :| 0 <= w < |s.workers| && Carries(s.workers[w]) && s.workers[w].batch == b;
        assert Carries(r.workers[w]) && r.workers[w].batch == b;
      }
    }
  }

  lemma NewTaskSettled(s: System, task: Submitter, fate: Fate)
    requires Settled(s)
    requires (fate == Held && Holds(task)) || (fate == NoBatch && !Holds(task))
    ensures Settled(NewTask(s, task, fate))
  {
    var r := NewTask(s, task, fate);
    SumAppend(s.fates, fate, Is(Dropped));
    SumAppend(s.fates, fate, Is(Overflowed));
    forall b | 0 <= b < |r.fates|
      ensures r.fates[b] == InFlight <==> InFlightWith(r, b)
      ensures r.fates[b] == Pending <==> b in r.backlog.pending
    {
      assert InFlightWith(r, b) <==> InFlightWith(s, b);
      if b == |s.fates| { assert forall k :: 0 <= k < |s.log| ==> s.log[k] != b; }
    }
  }

  /** The order only depends on the queue, the log, the attempts and the workers. */
  lemma InOrderAside(s: System, r: System)
    requires InOrder(s) && r.backlog.pending == s.backlog.pending
    requires r.log == s.log && r.attempts == s.attempts && r.workers == s.workers
    ensures InOrder(r)
  {
    forall w | 0 <= w < |r.workers| && Carries(r.workers[w])
      ensures CarriedInOrder(r, r.workers[w])
    {
      assert CarriedInOrder(s, s.workers[w]);
    }
  }

  lemma HeldAccounted(s: System, r: System, i: nat, task: Submitter, fate: Fate)
    requires Accounted(s) && i < |s.submitters| && Holds(s.submitters[i]) && !Holds(task)
    requires fate == Acknowledged || fate == Dropped || fate == Lost
    requires r.fates == s.fates[i := fate] && r.submitters == s.submitters[i := task]
    requires r.workers == s.workers && r.log == s.log && r.backlog.pending == s.backlog.pending
    ensures Accounted(r)
  {
    assert forall k :: 0 <= k < |s.log| ==> s.log[k] != i;
    assert forall b :: InFlightWith(r, b) <==> InFlightWith(s, b);
  }

  /** A batch that its submitter still held is settled for good. */
  lemma HeldIsSettled(s: System, i: nat, task: Submitter, fate: Fate, drops: nat)
    requires Settled(s) && i < |s.submitters| && Holds(s.submitters[i]) && !Holds(task)
    requires fate == Acknowledged || fate == Dropped || fate == Lost
    requires drops == s.backlog.permanentDrops + (if fate == Dropped then 1 else 0)
    ensures Settled(Settle(MoveTo(s, i, task), i, fate).(backlog := s.backlog.(permanentDrops := drops)))
  {
    var r := Settle(MoveTo(s, i, task), i, fate).(backlog := s.backlog.(permanentDrops := drops));
    SettleSums(s, i, fate);
    InOrderAside(s, r);
    HeldAccounted(s, r, i, task, fate);
  }

  lemma PermitsAside(s: System, r: System)
    requires Settled(s) && r == s.(permits := r.permits)
    ensures Settled(r)
  {
    InOrderAside(s, r);
    assert forall b :: InFlightWith(r, b) <==> InFlightWith(s, b);
  }

  // --- Enqueueing -------------------------------------------------------------------------------

  lemma EnqueueInOrder(s: System, i: nat, task: Submitter)
    requires Settled(s) && i < |s.submitters| && Holds(s.submitters[i]) && !Holds(task)
    ensures InOrder(EnqueueBatch(MoveTo(s, i, task), i))
  {
    var r := EnqueueBatch(MoveTo(s, i, task), i);
    assert forall k :: 0 <= k < |s.log| ==> s.log[k] != i;
    assert First(r) == if s.backlog.Full() then First(s) + 1 else First(s);
    assert r.backlog.pending == r.log[First(r)..];
    forall w | 0 <= w < |r.workers| && Carries(r.workers[w])
      ensures CarriedInOrder(r, r.workers[w])
    {
      assert CarriedInOrder(s, s.workers[w]);
    }
  }

  lemma EnqueueAccounted(s: System, i: nat, task: Submitter)
    requires Settled(s) && i < |s.submitters| && Holds(s.submitters[i]) && !Holds(task)
    ensures Accounted(EnqueueBatch(MoveTo(s, i, task), i))
    ensures CountersAgree(EnqueueBatch(MoveTo(s, i, task), i))
  {
    assert forall k :: 0 <= k < |s.log| ==> s.log[k] != i;
    if s.backlog.Full() {
      OverflowAccounted(s, i, task);
    } else {
      AppendAccounted(s, i, task);
    }
  }

  lemma AppendAccounted(s: System, i: nat, task: Submitter)
    requires Settled(s) && i < |s.submitters| && Holds(s.submitters[i]) && !Holds(task) && !s.backlog.Full()
    requires forall k :: 0 <= k < |s.log| ==> s.log[k] != i
    ensures Accounted(EnqueueBatch(MoveTo(s, i, task), i))
    ensures CountersAgree(EnqueueBatch(MoveTo(s, i, task), i))
  {
    var r := EnqueueBatch(MoveTo(s, i, task), i);
    assert forall b :: InFlightWith(r, b) <==> InFlightWith(s, b);
    SettleSums(s, i, Pending);
  }

  lemma OverflowAccounted(s: System, i: nat, task: Submitter)
    requires Settled(s) && i < |s.submitters| && Holds(s.submitters[i]) && !Holds(task) && s.backlog.Full()
    requires forall k :: 0 <= k < |s.log| ==> s.log[k] != i
    ensures Accounted(EnqueueBatch(MoveTo(s, i, task), i))
    ensures CountersAgree(EnqueueBatch(MoveTo(s, i, task), i))
  {
    var r, victim := EnqueueBatch(MoveTo(s, i, task), i), s.backlog.pending[0];
    assert victim in s.backlog.pending && victim == s.log[First(s)];
    assert r.fates == s.fates[victim := Overflowed][i := Pending];
    assert r.workers == s.workers;
    VictimLeaves(s, i);
    SameCarriers(s, r);
    SettleSums(s, victim, Overflowed);
    SettleSums(s.(fates := s.fates[victim := Overflowed]), i, Pending);
    FatesAfterOverflow(s, r, i, victim);
  }

  lemma SameCarriers(s: System, r: System)
    requires r.workers == s.workers
    ensures forall b :: InFlightWith(r, b) <==> InFlightWith(s, b)
  {
  }

  lemma FatesAfterOverflow(s: System, r: System, i: nat, victim: nat)
    requires Accounted(s) && i < |s.submitters| && victim < |s.fates| && i != victim
    requires s.fates[i] == Held && s.fates[victim] == Pending
    requires r.fates == s.fates[victim := Overflowed][i := Pending]
    requires r.log == s.log + [i] && r.workers == s.workers
    requires |r.submitters| == |s.submitters| && !Holds(r.submitters[i])
    requires forall b :: 0 <= b < |s.submitters| && b != i ==> r.submitters[b] == s.submitters[b]
    requires forall b :: InFlightWith(r, b) <==> InFlightWith(s, b)
    requires forall b :: b in r.backlog.pending <==> b == i || (b in s.backlog.pending && b != victim)
    ensures Accounted(r)
  {
  }

  /** The batch that overflows is pending once, so that it is gone. */
  lemma VictimLeaves(s: System, i: nat)
    requires InOrder(s) && s.backlog.Full()
    ensures forall b :: b in s.backlog.pending[1..] + [i] <==> b == i || (b in s.backlog.pending && b != s.backlog.pending[0])
  {
    var pending := s.backlog.pending;
    assert forall k :: 0 <= k < |pending| ==> pending[k] == s.log[First(s) + k];
    forall b | b in pending && b != pending[0]
      ensures b in pending[1..]
    {
      var k :| 0 <= k < |pending| && pending[k] == b;
      assert pending[1..][k - 1] == b;
    }
  }

  // --- The account, for workers -----------------------------------------------------------------

  /** At most one worker carries a batch, since at most one is live. */
  lemma OnlyCarrier(s: System, w: nat)
    requires Balanced(s) && w < |s.workers| && IsLive(s.workers[w]) == 1
    ensures forall v :: 0 <= v < |s.workers| && v != w ==> !Carries(s.workers[v])
    ensures forall b :: InFlightWith(s, b) <==> Carries(s.workers[w]) && s.workers[w].batch == b
  {
    OnlyWorker(s, w);
    assert forall v :: 0 <= v < |s.workers| && Carries(s.workers[v]) ==> IsLive(s.workers[v]) == 1;
  }

  /** A worker that carries nothing, before and after. */
  lemma IdleWorkerSettled(s: System, w: nat, worker: Worker)
    requires Settled(s) && w < |s.workers| && !Carries(s.workers[w]) && !Carries(worker)
    ensures Settled(MoveWorker(s, w, worker))
  {
    var r := MoveWorker(s, w, worker);
    forall b
      ensures InFlightWith(r, b) <==> InFlightWith(s, b)
    {
      if InFlightWith(s, b) {
        var v :| 0 <= v < |s.workers| && Carries(s.workers[v]) && s.workers[v].batch == b;
        assert r.workers[v] == s.workers[v];
      }
    }
    assert forall v :: 0 <= v < |r.workers| && Carries(r.workers[v]) ==> r.workers[v] == s.workers[v];
  }

  /** A worker that still carries the same batch. */
  predicate CarriesOn(s: System, w: nat, worker: Worker) {
    && w < |s.workers| && Carries(s.workers[w]) && Carries(worker)
    && worker.batch == s.workers[w].batch && worker.at == s.workers[w].at
  }

  lemma CarryingInOrder(s: System, w: nat, worker: Worker)
    requires InOrder(s) && CarriesOn(s, w, worker)
    ensures InOrder(MoveWorker(s, w, worker))
  {
    var r := MoveWorker(s, w, worker);
    forall v | 0 <= v < |r.workers| && Carries(r.workers[v])
      ensures CarriedInOrder(r, r.workers[v])
    {
      assert Carries(s.workers[v]) && CarriedInOrder(s, s.workers[v]);
    }
  }

  lemma CarryingAccounted(s: System, w: nat, worker: Worker)
    requires Accounted(s) && CarriesOn(s, w, worker)
    ensures Accounted(MoveWorker(s, w, worker))
  {
    var r := MoveWorker(s, w, worker);
    forall b
      ensures InFlightWith(r, b) <==> InFlightWith(s, b)
    {
      if InFlightWith(s, b) {
        var v :| 0 <= v < |s.workers| && Carries(s.workers[v]) && s.workers[v].batch == b;
        assert Carries(r.workers[v]) && r.workers[v].batch == b;
      }
    }
  }

  /** The place that a worker notes is that of the oldest pending batch. */
  lemma TakeMoves(s: System, w: nat)
    requires InOrder(s) && Enabled(s, Take(w)) && s.backlog.pending != []
    ensures Step(s, Take(w)).workers == s.workers[w := Uploading(s.backlog.pending[0], First(s))]
    ensures Step(s, Take(w)).attempts == s.attempts + [First(s)]
    ensures First(Step(s, Take(w))) == First(s) + 1
    ensures First(s) < |s.log| && s.backlog.pending[0] == s.log[First(s)]
  {
  }

  lemma TakeInOrder(s: System, w: nat)
    requires Balanced(s) && InOrder(s) && Enabled(s, Take(w)) && s.backlog.pending != []
    ensures InOrder(Step(s, Take(w)))
  {
    var r := Step(s, Take(w));
    OnlyCarrier(s, w);
    TakeMoves(s, w);
    assert r.log == s.log && r.backlog.pending == r.log[First(r)..];
    assert forall v :: 0 <= v < |r.workers| && v != w ==> r.workers[v] == s.workers[v];
    assert CarriedInOrder(r, r.workers[w]);
  }

  /** Taking the oldest batch moves it from the queue to a worker, and nothing else. */
  lemma TakenIsInFlight(s: System, w: nat)
    requires Balanced(s) && Settled(s) && Enabled(s, Take(w)) && s.backlog.pending != []
    ensures forall b :: InFlightWith(Step(s, Take(w)), b) <==> b == s.backlog.pending[0]
    ensures forall b :: !InFlightWith(s, b)
  {
    var r := Step(s, Take(w));
    OnlyCarrier(s, w);
    TakeMoves(s, w);
    assert forall v :: 0 <= v < |r.workers| && v != w ==> r.workers[v] == s.workers[v];
    assert Carries(r.workers[w]) && r.workers[w].batch == s.backlog.pending[0];
  }

  lemma TakeMovesFate(s: System, w: nat)
    requires Settled(s) && Enabled(s, Take(w)) && s.backlog.pending != []
    ensures var r, batch := Step(s, Take(w)), s.backlog.pending[0];
      && batch < |s.fates| && s.fates[batch] == Pending
      && r.fates == s.fates[batch := InFlight] && r.backlog.pending == s.backlog.pending[1..]
      && r.log == s.log && r.submitters == s.submitters
      && r.backlog.permanentDrops == s.backlog.permanentDrops && r.backlog.overflowDrops == s.backlog.overflowDrops
  {
    assert s.backlog.pending[0] == s.log[First(s)];
    assert s.backlog.pending[0] in s.backlog.pending;
  }

  lemma TakeAccounted(s: System, w: nat)
    requires Balanced(s) && Settled(s) && Enabled(s, Take(w)) && s.backlog.pending != []
    ensures Accounted(Step(s, Take(w)))
  {
    var r := Step(s, Take(w));
    TakenIsInFlight(s, w);
    TakeMovesFate(s, w);
    FrontLeaves(s);
    forall v | 0 <= v < |r.workers| && Carries(r.workers[v])
      ensures r.workers[v].batch < |r.fates|
    {
      assert InFlightWith(r, r.workers[v].batch);
    }
  }

  lemma TakeSettled(s: System, w: nat)
    requires Balanced(s) && Settled(s) && Enabled(s, Take(w)) && s.backlog.pending != []
    ensures Settled(Step(s, Take(w)))
  {
    TakeInOrder(s, w);
    TakeAccounted(s, w);
    TakeMovesFate(s, w);
    SettleSums(s, s.backlog.pending[0], InFlight);
  }

  lemma FrontLeaves(s: System)
    requires InOrder(s) && s.backlog.pending != []
    ensures forall b :: b in s.backlog.pending[1..] <==> b in s.backlog.pending && b != s.backlog.pending[0]
  {
    var pending := s.backlog.pending;
    assert forall k :: 0 <= k < |pending| ==> pending[k] == s.log[First(s) + k];
    forall b | b in pending && b != pending[0]
      ensures b in pending[1..]
    {
      var k :| 0 <= k < |pending| && pending[k] == b;
      assert pending[1..][k - 1] == b;
    }
  }

  lemma LetGo(s: System, r: System, w: nat)
    requires Balanced(s) && Accounted(s) && w < |s.workers| && s.workers[w].Returned?
    requires r.workers == s.workers[w := Waiting]
    ensures forall v :: 0 <= v < |r.workers| ==> !Carries(r.workers[v])
    ensures forall b :: !InFlightWith(r, b)
    ensures s.workers[w].batch < |s.fates| && s.fates[s.workers[w].batch] == InFlight
    ensures forall b :: 0 <= b < |s.fates| && s.fates[b] == InFlight ==> b == s.workers[w].batch
  {
    OnlyCarrier(s, w);
    assert InFlightWith(s, s.workers[w].batch);
  }

  /** The worker's batch is settled for good. */
  lemma CarriedIsSettled(s: System, r: System, w: nat, fate: Fate, drops: nat)
    requires Balanced(s) && Settled(s) && w < |s.workers| && s.workers[w].Returned?
    requires fate == Acknowledged || fate == Dropped
    requires drops == s.backlog.permanentDrops + (if fate == Dropped then 1 else 0)
    requires r == Settle(MoveWorker(s, w, Waiting), s.workers[w].batch, fate)
                  .(backlog := s.backlog.(permanentDrops := drops))
    ensures Settled(r)
  {
    LetGo(s, r, w);
    SettleSums(s, s.workers[w].batch, fate);
    assert r.fates == s.fates[s.workers[w].batch := fate];
    SettledAccounted(s, r, w, fate);
  }

  lemma SettledAccounted(s: System, r: System, w: nat, fate: Fate)
    requires Balanced(s) && Settled(s) && w < |s.workers| && s.workers[w].Returned?
    requires fate == Acknowledged || fate == Dropped
    requires s.workers[w].batch < |s.fates| && r.fates == s.fates[s.workers[w].batch := fate]
    requires r.workers == s.workers[w := Waiting] && r.submitters == s.submitters
    requires r.log == s.log && r.backlog.pending == s.backlog.pending
    ensures Accounted(r)
  {
    LetGo(s, r, w);
  }

  /** A batch that goes back to the front was the immediate predecessor of the queue. */
  lemma RestoreInOrder(s: System, w: nat)
    requires Balanced(s) && Settled(s) && w < |s.workers| && s.workers[w].Returned?
    ensures InOrder(RestoreBatch(MoveWorker(s, w, Waiting), s.workers[w].batch))
  {
    var r := RestoreBatch(MoveWorker(s, w, Waiting), s.workers[w].batch);
    LetGo(s, r, w);
    RestoredQueue(s, r, s.workers[w]);
  }

  lemma RestoredQueue(s: System, r: System, worker: Worker)
    requires InOrder(s) && worker in s.workers && worker.Returned?
    requires r.backlog == s.backlog.Restore(worker.batch)
    requires r.log == s.log && r.attempts == s.attempts
    ensures |r.backlog.pending| <= MAX_PENDING && 0 <= First(r) && r.backlog.pending == r.log[First(r)..]
    ensures forall k :: 0 <= k < |r.attempts| ==> r.attempts[k] <= First(r)
  {
    var at := worker.at;
    assert CarriedInOrder(s, worker);
    if !s.backlog.Full() {
      assert s.log[at..] == [s.log[at]] + s.log[First(s)..];
    }
  }

  lemma RestoreAccounted(s: System, w: nat)
    requires Balanced(s) && Settled(s) && w < |s.workers| && s.workers[w].Returned?
    ensures Accounted(RestoreBatch(MoveWorker(s, w, Waiting), s.workers[w].batch))
  {
    var batch := s.workers[w].batch;
    var r := RestoreBatch(MoveWorker(s, w, Waiting), batch);
    LetGo(s, r, w);
    if !s.backlog.Full() {
      assert forall b :: b in r.backlog.pending <==> b == batch || b in s.backlog.pending;
    }
  }

  lemma RestoreSettled(s: System, r: System, w: nat)
    requires Balanced(s) && Settled(s) && w < |s.workers| && s.workers[w].Returned?
    requires r == RestoreBatch(MoveWorker(s, w, Waiting), s.workers[w].batch)
    ensures Settled(r)
  {
    RestoreInOrder(s, w);
    RestoreAccounted(s, w);
    SettleSums(s, s.workers[w].batch, if s.backlog.Full() then Overflowed else Pending);
    assert InFlightWith(s, s.workers[w].batch);
  }

  // --- Every step -------------------------------------------------------------------------------

  predicate IsQuiet(s: System, a: Action)
    requires Enabled(s, a)
  {
    a.TryDirect? || (a.DirectResult? && !a.result.Accepted?) || a.Release? || a.Trigger? || a.Spawn?
  }

  lemma QuietStep(s: System, a: Action)
    requires Enabled(s, a) && IsQuiet(s, a)
    ensures SameBatches(s, Step(s, a))
  {
  }

  lemma AbortKeepsSettled(s: System, i: nat)
    requires Settled(s) && Enabled(s, Abort(i))
    ensures Settled(Step(s, Abort(i)))
  {
    var r := Settle(MoveTo(s, i, Finished), i, Lost).(backlog := s.backlog.(permanentDrops := s.backlog.permanentDrops));
    HeldIsSettled(s, i, Finished, Lost, s.backlog.permanentDrops);
    PermitsAside(r, Step(s, Abort(i)));
  }

  lemma EnqueueKeepsSettled(s: System, i: nat)
    requires Settled(s) && Enabled(s, Enqueue(i))
    ensures Settled(Step(s, Enqueue(i)))
  {
    var task := if s.submitters[i] == MustEnqueue then MustTrigger else MustRelease;
    EnqueueInOrder(s, i, task);
    EnqueueAccounted(s, i, task);
  }

  lemma TaskKeepsSettled(s: System, a: Action)
    requires Settled(s) && Enabled(s, a) && MovesSubmitter(a)
    ensures Settled(Step(s, a))
  {
    if IsQuiet(s, a) {
      QuietStep(s, a);
      SameBatchesSettled(s, Step(s, a));
    } else if a.DirectResult? {
      HeldIsSettled(s, a.i, MustRelease, Acknowledged, s.backlog.permanentDrops);
    } else if a.Count? {
      HeldIsSettled(s, a.i, MustRelease, Dropped, s.backlog.permanentDrops + 1);
    } else if a.Abort? {
      AbortKeepsSettled(s, a.i);
    } else {
      EnqueueKeepsSettled(s, a.i);
    }
  }

  predicate MovesWorker(a: Action) {
    a.Acquire? || a.Take? || a.WorkerResult? || a.Handle? || a.Leave?
  }

  lemma AcquireKeepsSettled(s: System, w: nat)
    requires Settled(s) && Enabled(s, Acquire(w))
    ensures Settled(Step(s, Acquire(w)))
  {
    IdleWorkerSettled(s, w, Permitted);
    PermitsAside(MoveWorker(s, w, Permitted), Step(s, Acquire(w)));
  }

  lemma LeaveKeepsSettled(s: System, w: nat)
    requires Settled(s) && Enabled(s, Leave(w))
    ensures Settled(Step(s, Leave(w)))
  {
    IdleWorkerSettled(s, w, Stopped);
    PermitsAside(MoveWorker(s, w, Stopped), Step(s, Leave(w)));
  }

  lemma EmptyTakeKeepsSettled(s: System, w: nat)
    requires Settled(s) && Enabled(s, Take(w)) && s.backlog.pending == []
    ensures Settled(Step(s, Take(w)))
  {
    IdleWorkerSettled(s, w, Leaving);
    FlagAside(MoveWorker(s, w, Leaving), false);
  }

  lemma ResultKeepsSettled(s: System, w: nat, result: UploadResult)
    requires Settled(s) && Enabled(s, WorkerResult(w, result))
    ensures Settled(Step(s, WorkerResult(w, result)))
  {
    var worker := Returned(s.workers[w].batch, s.workers[w].at, result);
    CarryingInOrder(s, w, worker);
    CarryingAccounted(s, w, worker);
    PermitsAside(MoveWorker(s, w, worker), Step(s, WorkerResult(w, result)));
  }

  lemma HandleKeepsSettled(s: System, w: nat)
    requires Balanced(s) && Settled(s) && Enabled(s, Handle(w))
    ensures Settled(Step(s, Handle(w)))
  {
    match s.workers[w].result {
      case Accepted => CarriedIsSettled(s, Step(s, Handle(w)), w, Acknowledged, s.backlog.permanentDrops);
      case Retryable => RestoreSettled(s, Step(s, Handle(w)), w);
      case Permanent => CarriedIsSettled(s, Step(s, Handle(w)), w, Dropped, s.backlog.permanentDrops + 1);
    }
  }

  lemma WorkerKeepsSettled(s: System, a: Action)
    requires Balanced(s) && Settled(s) && Enabled(s, a) && MovesWorker(a)
    ensures Settled(Step(s, a))
  {
    match a
    case Acquire(w) => AcquireKeepsSettled(s, w);
    case Take(w) =>
      if s.backlog.pending == [] { EmptyTakeKeepsSettled(s, w); } else { TakeSettled(s, w); }
    case WorkerResult(w, result) => ResultKeepsSettled(s, w, result);
    case Handle(w) => HandleKeepsSettled(s, w);
    case Leave(w) => LeaveKeepsSettled(s, w);
  }

  lemma FlagAside(s: System, flushing: bool)
    requires Settled(s)
    ensures Settled(s.(backlog := s.backlog.(flushing := flushing)))
  {
    SameCarriers(s, s.(backlog := s.backlog.(flushing := flushing)));
  }

  lemma ArrivalKeepsInv(s: System, a: Action)
    requires Balanced(s) && Settled(s) && (a.Submit? || a.Shed? || a.Connect?)
    ensures Balanced(Step(s, a)) && Settled(Step(s, a))
  {
    var task, fate := if a.Submit? then Fresh else if a.Shed? then MustEnqueue else MustTrigger,
                      if a.Connect? then NoBatch else Held;
    NewTaskKeepsBalance(s, task, fate);
    NewTaskSettled(s, task, fate);
  }

  /** Every step of every task keeps the invariant. */
  lemma StepKeepsInv(s: System, a: Action)
    requires Inv(s) && Enabled(s, a)
    ensures Inv(Step(s, a))
  {
    WakeupIsKept(s, a);
    if a.Spawn? {
      SpawnKeepsBalance(s, a.i);
      TaskKeepsSettled(s, a);
    } else if MovesSubmitter(a) {
      MoveKeepsBalance(s, a);
      TaskKeepsSettled(s, a);
    } else if MovesWorker(a) {
      WorkerKeepsBalance(s, a);
      WorkerKeepsSettled(s, a);
    } else {
      ArrivalKeepsInv(s, a);
    }
  }

  /** Every state of every run satisfies the invariant. */
  lemma {:induction false} RunKeepsInv(states: seq<System>, actions: seq<Action>, k: nat)
    requires IsRun(states, actions) && k < |states|
    ensures Inv(states[k])
  {
    if k == 0 {
      InitialInv();
    } else {
      RunKeepsInv(states, actions, k - 1);
      StepKeepsInv(states[k - 1], actions[k - 1]);
    }
  }
}

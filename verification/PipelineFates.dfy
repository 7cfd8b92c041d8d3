/** Why a batch is where it is: in every run what the uploads returned, and nothing else, decides what becomes
    of it. */
module PipelineFates {
  import opened Outcomes
  import opened Backlog
  import opened TelemetryPipeline
  import opened PipelineSafety
  import opened PipelineTheorems

  // --- What happened ----------------------------------------------------------------------------

  /** An upload of batch `b` returns, the submitter's own or a worker's. */
  predicate Returns(s: System, a: Action, b: nat, result: UploadResult) {
    || a == DirectResult(b, result)
    || (a.WorkerResult? && a.w < |s.workers| && s.workers[a.w].Uploading? && s.workers[a.w].batch == b && a.result == result)
  }

  /** Before step `k` an upload of batch `b` returned so. */
  predicate Came(states: seq<System>, actions: seq<Action>, k: nat, b: nat, result: UploadResult)
    requires k <= |actions| <= |states|
  {
    k > 0 && (Returns(states[k - 1], actions[k - 1], b, result) || Came(states, actions, k - 1, b, result))
  }

  /** A step that sends a batch to the queue: its own upload may be retried, it found no permit, or it is shed. */
  predicate SendsToQueue(s: System, a: Action, b: nat) {
    a == DirectResult(b, Retryable) || (a == TryDirect(b) && s.permits == 0) || (a == Shed && b == |s.submitters|)
  }

  predicate SentToQueue(states: seq<System>, actions: seq<Action>, k: nat, b: nat)
    requires k <= |actions| <= |states|
  {
    k > 0 && (SendsToQueue(states[k - 1], actions[k - 1], b) || SentToQueue(states, actions, k - 1, b))
  }

  /** A step that loses a batch because the queue is full: a newer one pushes it out, or it comes back too late. */
  predicate Overflows(s: System, a: Action, b: nat) {
    && |s.backlog.pending| == MAX_PENDING
    && (|| (a.Enqueue? && s.backlog.pending[0] == b)
        || (a.Handle? && a.w < |s.workers| && s.workers[a.w].Returned? && s.workers[a.w].batch == b
            && s.workers[a.w].result == Retryable))
  }

  predicate Overflowing(states: seq<System>, actions: seq<Action>, k: nat, b: nat)
    requires k <= |actions| <= |states|
  {
    k > 0 && (Overflows(states[k - 1], actions[k - 1], b) || Overflowing(states, actions, k - 1, b))
  }

  // --- What is still owed -----------------------------------------------------------------------

  function FateOf(s: System, b: nat): Fate {
    if b < |s.fates| then s.fates[b] else NoBatch
  }

  predicate WorkerOwes(s: System, b: nat, result: UploadResult) {
    exists w :: 0 <= w < |s.workers| && s.workers[w].Returned? && s.workers[w].batch == b && s.workers[w].result == result
  }

  predicate At(s: System, b: nat, t: Submitter) {
    b < |s.submitters| && s.submitters[b] == t
  }

  /** The upload has returned, and the batch's submitter or worker has not acted on it yet. */
  predicate Owes(s: System, b: nat, result: UploadResult) {
    || WorkerOwes(s, b, result)
    || (result == Permanent && At(s, b, MustCount))
    || (result == Retryable && At(s, b, MustRequeue))
  }

  function FinalFate(result: UploadResult): Fate
    requires result != Retryable
  {
    if result == Accepted then Acknowledged else Dropped
  }

  predicate Decided(s: System, b: nat, result: UploadResult)
    requires result != Retryable
  {
    FateOf(s, b) == FinalFate(result) || Owes(s, b, result)
  }

  // --- One step ---------------------------------------------------------------------------------

  lemma WorkersWhoOwe(s: System, a: Action, r: System, b: nat, result: UploadResult)
    requires Enabled(s, a) && r == Step(s, a)
    ensures WorkerOwes(r, b, result) && !WorkerOwes(s, b, result) ==> a.WorkerResult? && Returns(s, a, b, result)
    ensures a.WorkerResult? && Returns(s, a, b, result) ==> WorkerOwes(r, b, result)
    ensures WorkerOwes(s, b, result) ==>
      WorkerOwes(r, b, result) || (a.Handle? && s.workers[a.w].batch == b && s.workers[a.w].result == result)
  {
    WorkersReturn(s, a, r);
    if WorkerOwes(s, b, result) {
      var w :| 0 <= w < |s.workers| && s.workers[w].Returned? && s.workers[w].batch == b && s.workers[w].result == result;
      assert !(a.Handle? && a.w == w) ==> r.workers[w] == s.workers[w];
    }
  }

  /** Only an upload that returns makes a worker that has a result to act on, and only acting on it ends that. */
  lemma WorkersReturn(s: System, a: Action, r: System)
    requires Enabled(s, a) && r == Step(s, a)
    ensures |s.workers| <= |r.workers|
    ensures forall w :: 0 <= w < |s.workers| && s.workers[w].Returned? && a != Handle(w) ==> r.workers[w] == s.workers[w]
    ensures forall w :: 0 <= w < |r.workers| && r.workers[w].Returned? && !(a.WorkerResult? && a.w == w) ==>
      w < |s.workers| && s.workers[w] == r.workers[w]
    ensures a.WorkerResult? ==> r.workers[a.w] == Returned(s.workers[a.w].batch, s.workers[a.w].at, a.result)
  {
    if MovesWorker(a) { OneWorkerMoves(s, a); }
  }

  /** The state of a batch's submitter changes by its own steps only. */
  lemma OwnSubmitter(s: System, a: Action, r: System, b: nat)
    requires Enabled(s, a) && r == Step(s, a) && b < |s.submitters| && !(MovesSubmitter(a) && a.i == b)
    ensures |s.submitters| <= |r.submitters| && r.submitters[b] == s.submitters[b]
  {
  }

  /** The final fate that a step gives to a batch. */
  function Verdict(s: System, a: Action, b: nat): Option<Fate>
    requires Enabled(s, a)
  {
    if Overflows(s, a, b) then Some(Overflowed)
    else if a == DirectResult(b, Accepted) then Some(Acknowledged)
    else if a == Count(b) then Some(Dropped)
    else if a == Abort(b) then Some(Lost)
    else if a.Handle? && s.workers[a.w].batch == b && s.workers[a.w].result != Retryable then
      Some(FinalFate(s.workers[a.w].result))
    else None
  }

  /** Fate `f` of batch `b` after a step: the step's verdict, or the old one if that was final. */
  predicate Follows(s: System, a: Action, b: nat, f: Fate)
    requires Enabled(s, a)
  {
    && (Verdict(s, a, b).Some? ==> f == Verdict(s, a, b).value)
    && (IsFinal(FateOf(s, b)) ==> f == FateOf(s, b))
    && (IsFinal(f) && Verdict(s, a, b) == None ==> f == FateOf(s, b))
  }

  lemma QueueIsKnown(s: System)
    requires Inv(s)
    ensures s.backlog.pending != [] ==> s.backlog.pending[0] < |s.fates|
  {
    if s.backlog.pending != [] { assert s.backlog.pending[0] == s.log[First(s)]; }
  }

  lemma EnqueueFollows(s: System, i: nat, r: System, b: nat)
    requires Inv(s) && Enabled(s, Enqueue(i)) && r == Step(s, Enqueue(i))
    ensures Follows(s, Enqueue(i), b, FateOf(r, b))
  {
    QueueIsKnown(s);
    if b < |s.fates| { EnqueueFate(s, i, b); }
  }

  lemma HandleFollows(s: System, w: nat, r: System, b: nat)
    requires Inv(s) && Enabled(s, Handle(w)) && r == Step(s, Handle(w))
    ensures Follows(s, Handle(w), b, FateOf(r, b))
  {
    if b < |s.fates| {
      HandleFate(s, w, b);
    } else {
      HandleFate(s, w, s.workers[w].batch);
    }
  }

  lemma FateFollows(s: System, a: Action, r: System, b: nat)
    requires Inv(s) && Enabled(s, a) && r == Step(s, a)
    ensures Follows(s, a, b, FateOf(r, b))
  {
    if a.Enqueue? { EnqueueFollows(s, a.i, r, b); }
    else if a.Handle? { HandleFollows(s, a.w, r, b); }
    else {
      if b < |s.fates| && IsFinal(s.fates[b]) { FinalFateStays(s, a, b); }
      OthersFollow(s, a, r, b);
    }
  }

  lemma OthersFollow(s: System, a: Action, r: System, b: nat)
    requires Enabled(s, a) && r == Step(s, a) && !a.Enqueue? && !a.Handle? && |s.fates| == |s.submitters|
    requires IsFinal(FateOf(s, b)) ==> FateOf(r, b) == FateOf(s, b)
    ensures Follows(s, a, b, FateOf(r, b))
  {
    if MovesSubmitter(a) { SubmitterSettles(s, a, r, b); }
    else if MovesWorker(a) { WorkerSettlesNothing(s, a, r, b); }
    else { ArrivalSettlesNothing(s, a, r, b); }
  }

  lemma SubmitterSettles(s: System, a: Action, r: System, b: nat)
    requires Enabled(s, a) && r == Step(s, a) && MovesSubmitter(a) && !a.Enqueue? && |s.fates| == |s.submitters|
    ensures Verdict(s, a, b).Some? ==> FateOf(r, b) == Verdict(s, a, b).value
    ensures Verdict(s, a, b) == None ==> FateOf(r, b) == FateOf(s, b)
  {
  }

  lemma WorkerSettlesNothing(s: System, a: Action, r: System, b: nat)
    requires Enabled(s, a) && r == Step(s, a) && MovesWorker(a) && !a.Handle?
    ensures Verdict(s, a, b) == None && (FateOf(r, b) == FateOf(s, b) || FateOf(r, b) == InFlight)
  {
  }

  lemma ArrivalSettlesNothing(s: System, a: Action, r: System, b: nat)
    requires Enabled(s, a) && r == Step(s, a) && (a.Submit? || a.Shed? || a.Connect?)
    ensures Verdict(s, a, b) == None && (FateOf(r, b) == FateOf(s, b) || FateOf(r, b) == Held || FateOf(r, b) == NoBatch)
  {
  }

  lemma CountedMoves(s: System, a: Action, r: System, b: nat)
    requires Enabled(s, a) && r == Step(s, a)
    ensures At(r, b, MustCount) <==> a == DirectResult(b, Permanent) || (At(s, b, MustCount) && a != Count(b))
  {
    if b < |s.submitters| && !(MovesSubmitter(a) && a.i == b) { OwnSubmitter(s, a, r, b); }
  }

  /** What a step does to those who have a result to act on. */
  predicate OwesFollow(s: System, a: Action, r: System, b: nat, result: UploadResult)
    requires Enabled(s, a)
  {
    && (WorkerOwes(r, b, result) && !WorkerOwes(s, b, result) ==> a.WorkerResult? && Returns(s, a, b, result))
    && (a.WorkerResult? && Returns(s, a, b, result) ==> WorkerOwes(r, b, result))
    && (WorkerOwes(s, b, result) ==>
          WorkerOwes(r, b, result) || (a.Handle? && s.workers[a.w].batch == b && s.workers[a.w].result == result))
    && (At(r, b, MustCount) <==> a == DirectResult(b, Permanent) || (At(s, b, MustCount) && a != Count(b)))
  }

  lemma DecidedFollows(s: System, a: Action, r: System, b: nat, result: UploadResult)
    requires Enabled(s, a) && result != Retryable && Follows(s, a, b, FateOf(r, b)) && OwesFollow(s, a, r, b, result)
    ensures Decided(r, b, result) <==> Decided(s, b, result) || Returns(s, a, b, result)
  {
    if a.Handle? { assert s.workers[a.w].Returned?; }
  }

  lemma DecidedMoves(s: System, a: Action, r: System, b: nat, result: UploadResult)
    requires Inv(s) && Enabled(s, a) && r == Step(s, a) && result != Retryable
    ensures Decided(r, b, result) <==> Decided(s, b, result) || Returns(s, a, b, result)
  {
    FateFollows(s, a, r, b);
    WorkersWhoOwe(s, a, r, b, result);
    CountedMoves(s, a, r, b);
    DecidedFollows(s, a, r, b, result);
  }

  // --- Every run --------------------------------------------------------------------------------

  lemma {:induction false} ResultsDecide(states: seq<System>, actions: seq<Action>, k: nat, b: nat, result: UploadResult)
    requires IsRun(states, actions) && k < |states| && result != Retryable
    ensures Decided(states[k], b, result) <==> Came(states, actions, k, b, result)
  {
    if k > 0 {
      ResultsDecide(states, actions, k - 1, b, result);
      RunKeepsInv(states, actions, k - 1);
      DecidedMoves(states[k - 1], actions[k - 1], states[k], b, result);
    }
  }

  lemma OwedIsNotFinal(s: System, b: nat, result: UploadResult)
    requires Inv(s) && Owes(s, b, result)
    ensures FateOf(s, b) == Held || FateOf(s, b) == InFlight
  {
    if WorkerOwes(s, b, result) {
      var w :| 0 <= w < |s.workers| && s.workers[w].Returned? && s.workers[w].batch == b && s.workers[w].result == result;
      assert InFlightWith(s, b);
    }
  }

  /** A batch is acknowledged exactly when an upload of it was accepted, and dropped exactly when one was refused
      for good, once the task that heard so has acted on it. */
  lemma ResultsAreObeyed(states: seq<System>, actions: seq<Action>, k: nat, b: nat)
    requires IsRun(states, actions) && k < |states|
    ensures FateOf(states[k], b) == Acknowledged
      <==> Came(states, actions, k, b, Accepted) && !Owes(states[k], b, Accepted)
    ensures FateOf(states[k], b) == Dropped
      <==> Came(states, actions, k, b, Permanent) && !Owes(states[k], b, Permanent)
  {
    RunKeepsInv(states, actions, k);
    ResultsDecide(states, actions, k, b, Accepted);
    ResultsDecide(states, actions, k, b, Permanent);
    if Owes(states[k], b, Accepted) { OwedIsNotFinal(states[k], b, Accepted); }
    if Owes(states[k], b, Permanent) { OwedIsNotFinal(states[k], b, Permanent); }
  }

  // --- The queue --------------------------------------------------------------------------------

  predicate Queueing(s: System, b: nat) {
    b in s.log || At(s, b, MustEnqueue) || At(s, b, MustRequeue)
  }

  lemma QueueingMoves(s: System, a: Action, r: System, b: nat)
    requires Accounted(s) && Enabled(s, a) && r == Step(s, a)
    ensures Queueing(r, b) <==> Queueing(s, b) || SendsToQueue(s, a, b)
  {
    if MovesSubmitter(a) && a.i == b { OwnMoveQueues(s, a, r, b); }
    else { OtherMoveQueues(s, a, r, b); }
  }

  lemma OtherMoveQueues(s: System, a: Action, r: System, b: nat)
    requires Accounted(s) && Enabled(s, a) && r == Step(s, a) && !(MovesSubmitter(a) && a.i == b)
    ensures Queueing(r, b) <==> Queueing(s, b) || (a == Shed && b == |s.submitters|)
  {
    LogGrows(s, a, r);
    if b < |s.submitters| { OwnSubmitter(s, a, r, b); } else { Newcomer(s, a, r, b); }
  }

  lemma Newcomer(s: System, a: Action, r: System, b: nat)
    requires Enabled(s, a) && r == Step(s, a) && b >= |s.submitters|
    ensures At(r, b, MustEnqueue) <==> a == Shed && b == |s.submitters|
    ensures !At(r, b, MustRequeue)
  {
  }

  lemma LogGrows(s: System, a: Action, r: System)
    requires Enabled(s, a) && r == Step(s, a)
    ensures r.log == if a.Enqueue? then s.log + [a.i] else s.log
  {
  }

  lemma OwnMoveQueues(s: System, a: Action, r: System, b: nat)
    requires Enabled(s, a) && r == Step(s, a) && MovesSubmitter(a) && a.i == b
    ensures Queueing(r, b) <==> Queueing(s, b) || SendsToQueue(s, a, b)
  {
    LogGrows(s, a, r);
  }

  /** A batch is in the enqueue log, or its submitter is about to put it there, exactly when the batch's own upload
      may be retried, it found no permit, or it was shed. So a submitter never forgets a batch that may be retried. */
  lemma QueuedExactlyWhenSent(states: seq<System>, actions: seq<Action>, k: nat, b: nat)
    requires IsRun(states, actions) && k < |states|
    ensures Queueing(states[k], b) <==> SentToQueue(states, actions, k, b)
    ensures SentToQueue(states, actions, k, b) && b < |states[k].submitters| && states[k].submitters[b] == Finished ==>
      b in states[k].log
  {
    if k > 0 {
      QueuedExactlyWhenSent(states, actions, k - 1, b);
      RunKeepsInv(states, actions, k - 1);
      QueueingMoves(states[k - 1], actions[k - 1], states[k], b);
    }
  }

  /** What a worker's upload returned stays with it until it acts on it. */
  lemma {:induction false} ResultWaits(states: seq<System>, actions: seq<Action>, j: nat, k: nat, w: nat, result: UploadResult)
    requires IsRun(states, actions) && j < k < |states| && actions[j] == WorkerResult(w, result)
    requires forall i :: j < i < k ==> actions[i] != Handle(w)
    ensures w < |states[j].workers| && states[j].workers[w].Uploading? && w < |states[k].workers|
    ensures states[k].workers[w] == Returned(states[j].workers[w].batch, states[j].workers[w].at, result)
  {
    if k > j + 1 {
      ResultWaits(states, actions, j, k - 1, w, result);
      WorkersReturn(states[k - 1], actions[k - 1], states[k]);
    }
  }

  /** What becomes of a batch when its worker acts: a retry goes back to the front of the queue and is overflowed
      only if the queue is full. */
  lemma WorkerObeys(states: seq<System>, actions: seq<Action>, j: nat, k: nat, w: nat, result: UploadResult)
    requires IsRun(states, actions) && j < k < |actions|
    requires actions[j] == WorkerResult(w, result) && actions[k] == Handle(w)
    requires forall i :: j < i < k ==> actions[i] != Handle(w)
    ensures w < |states[j].workers| && states[j].workers[w].Uploading?
    ensures var b := states[j].workers[w].batch; var s, r := states[k], states[k + 1];
      && FateOf(r, b) == (match result
                          case Accepted => Acknowledged
                          case Permanent => Dropped
                          case Retryable => if |s.backlog.pending| == 512 then Overflowed else Pending)
      && r.backlog.pending
         == (if result == Retryable && |s.backlog.pending| < 512 then [b] + s.backlog.pending else s.backlog.pending)
      && r.backlog == s.backlog.Handle(b, result)
      && r.backlog.permanentDrops == s.backlog.permanentDrops + (if result == Permanent then 1 else 0)
      && r.backlog.flushing == s.backlog.flushing
  {
    ResultWaits(states, actions, j, k, w, result);
    RunKeepsInv(states, actions, k);
    HandleFate(states[k], w, states[j].workers[w].batch);
  }

  // --- Losses -----------------------------------------------------------------------------------

  lemma LossesFollow(s: System, a: Action, f: Fate, b: nat)
    requires Enabled(s, a) && Follows(s, a, b, f)
    ensures f == Overflowed <==> FateOf(s, b) == Overflowed || Overflows(s, a, b)
    ensures f == Lost <==> FateOf(s, b) == Lost || a == Abort(b)
  {
  }

  /** A batch is overflowed exactly when a newer one pushed it out of a full queue or a retry found the queue full,
      and lost exactly when its submitter was aborted during the upload. */
  lemma {:induction false} LossesHaveCauses(states: seq<System>, actions: seq<Action>, k: nat, b: nat)
    requires IsRun(states, actions) && k < |states|
    ensures FateOf(states[k], b) == Overflowed <==> Overflowing(states, actions, k, b)
    ensures FateOf(states[k], b) == Lost <==> exists j :: 0 <= j < k && actions[j] == Abort(b)
  {
    if k > 0 {
      LossesHaveCauses(states, actions, k - 1, b);
      RunKeepsInv(states, actions, k - 1);
      FateFollows(states[k - 1], actions[k - 1], states[k], b);
      LossesFollow(states[k - 1], actions[k - 1], FateOf(states[k], b), b);
    }
  }
}

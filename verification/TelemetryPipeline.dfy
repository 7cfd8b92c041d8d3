/** The upload pipeline as its tasks interleave: finished invocations, a connection that triggers a
    flush, and flush workers, each taking one atomic step at a time at a lock or a permit. */
module TelemetryPipeline {
  import opened Outcomes
  import opened Backlog

  const MAX_UPLOADS := 4

  /** A finished invocation on its way to hand over its batch. */
  datatype Submitter =
    | Fresh           // about to try for an upload permit
    | Sending         // uploading, with a permit
    | MustRequeue     // its upload failed and may be retried; it still has the permit
    | MustCount       // its upload failed for good; it still has the permit
    | MustRelease     // its batch is settled or enqueued; it still has the permit
    | MustEnqueue     // found no permit, or is shed
    | MustTrigger     // about to look whether a worker is needed
    | MustSpawn       // has claimed the flush, and starts the worker
    | Finished

  datatype Worker =
    | Waiting                                        // for an upload permit, perhaps after a delay
    | Permitted                                      // about to take the oldest batch
    | Uploading(batch: nat, at: nat)                 // with a permit; `at` is the batch's place in the log
    | Returned(batch: nat, at: nat, result: UploadResult)
    | Leaving                                        // has given up the flush, still has the permit
    | Stopped

  /** Where a batch is, for the account. */
  datatype Fate = NoBatch | Held | Pending | InFlight | Acknowledged | Dropped | Overflowed | Lost

  /** Submitter `i` brings batch `i`. The log, the attempts and the fates only record what happened:
      batches in the order of their first enqueueing, the places in the log from which workers took
      batches, and where each batch went. */
  datatype System = System(
    backlog: Backlog.State<nat>, permits: nat, submitters: seq<Submitter>, workers: seq<Worker>,
    log: seq<nat>, attempts: seq<nat>, fates: seq<Fate>)

  function Initial(): System {
    System(State([], false, 0, 0), MAX_UPLOADS, [], [], [], [], [])
  }

  datatype Action =
    | Submit
    | Shed
    | Connect
    | TryDirect(i: nat)
    | DirectResult(i: nat, result: UploadResult)
    | Abort(i: nat)
    | Enqueue(i: nat)
    | Count(i: nat)
    | Release(i: nat)
    | Trigger(i: nat)
    | Spawn(i: nat)
    | Acquire(w: nat)
    | Take(w: nat)
    | WorkerResult(w: nat, result: UploadResult)
    | Handle(w: nat)
    | Leave(w: nat)

  predicate Enabled(s: System, a: Action) {
    match a
    case Submit => true
    case Shed => true
    case Connect => true
    case TryDirect(i) => i < |s.submitters| && s.submitters[i] == Fresh
    case DirectResult(i, _) => i < |s.submitters| && s.submitters[i] == Sending
    case Abort(i) => i < |s.submitters| && s.submitters[i] == Sending
    case Enqueue(i) => i < |s.submitters| && (s.submitters[i] == MustEnqueue || s.submitters[i] == MustRequeue)
    case Count(i) => i < |s.submitters| && s.submitters[i] == MustCount
    case Release(i) => i < |s.submitters| && s.submitters[i] == MustRelease
    case Trigger(i) => i < |s.submitters| && s.submitters[i] == MustTrigger
    case Spawn(i) => i < |s.submitters| && s.submitters[i] == MustSpawn
    case Acquire(w) => w < |s.workers| && s.workers[w] == Waiting && s.permits > 0
    case Take(w) => w < |s.workers| && s.workers[w] == Permitted
    case WorkerResult(w, _) => w < |s.workers| && s.workers[w].Uploading?
    case Handle(w) => w < |s.workers| && s.workers[w].Returned?
    case Leave(w) => w < |s.workers| && s.workers[w] == Leaving
  }

  function NewTask(s: System, task: Submitter, fate: Fate): System {
    s.(submitters := s.submitters + [task], fates := s.fates + [fate])
  }

  function MoveTo(s: System, i: nat, task: Submitter): System
    requires i < |s.submitters|
  {
    s.(submitters := s.submitters[i := task])
  }

  function MoveWorker(s: System, w: nat, worker: Worker): System
    requires w < |s.workers|
  {
    s.(workers := s.workers[w := worker])
  }

  /** Record where a batch went. */
  function Settle(s: System, batch: nat, fate: Fate): System {
    if batch < |s.fates| then s.(fates := s.fates[batch := fate]) else s
  }

  function EnqueueBatch(s: System, batch: nat): System {
    var victim := if s.backlog.Full() then Settle(s, s.backlog.pending[0], Overflowed) else s;
    Settle(victim, batch, Pending).(backlog := s.backlog.Enqueue(batch), log := s.log + [batch])
  }

  function RestoreBatch(s: System, batch: nat): System {
    Settle(s, batch, if s.backlog.Full() then Overflowed else Pending).(backlog := s.backlog.Restore(batch))
  }

  function Step(s: System, a: Action): (r: System)
    requires Enabled(s, a)
    ensures |s.fates| <= |r.fates|
  {
    match a
    case Submit => NewTask(s, Fresh, Held)
    case Shed => NewTask(s, MustEnqueue, Held)
    case Connect => NewTask(s, MustTrigger, NoBatch)
    case TryDirect(i) =>
      if s.permits > 0 then MoveTo(s, i, Sending).(permits := s.permits - 1) else MoveTo(s, i, MustEnqueue)
    case DirectResult(i, result) =>
      (match result
       case Accepted => Settle(MoveTo(s, i, MustRelease), i, Acknowledged)
       case Retryable => MoveTo(s, i, MustRequeue)
       case Permanent => MoveTo(s, i, MustCount))
    case Abort(i) => Settle(MoveTo(s, i, Finished), i, Lost).(permits := s.permits + 1)
    case Enqueue(i) => EnqueueBatch(MoveTo(s, i, if s.submitters[i] == MustEnqueue then MustTrigger else MustRelease), i)
    case Count(i) => Settle(MoveTo(s, i, MustRelease), i, Dropped).(backlog := s.backlog.DropPermanently())
    case Release(i) => MoveTo(s, i, MustTrigger).(permits := s.permits + 1)
    case Trigger(i) =>
      MoveTo(s, i, if s.backlog.ShouldFlush() then MustSpawn else Finished).(backlog := s.backlog.StartFlush())
    case Spawn(i) => MoveTo(s, i, Finished).(workers := s.workers + [Waiting])
    case Acquire(w) => MoveWorker(s, w, Permitted).(permits := s.permits - 1)
    case Take(w) =>
      if s.backlog.pending == [] then MoveWorker(s, w, Leaving).(backlog := s.backlog.Take())
      else
        var batch := s.backlog.pending[0];
        var at := if |s.backlog.pending| <= |s.log| then |s.log| - |s.backlog.pending| else 0;
        Settle(MoveWorker(s, w, Uploading(batch, at)), batch, InFlight)
          .(backlog := s.backlog.Take(), attempts := s.attempts + [at])
    case WorkerResult(w, result) =>
      MoveWorker(s, w, Returned(s.workers[w].batch, s.workers[w].at, result)).(permits := s.permits + 1)
    case Handle(w) =>
      var batch := s.workers[w].batch;
      (match s.workers[w].result
       case Accepted => Settle(MoveWorker(s, w, Waiting), batch, Acknowledged)
       case Retryable => RestoreBatch(MoveWorker(s, w, Waiting), batch)
       case Permanent =>
         Settle(MoveWorker(s, w, Waiting), batch, Dropped).(backlog := s.backlog.DropPermanently()))
    case Leave(w) => MoveWorker(s, w, Stopped).(permits := s.permits + 1)
  }

  /** A run from the initial state. */
  ghost predicate IsRun(states: seq<System>, actions: seq<Action>) {
    && |states| == |actions| + 1
    && states[0] == Initial()
    && forall k :: 0 <= k < |actions| ==> Enabled(states[k], actions[k]) && states[k + 1] == Step(states[k], actions[k])
  }
}

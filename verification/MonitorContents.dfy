/** What the monitor's batches say: each one tells the event that made it, under the head of the start event of its
    trace and with the summaries that were recorded since the last one. */
module MonitorContents {
  import opened Outcomes
  import opened TraceIo
  import opened TelemetryEvents
  import opened EmbeddedMonitor
  import opened MonitorRuns

  // --- What was heard ---------------------------------------------------------------------------

  /** The deployment that was set last. */
  function DeployedAs(ops: seq<Op>): Option<Deployment> {
    if ops == [] then None
    else if ops[|ops| - 1].Deploy? then Some(ops[|ops| - 1].deployment)
    else DeployedAs(ops[..|ops| - 1])
  }

  /** What a trace began with. */
  datatype Begun = Begun(event: MonitorEvent, deployment: Deployment)

  predicate Starts(front: seq<Op>, op: Op, id: TraceId) {
    op.Receive? && op.event.RunStarted? && op.event.traceId == id && DeployedAs(front).Some?
  }

  /** The start of a trace that runs: until it finishes, is idle for 150 seconds at an expiry, or the connection is
      a new one. */
  function Origin(ops: seq<Op>, id: TraceId): Option<Begun>
    decreases |ops|, 0
  {
    if ops == [] then None
    else
      var front, op := ops[..|ops| - 1], ops[|ops| - 1];
      if Starts(front, op, id) then Some(Begun(op.event, DeployedAs(front).value))
      else if op.Receive? && op.event.RunFinished? && op.event.traceId == id then None
      else if op.Expire? && op.clock.Some? && op.now >= LastTouched(front, id) + 150_000 then None
      else if op.Reconnect? then None
      else Origin(front, id)
  }

  predicate Reports(front: seq<Op>, op: Op, id: TraceId)
    decreases |front|, 1
  {
    op.Receive? && op.event.StageReported? && op.event.traceId == id && Origin(front, id).Some?
  }

  predicate Records(front: seq<Op>, op: Op, id: TraceId)
    decreases |front|, 1
  {
    op.RecordIo? && op.id == id && Origin(front, id).Some?
  }

  /** When the running trace was last heard of. */
  function LastTouched(ops: seq<Op>, id: TraceId): nat
    decreases |ops|, 0
  {
    if ops == [] then 0
    else
      var front, op := ops[..|ops| - 1], ops[|ops| - 1];
      if Starts(front, op, id) || Reports(front, op, id) || Records(front, op, id) then op.now
      else LastTouched(front, id)
  }

  /** The input and the output that were recorded for the running trace since its last batch. */
  function Heard(ops: seq<Op>, id: TraceId): (Option<TraceIoSummary>, Option<TraceIoSummary>) {
    if ops == [] then (None, None)
    else
      var front, op := ops[..|ops| - 1], ops[|ops| - 1];
      if Starts(front, op, id) || Reports(front, op, id) then (None, None)
      else if Records(front, op, id) then
        (if op.input.Some? then op.input else Heard(front, id).0, if op.output.Some? then op.output else Heard(front, id).1)
      else Heard(front, id)
  }

  /** The observation of a stage in the running trace: that of its first event. */
  function StageId(ops: seq<Op>, id: TraceId, stage: Stage): Option<Uuid> {
    if ops == [] then None
    else
      var front, op := ops[..|ops| - 1], ops[|ops| - 1];
      if Starts(front, op, id) then None
      else if StageId(front, id, stage) == None && Reports(front, op, id) && op.event.stage == stage then Some(op.newId)
      else StageId(front, id, stage)
  }

  // --- The table --------------------------------------------------------------------------------

  ghost predicate IsTraceOf(t: Trace, ops: seq<Op>, id: TraceId)
    requires Origin(ops, id).Some?
  {
    var start := Origin(ops, id).value;
    && start.event.RunStarted?
    && t.traceId == id && t.deployment == start.deployment && t.invocationId == start.event.invocationId
    && t.endpoint == start.event.endpoint && t.agent == start.event.agent && t.startedAt == start.event.startedAt
    && t.lastEvent == LastTouched(ops, id)
    && t.input == Heard(ops, id).0 && t.output == Heard(ops, id).1
    && (forall stage :: stage in t.stages <==> StageId(ops, id, stage).Some?)
    && (forall stage :: stage in t.stages ==> Some(t.stages[stage]) == StageId(ops, id, stage))
  }

  ghost predicate IsKnownOf(s: State, ops: seq<Op>, id: TraceId) {
    (id in s.traces <==> Origin(ops, id).Some?) && (id in s.traces ==> IsTraceOf(s.traces[id], ops, id))
  }

  ghost predicate IsTableOf(s: State, ops: seq<Op>) {
    s.deployment == DeployedAs(ops) && forall id :: IsKnownOf(s, ops, id)
  }

  predicate Splits(ops: seq<Op>, front: seq<Op>, op: Op) {
    ops != [] && front == ops[..|ops| - 1] && op == ops[|ops| - 1]
  }

  lemma StartIsKnown(s: State, ops: seq<Op>, front: seq<Op>, op: Op, id: TraceId)
    requires Splits(ops, front, op) && s.deployment == DeployedAs(front) && IsKnownOf(s, front, id)
    requires op.Receive? && op.event.RunStarted?
    ensures IsKnownOf(Apply(s, op), ops, id)
  {
  }

  lemma StageIsKnown(s: State, ops: seq<Op>, front: seq<Op>, op: Op, id: TraceId)
    requires Splits(ops, front, op) && IsKnownOf(s, front, id) && op.Receive? && op.event.StageReported?
    ensures IsKnownOf(Apply(s, op), ops, id)
  {
  }

  lemma FinishIsKnown(s: State, ops: seq<Op>, front: seq<Op>, op: Op, id: TraceId)
    requires Splits(ops, front, op) && IsKnownOf(s, front, id) && op.Receive? && op.event.RunFinished?
    ensures IsKnownOf(Apply(s, op), ops, id)
  {
  }

  lemma RecordIsKnown(s: State, ops: seq<Op>, front: seq<Op>, op: Op, id: TraceId)
    requires Splits(ops, front, op) && IsKnownOf(s, front, id) && op.RecordIo?
    ensures IsKnownOf(Apply(s, op), ops, id)
  {
  }

  lemma ExpireIsKnown(s: State, ops: seq<Op>, front: seq<Op>, op: Op, id: TraceId)
    requires Splits(ops, front, op) && IsKnownOf(s, front, id) && op.Expire? && Enabled(s, op)
    ensures IsKnownOf(Apply(s, op), ops, id)
  {
  }

  lemma PlainIsKnown(s: State, ops: seq<Op>, front: seq<Op>, op: Op, id: TraceId)
    requires Splits(ops, front, op) && IsKnownOf(s, front, id) && (op.Deploy? || op.Lose? || op.Reconnect?)
    ensures IsKnownOf(Apply(s, op), ops, id)
  {
  }

  lemma OpIsKnown(s: State, ops: seq<Op>, front: seq<Op>, op: Op, id: TraceId)
    requires Splits(ops, front, op) && s.deployment == DeployedAs(front) && IsKnownOf(s, front, id) && Enabled(s, op)
    ensures IsKnownOf(Apply(s, op), ops, id)
  {
    match op
    case Receive(event, _, _) =>
      if event.RunStarted? { StartIsKnown(s, ops, front, op, id); }
      else if event.StageReported? { StageIsKnown(s, ops, front, op, id); }
      else { FinishIsKnown(s, ops, front, op, id); }
    case RecordIo(_, _, _, _) => RecordIsKnown(s, ops, front, op, id);
    case Expire(_, _, _) => ExpireIsKnown(s, ops, front, op, id);
    case _ => PlainIsKnown(s, ops, front, op, id);
  }

  /** The table holds exactly the running traces, as they were heard of. */
  lemma {:induction false} RunKeepsTable(ops: seq<Op>)
    requires IsRun(ops)
    ensures IsTableOf(Run(ops), ops)
  {
    if ops != [] {
      var front, op := ops[..|ops| - 1], ops[|ops| - 1];
      RunKeepsTable(front);
      forall id
        ensures IsKnownOf(Run(ops), ops, id)
      {
        assert IsKnownOf(Run(front), front, id);
        OpIsKnown(Run(front), ops, front, op, id);
      }
    }
  }

  // --- The batches ------------------------------------------------------------------------------

  /** The batch is under the head of the trace's start, with the summaries that waited. */
  predicate IsBatchOf(b: RuntimeBatch, front: seq<Op>, id: TraceId, dropped: nat)
    requires Origin(front, id).Some?
  {
    var start := Origin(front, id).value;
    && start.event.RunStarted?
    && b.traceId == id && b.deployment == start.deployment && b.invocationId == start.event.invocationId
    && b.endpoint == start.event.endpoint && b.agent == start.event.agent && b.startedAt == start.event.startedAt
    && b.input == Heard(front, id).0 && b.output == Heard(front, id).1
    && b.dropped == dropped
  }

  predicate TellsStart(b: RuntimeBatch, models: Models, event: MonitorEvent, deployment: Deployment, dropped: nat)
    requires event.RunStarted?
  {
    && b.traceId == event.traceId && b.deployment == deployment && b.invocationId == event.invocationId
    && b.endpoint == event.endpoint && b.agent == event.agent && b.startedAt == event.startedAt
    && b.input == None && b.output == None && b.terminal == None && b.dropped == dropped
    && |b.events| == 1 && b.events[0].InvocationStarted?
    && b.events[0].providerKey == event.provider && b.events[0].capability == event.capability
    && (match b.events[0].model
        case Some(model) => (event.provider, event.capability) in models && models[(event.provider, event.capability)] == model
        case None => (event.provider, event.capability) !in models)
  }

  /** The record of a stage event: its numbers, its public error, and the time that it took before it was reported. */
  predicate TellsStage(t: TraceTelemetry, event: MonitorEvent)
    requires event.StageReported?
  {
    && t.ProviderStage? && t.stage == event.stage && t.status == event.status
    && t.elapsed == event.elapsed && t.requestElapsed == Some(event.requestElapsed)
    && t.inputTokens == event.inputTokens && t.outputTokens == event.outputTokens && t.resident == event.resident
    && t.error == (if event.error.Some? then Some(SafeObserverError(event.error.value)) else None)
    && t.end == (if event.status == Started then None else Some(event.requestElapsed))
    && (match event.elapsed
        case None => t.start == event.requestElapsed
        case Some(elapsed) => if elapsed >= event.requestElapsed then t.start == 0 else t.start + elapsed == event.requestElapsed)
  }

  predicate TellsEnd(t: Option<Terminal>, event: MonitorEvent)
    requires event.RunFinished?
  {
    && t.Some? && t.value.status == event.outcome && t.value.duration == event.duration && t.value.endedAt == event.endedAt
    && t.value.error == (if event.error.Some? then Some(SafeObserverError(event.error.value)) else None)
  }

  /** An event is told in one batch if its trace runs, or if it starts one with a deployment known; the losses so far,
      at most 10000, are reported with it. */
  lemma EventsAreTold(models: Models, front: seq<Op>, event: MonitorEvent, now: nat, newId: Uuid)
    requires IsRun(front)
    ensures var s := Run(front); var id := event.traceId; var dropped := if s.dropped < 10_000 then s.dropped else 10_000;
      var batches := Emits(models, s, Receive(event, now, newId));
      && (event.RunStarted? ==>
            if DeployedAs(front) == None then batches == []
            else |batches| == 1 && TellsStart(batches[0], models, event, DeployedAs(front).value, dropped))
      && (!event.RunStarted? ==> if Origin(front, id) == None then batches == [] else |batches| == 1)
      && (event.StageReported? && Origin(front, id).Some? ==>
            && IsBatchOf(batches[0], front, id, dropped) && batches[0].terminal == None
            && |batches[0].events| == 1 && TellsStage(batches[0].events[0], event)
            && batches[0].events[0].id
               == (if StageId(front, id, event.stage).Some? then StageId(front, id, event.stage).value else newId))
      && (event.RunFinished? && Origin(front, id).Some? ==>
            IsBatchOf(batches[0], front, id, dropped) && batches[0].events == [] && TellsEnd(batches[0].terminal, event))
  {
    RunKeepsTable(front);
    assert IsKnownOf(Run(front), front, event.traceId);
  }

  /** The last batch of a trace that fell silent. */
  predicate TellsExpiry(t: Option<Terminal>, startedAt: nat, endedAt: nat) {
    && t.Some? && t.value.status == RunError && t.value.endedAt == endedAt
    && t.value.duration == (if endedAt >= startedAt then endedAt - startedAt else 0)
    && t.value.error == Some("embedded telemetry ended without a terminal event")
  }

  /** One batch for each of these traces, of which the first reports the losses. */
  predicate AreLastOf(batches: seq<RuntimeBatch>, front: seq<Op>, ids: seq<TraceId>, dropped: nat, endedAt: nat) {
    && |batches| == |ids|
    && forall i :: 0 <= i < |ids| ==> IsLastOf(batches[i], front, ids[i], if i == 0 then dropped else 0, endedAt)
  }

  predicate IsLastOf(b: RuntimeBatch, front: seq<Op>, id: TraceId, dropped: nat, endedAt: nat) {
    && Origin(front, id).Some? && IsBatchOf(b, front, id, dropped)
    && b.events == [] && TellsExpiry(b.terminal, b.startedAt, endedAt)
  }

  lemma {:induction false} LastBatchesTell(s: State, front: seq<Op>, ids: seq<TraceId>, reported: nat, endedAt: nat)
    requires IsTableOf(s, front) && forall i :: 0 <= i < |ids| ==> ids[i] in s.traces
    ensures AreLastOf(LastBatches(s.traces, ids, reported, endedAt), front, ids, reported, endedAt)
  {
    if ids != [] {
      LastBatchesTell(s, front, ids[..|ids| - 1], reported, endedAt);
      assert IsKnownOf(s, front, ids[|ids| - 1]);
    }
  }

  /** The running traces of a walk that were idle for 150 seconds, in the order of the walk. */
  function Silent(front: seq<Op>, walk: seq<TraceId>, now: nat): seq<TraceId> {
    if walk == [] then []
    else
      var id := walk[|walk| - 1];
      Silent(front, walk[..|walk| - 1], now)
      + (if Origin(front, id).Some? && now >= LastTouched(front, id) + 150_000 then [id] else [])
  }

  lemma {:induction false} ExpiredAreSilent(s: State, front: seq<Op>, walk: seq<TraceId>, now: nat)
    requires IsTableOf(s, front)
    ensures s.Expired(walk, now) == Silent(front, walk, now)
  {
    if walk != [] {
      ExpiredAreSilent(s, front, walk[..|walk| - 1], now);
      assert IsKnownOf(s, front, walk[|walk| - 1]);
    }
  }

  /** An expiry ends every silent trace with one batch, and the first of them reports the losses. */
  lemma ExpiriesAreTold(models: Models, front: seq<Op>, walk: seq<TraceId>, now: nat, clock: Option<nat>)
    requires IsRun(front) && Run(front).IsWalk(walk)
    ensures var s := Run(front); var batches := Emits(models, s, Expire(walk, now, clock));
      if clock == None then batches == []
      else AreLastOf(batches, front, Silent(front, walk, now), if s.dropped < 10_000 then s.dropped else 10_000, clock.value)
  {
    var s := Run(front);
    RunKeepsTable(front);
    ExpiredAreSilent(s, front, walk, now);
    if clock.Some? { LastBatchesTell(s, front, s.Expired(walk, now), s.Reported(), clock.value); }
  }

  // --- Everything that is sent ------------------------------------------------------------------

  lemma {:induction false} SentGrows(models: Models, ops: seq<Op>, n: nat)
    requires n <= |ops|
    ensures Sent(models, ops[..n]) <= Sent(models, ops)
    decreases |ops|
  {
    if n < |ops| {
      SentGrows(models, ops[..|ops| - 1], n);
      assert ops[..|ops| - 1][..n] == ops[..n];
    } else {
      assert ops[..n] == ops;
    }
  }

  lemma {:induction false} RunHasRuns(ops: seq<Op>, n: nat)
    requires IsRun(ops) && n <= |ops|
    ensures IsRun(ops[..n])
    decreases |ops|
  {
    if n < |ops| {
      RunHasRuns(ops[..|ops| - 1], n);
      assert ops[..|ops| - 1][..n] == ops[..n];
    } else {
      assert ops[..n] == ops;
    }
  }

  /** What a run sends has the batches of its operations in order; only events and expiries make any, and they tell
      them as `EventsAreTold` and `ExpiriesAreTold` say. */
  lemma BatchesAreInOrder(models: Models, ops: seq<Op>, n: nat)
    requires IsRun(ops) && n < |ops|
    ensures IsRun(ops[..n])
    ensures Sent(models, ops[..n + 1]) == Sent(models, ops[..n]) + Emits(models, Run(ops[..n]), ops[n])
    ensures Sent(models, ops[..n + 1]) <= Sent(models, ops)
    ensures !ops[n].Receive? && !ops[n].Expire? ==> Sent(models, ops[..n + 1]) == Sent(models, ops[..n])
  {
    RunHasRuns(ops, n);
    SentGrows(models, ops, n + 1);
    assert ops[..n + 1][..n] == ops[..n];
  }
}

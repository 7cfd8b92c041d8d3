/** When the receiver accepts what the monitor of an embedded runtime sends. A batch that it refuses ends
    the connection. */
module MonitorBatches {
  import opened Outcomes
  import opened Text
  import opened TraceIo
  import opened TelemetryEvents
  import opened RecorderRuns
  import opened EmbeddedMonitor
  import M = MonitorRuns

  predicate ValidTerminal(startedAt: nat, terminal: Terminal) {
    && terminal.duration <= MAX_DURATION_MS && startedAt <= terminal.endedAt
    && (terminal.error.Some? ==> ValidText(terminal.error.value, 1, 512))
  }

  predicate ValidRuntimeBatch(reader: Reader, b: RuntimeBatch) {
    && ValidIdentifier(b.traceId) && ValidIdentifier(b.invocationId) && ValidIdentifier(b.deployment.project)
    && ValidIdentifier(b.endpoint) && ValidIdentifier(b.agent)
    && b.startedAt != 0
    && (b.events != [] || b.terminal.Some?)
    && |b.events| <= MAX_EVENTS
    && b.dropped <= MAX_DROPPED
    && (forall t :: t in b.events ==> ValidTelemetry(t))
    && ValidSummary(reader, b.input)
    && ValidSummary(reader, b.output)
    && (b.terminal.Some? ==> ValidTerminal(b.startedAt, b.terminal.value))
  }

  /** What every batch of a trace takes from it. */
  predicate ValidTrace(reader: Reader, t: Trace) {
    && ValidIdentifier(t.traceId) && ValidIdentifier(t.invocationId) && ValidIdentifier(t.deployment.project)
    && ValidIdentifier(t.endpoint) && ValidIdentifier(t.agent)
    && t.startedAt != 0
    && ValidSummary(reader, t.input)
    && ValidSummary(reader, t.output)
  }

  predicate OptionalErrorFits(error: Option<string>) {
    error.Some? ==> ErrorFits(error.value)
  }

  predicate StageInRange(event: MonitorEvent)
    requires event.StageReported?
  {
    NumbersFit(event) && OptionalErrorFits(event.error)
  }

  predicate NumbersFit(event: MonitorEvent)
    requires event.StageReported?
  {
    && (event.status == Started <==> event.elapsed.None?)
    && (event.status == Failed ==> event.error.Some?)
    && event.requestElapsed <= MAX_DURATION_MS
    && AtMost(event.elapsed, MAX_DURATION_MS)
    && AtMost(event.inputTokens, MAX_TOKENS)
    && AtMost(event.outputTokens, MAX_TOKENS)
  }

  /** What the receiver asks of an event, given the trace it belongs to. */
  predicate EventFits(reader: Reader, models: M.Models, s: State, event: MonitorEvent)
    requires s.Sends(event)
  {
    match event
    case RunStarted(_, _, _, _, provider, capability, _) =>
      && ValidTrace(reader, NewTrace(event, s.deployment.value, 0))
      && ValidIdentifier(provider) && ValidIdentifier(capability)
      && ((provider, capability) in models ==> ValidText(models[(provider, capability)], 1, 512))
    case StageReported(id, _, _, _, _, _, _, _, _) => ValidTrace(reader, s.traces[id]) && StageInRange(event)
    case RunFinished(id, _, duration, endedAt, error) =>
      && ValidTrace(reader, s.traces[id])
      && duration <= MAX_DURATION_MS && s.traces[id].startedAt <= endedAt && OptionalErrorFits(error)
  }

  lemma StageValidity(event: MonitorEvent, id: Uuid, error: Option<string>)
    requires event.StageReported? && (error.Some? <==> event.error.Some?)
    ensures ValidTelemetry(StageRecordWith(event, id, error))
        <==> NumbersFit(event) && (error.Some? ==> ValidText(error.value, 1, 512))
  {
  }

  lemma PublicErrorIsValid(error: Option<string>)
    ensures (PublicError(error).Some? ==> ValidText(PublicError(error).value, 1, 512)) <==> OptionalErrorFits(error)
  {
    if error.Some? { SafeErrorIsValid(error.value); }
  }

  lemma StageRecordIsValid(event: MonitorEvent, id: Uuid)
    requires event.StageReported?
    ensures ValidTelemetry(StageRecord(event, id)) <==> StageInRange(event)
  {
    StageValidity(event, id, PublicError(event.error));
    PublicErrorIsValid(event.error);
  }

  lemma OneEvent(t: TraceTelemetry)
    ensures (forall e :: e in [t] ==> ValidTelemetry(e)) <==> ValidTelemetry(t)
  {
    assert t in [t];
  }

  /** What makes a batch of one record valid. */
  lemma RecordBatchValidity(reader: Reader, trace: Trace, t: TraceTelemetry, dropped: nat)
    requires dropped <= MAX_DROPPED
    ensures ValidRuntimeBatch(reader, BatchOf(trace, [t], dropped, None)) <==> ValidTrace(reader, trace) && ValidTelemetry(t)
  {
    OneEvent(t);
  }

  /** What makes a terminal batch valid. */
  lemma TerminalBatchValidity(reader: Reader, trace: Trace, dropped: nat, terminal: Terminal)
    requires dropped <= MAX_DROPPED
    ensures ValidRuntimeBatch(reader, BatchOf(trace, [], dropped, Some(terminal)))
        <==> ValidTrace(reader, trace) && ValidTerminal(trace.startedAt, terminal)
  {
  }

  /** The batch for an event is accepted exactly when the event fits. */
  lemma CommandIsAccepted(reader: Reader, models: M.Models, s: State, event: MonitorEvent, now: nat, newId: Uuid)
    requires s.Sends(event)
    ensures ValidRuntimeBatch(reader, s.Command(models, event, now, newId).value) <==> EventFits(reader, models, s, event)
  {
    match event
    case RunStarted(_, _, _, _, provider, capability, _) =>
      var model := if (provider, capability) in models then Some(models[(provider, capability)]) else None;
      RecordBatchValidity(reader, NewTrace(event, s.deployment.value, now), InvocationStarted(provider, capability, model),
                          s.Reported());
    case StageReported(id, stage, _, _, _, _, _, _, _) =>
      StageCommandIsAccepted(reader, s, event, Observing(s.traces[id], stage, now, newId));
    case RunFinished(id, status, duration, endedAt, error) =>
      FinishIsAccepted(reader, s, event);
  }

  lemma StageCommandIsAccepted(reader: Reader, s: State, event: MonitorEvent, trace: Trace)
    requires event.StageReported? && event.stage in trace.stages
    ensures ValidRuntimeBatch(reader, BatchOf(trace, [StageRecord(event, trace.stages[event.stage])], s.Reported(), None))
        <==> ValidTrace(reader, trace) && StageInRange(event)
  {
    var t := StageRecord(event, trace.stages[event.stage]);
    RecordBatchValidity(reader, trace, t, s.Reported());
    StageRecordIsValid(event, trace.stages[event.stage]);
  }

  lemma FinishIsAccepted(reader: Reader, s: State, event: MonitorEvent)
    requires event.RunFinished? && event.traceId in s.traces
    ensures var trace := s.traces[event.traceId];
      ValidRuntimeBatch(reader, BatchOf(trace, [], s.Reported(),
                        Some(Terminal(event.outcome, event.duration, event.endedAt, PublicError(event.error)))))
      <==> ValidTrace(reader, trace) && event.duration <= MAX_DURATION_MS && trace.startedAt <= event.endedAt
           && OptionalErrorFits(event.error)
  {
    var terminal := Terminal(event.outcome, event.duration, event.endedAt, PublicError(event.error));
    TerminalBatchValidity(reader, s.traces[event.traceId], s.Reported(), terminal);
    PublicErrorIsValid(event.error);
  }

  lemma EndedErrorFacts()
    ensures 0 < |ENDED_WITHOUT_TERMINAL| <= 128 && '\0' !in ENDED_WITHOUT_TERMINAL
  {
    var a, b, c := "embedded telemetry", " ended without", " a terminal event";
    assert ENDED_WITHOUT_TERMINAL == a + b + c;
    assert '\0' !in a && '\0' !in b && '\0' !in c;
  }

  /** The last batch of an expired trace is accepted exactly when the clock shows at most a day since the
      trace started: a longer run that falls silent, or a clock that went back, makes a batch that is
      refused. */
  lemma ExpiredBatchIsAccepted(reader: Reader, trace: Trace, reported: nat, endedAt: nat)
    requires ValidTrace(reader, trace) && reported <= MAX_DROPPED
    ensures ValidRuntimeBatch(reader, LastBatch(trace, reported, endedAt))
      <==> trace.startedAt <= endedAt <= trace.startedAt + MAX_DURATION_MS
  {
    EndedIsValid(trace, endedAt);
    TerminalBatchValidity(reader, trace, reported, ExpiredTerminal(trace, endedAt));
  }

  lemma EndedIsValid(trace: Trace, endedAt: nat)
    ensures ValidTerminal(trace.startedAt, ExpiredTerminal(trace, endedAt))
        <==> trace.startedAt <= endedAt <= trace.startedAt + MAX_DURATION_MS
  {
    EndedErrorFacts();
    ShortTextIsValid(ENDED_WITHOUT_TERMINAL);
  }

  // --- Runs -------------------------------------------------------------------------------------

  predicate OpFits(reader: Reader, models: M.Models, s: State, op: M.Op) {
    match op
    case Receive(event, _, _) => s.Sends(event) ==> EventFits(reader, models, s, event)
    case RecordIo(_, input, output, _) => ValidSummary(reader, input) && ValidSummary(reader, output)
    case Expire(walk, now, clock) =>
      s.Expires(walk, now, clock) ==>
        forall id :: id in s.Expired(walk, now) ==>
          s.traces[id].startedAt <= clock.value <= s.traces[id].startedAt + MAX_DURATION_MS
    case _ => true
  }

  predicate ValidTraces(reader: Reader, s: State) {
    forall id :: id in s.traces ==> ValidTrace(reader, s.traces[id])
  }

  lemma {:induction false} LastBatchesAreAccepted(reader: Reader, s: State, ids: seq<TraceId>, reported: nat, endedAt: nat)
    requires ValidTraces(reader, s) && reported <= MAX_DROPPED
    requires forall i :: 0 <= i < |ids| ==> ids[i] in s.traces
    requires forall id :: id in ids ==> s.traces[id].startedAt <= endedAt <= s.traces[id].startedAt + MAX_DURATION_MS
    ensures forall b :: b in LastBatches(s.traces, ids, reported, endedAt) ==> ValidRuntimeBatch(reader, b)
  {
    if ids != [] {
      var n := |ids| - 1;
      assert ids[n] in ids;
      var shown := if |ids| == 1 then reported else 0;
      LastBatchesAreAccepted(reader, s, ids[..n], reported, endedAt);
      ExpiredBatchIsAccepted(reader, s.traces[ids[n]], shown, endedAt);
      assert LastBatches(s.traces, ids, reported, endedAt)
          == LastBatches(s.traces, ids[..n], reported, endedAt) + [LastBatch(s.traces[ids[n]], shown, endedAt)];
    }
  }

  lemma OpIsAccepted(reader: Reader, models: M.Models, s: State, op: M.Op)
    requires ValidTraces(reader, s) && M.Enabled(s, op) && OpFits(reader, models, s, op)
    ensures ValidTraces(reader, M.Apply(s, op))
    ensures forall b :: b in M.Emits(models, s, op) ==> ValidRuntimeBatch(reader, b)
  {
    if op.Receive? && s.Sends(op.event) {
      CommandIsAccepted(reader, models, s, op.event, op.now, op.newId);
    } else if op.Expire? && s.Expires(op.walk, op.now, op.clock) {
      LastBatchesAreAccepted(reader, s, s.Expired(op.walk, op.now), s.Reported(), op.clock.value);
    }
  }

  /** While everything that the monitor hears fits, the receiver accepts all that it sends. */
  lemma {:induction false} EveryBatchIsAccepted(reader: Reader, models: M.Models, ops: seq<M.Op>)
    requires M.IsRun(ops)
    requires forall k :: 0 <= k < |ops| ==> OpFits(reader, models, M.Run(ops[..k]), ops[k])
    ensures ValidTraces(reader, M.Run(ops))
    ensures forall b :: b in M.Sent(models, ops) ==> ValidRuntimeBatch(reader, b)
  {
    if ops != [] {
      var n := |ops| - 1;
      assert forall k :: 0 <= k < n ==> ops[..n][..k] == ops[..k] && ops[..n][k] == ops[k];
      EveryBatchIsAccepted(reader, models, ops[..n]);
      OpIsAccepted(reader, models, M.Run(ops[..n]), ops[n]);
    }
  }

  /** A trace that runs for more than a day and falls silent makes the receiver refuse a batch, whatever the
      reader, the deployment and the trace are: its start is accepted, its forced end is not. */
  lemma LongTraceIsRefused(reader: Reader, models: M.Models, d: Deployment, event: MonitorEvent, clock: nat)
    returns (ops: seq<M.Op>)
    requires event.RunStarted? && EventFits(reader, models, State(map[], 0, Some(d)), event)
    requires clock > event.startedAt + MAX_DURATION_MS
    ensures M.IsRun(ops) && |M.Sent(models, ops)| == 2
    ensures ValidRuntimeBatch(reader, M.Sent(models, ops)[0]) && !ValidRuntimeBatch(reader, M.Sent(models, ops)[1])
  {
    var id, s, trace := event.traceId, State(map[], 0, Some(d)), NewTrace(event, d, 0);
    var running := State(map[id := trace], 0, Some(d));
    var begin, end := M.Receive(event, 0, 0), M.Expire([id], RETENTION_MS, Some(clock));
    var first, last := s.Command(models, event, 0, 0).value, LastBatch(trace, 0, clock);
    OneMore(models, [], M.Deploy(d));
    OneMore(models, [M.Deploy(d)], begin);
    OnlyTraceExpires(running, id, trace, clock);
    OneMore(models, [M.Deploy(d), begin], end);
    ops := [M.Deploy(d), begin, end];
    assert [M.Deploy(d)] == [] + [M.Deploy(d)] && [M.Deploy(d), begin] == [M.Deploy(d)] + [begin];
    assert ops == [M.Deploy(d), begin] + [end];
    assert M.Sent(models, ops) == [first, last];
    CommandIsAccepted(reader, models, s, event, 0, 0);
    ExpiredBatchIsAccepted(reader, trace, 0, clock);
  }

  lemma OneMore(models: M.Models, ops: seq<M.Op>, op: M.Op)
    ensures M.Run(ops + [op]) == M.Apply(M.Run(ops), op)
    ensures M.Sent(models, ops + [op]) == M.Sent(models, ops) + M.Emits(models, M.Run(ops), op)
    ensures M.IsRun(ops + [op]) <==> M.IsRun(ops) && M.Enabled(M.Run(ops), op)
  {
    assert (ops + [op])[..|ops|] == ops;
  }

  lemma OnlyTraceExpires(s: State, id: TraceId, trace: Trace, clock: nat)
    requires s.traces == map[id := trace] && trace.lastEvent == 0 && s.dropped == 0
    ensures s.IsWalk([id]) && s.ExpiryCommands([id], RETENTION_MS, Some(clock)) == [LastBatch(trace, 0, clock)]
  {
    assert [id][..0] == [] && s.Expired([], RETENTION_MS) == [];
    assert s.Expired([id], RETENTION_MS) == [id];
    assert LastBatches(s.traces, [], 0, clock) == [];
  }
}

/** The monitor of an embedded runtime: what it knows about each running trace, the summaries that wait to
    be sent, and a counter of the events that were lost on the way to it. */
module EmbeddedMonitor {
  import opened Outcomes
  import opened TraceIo
  import opened TelemetryEvents

  const RETENTION_MS := 150_000

  const ENDED_WITHOUT_TERMINAL := "embedded telemetry ended without a terminal event"

  type TraceId = string

  datatype Deployment = Deployment(id: Uuid, project: string)

  datatype Trace = Trace(
    deployment: Deployment, traceId: TraceId, invocationId: string, endpoint: string, agent: string, startedAt: nat,
    lastEvent: nat, stages: map<Stage, Uuid>, input: Option<TraceIoSummary>, output: Option<TraceIoSummary>)

  datatype RunStatus = RunCompleted | RunCancelled | RunError

  datatype Terminal = Terminal(status: RunStatus, duration: nat, endedAt: nat, error: Option<string>)

  datatype RuntimeBatch = RuntimeBatch(
    deployment: Deployment, traceId: TraceId, invocationId: string, endpoint: string, agent: string, startedAt: nat,
    events: seq<TraceTelemetry>, dropped: nat, input: Option<TraceIoSummary>, output: Option<TraceIoSummary>,
    terminal: Option<Terminal>)

  datatype MonitorEvent =
    | RunStarted(traceId: TraceId, invocationId: string, endpoint: string, agent: string, provider: string,
                 capability: string, startedAt: nat)
    | StageReported(traceId: TraceId, stage: Stage, status: StageStatus, elapsed: Option<nat>, requestElapsed: nat,
                    inputTokens: Option<nat>, outputTokens: Option<nat>, resident: Option<bool>, error: Option<string>)
    | RunFinished(traceId: TraceId, outcome: RunStatus, duration: nat, endedAt: nat, error: Option<string>)

  function BatchOf(trace: Trace, events: seq<TraceTelemetry>, dropped: nat, terminal: Option<Terminal>): RuntimeBatch {
    RuntimeBatch(trace.deployment, trace.traceId, trace.invocationId, trace.endpoint, trace.agent, trace.startedAt,
                 events, dropped, trace.input, trace.output, terminal)
  }

  /** A trace after a batch took its summaries. */
  function Emptied(trace: Trace): Trace {
    trace.(input := None, output := None)
  }

  function NewTrace(event: MonitorEvent, deployment: Deployment, now: nat): Trace
    requires event.RunStarted?
  {
    Trace(deployment, event.traceId, event.invocationId, event.endpoint, event.agent, event.startedAt, now, map[],
          None, None)
  }

  /** The trace after an event of a stage; the first event of a stage fixes its observation id. */
  function Observing(trace: Trace, stage: Stage, now: nat, newId: Uuid): Trace {
    trace.(lastEvent := now, stages := if stage in trace.stages then trace.stages else trace.stages[stage := newId])
  }

  function StageRecord(event: MonitorEvent, id: Uuid): TraceTelemetry
    requires event.StageReported?
  {
    StageRecordWith(event, id, PublicError(event.error))
  }

  function StageRecordWith(event: MonitorEvent, id: Uuid, error: Option<string>): TraceTelemetry
    requires event.StageReported?
  {
    var elapsed := if event.elapsed.Some? then event.elapsed.value else 0;
    ProviderStage(
      id, event.stage, event.status,
      if event.requestElapsed > elapsed then event.requestElapsed - elapsed else 0,
      if event.status == Started then None else Some(event.requestElapsed),
      event.elapsed, Some(event.requestElapsed), event.inputTokens, event.outputTokens, event.resident, error)
  }

  function Saturating(a: nat, b: nat): nat {
    if a > b then a - b else 0
  }

  predicate IsExpired(trace: Trace, now: nat) {
    Saturating(now, trace.lastEvent) >= RETENTION_MS
  }

  function ExpiredTerminal(trace: Trace, endedAt: nat): Terminal {
    Terminal(RunError, Saturating(endedAt, trace.startedAt), endedAt, Some(ENDED_WITHOUT_TERMINAL))
  }

  /** The table without these traces. */
  function Without(traces: map<TraceId, Trace>, ids: seq<TraceId>): (r: map<TraceId, Trace>)
    ensures forall id :: id in r <==> id in traces && id !in ids
    ensures forall id :: id in r ==> r[id] == traces[id]
  {
    if ids == [] then traces else Without(traces, ids[..|ids| - 1]) - {ids[|ids| - 1]}
  }

  /** The last batches of these traces; the first of them reports the drops. */
  function LastBatches(traces: map<TraceId, Trace>, ids: seq<TraceId>, reported: nat, endedAt: nat): (r: seq<RuntimeBatch>)
    requires forall i :: 0 <= i < |ids| ==> ids[i] in traces
    ensures |r| == |ids|
  {
    if ids == [] then []
    else
      LastBatches(traces, ids[..|ids| - 1], reported, endedAt)
      + [LastBatch(traces[ids[|ids| - 1]], if |ids| == 1 then reported else 0, endedAt)]
  }

  predicate Distinct(ids: seq<TraceId>) {
    forall i, j :: 0 <= i < j < |ids| ==> ids[i] != ids[j]
  }

  function LastBatch(trace: Trace, reported: nat, endedAt: nat): RuntimeBatch {
    BatchOf(trace, [], reported, Some(ExpiredTerminal(trace, endedAt)))
  }

  datatype State = State(traces: map<TraceId, Trace>, dropped: nat, deployment: Option<Deployment>)
  {
    function Reported(): nat {
      Min(dropped, MAX_DROPPED)
    }

    /** Whether an event leads to a batch, which takes the drop counter. */
    predicate Sends(event: MonitorEvent) {
      if event.RunStarted? then deployment.Some? else event.traceId in traces
    }

    function After(event: MonitorEvent, now: nat, newId: Uuid): State {
      if !Sends(event) then this
      else
        match event
        case RunStarted(id, _, _, _, _, _, _) =>
          this.(traces := traces[id := NewTrace(event, deployment.value, now)], dropped := 0)
        case StageReported(id, stage, _, _, _, _, _, _, _) =>
          this.(traces := traces[id := Emptied(Observing(traces[id], stage, now, newId))], dropped := 0)
        case RunFinished(id, _, _, _, _) => this.(traces := traces - {id}, dropped := 0)
    }

    function Command(models: map<(string, string), string>, event: MonitorEvent, now: nat, newId: Uuid)
      : Option<RuntimeBatch>
    {
      if !Sends(event) then None
      else
        match event
        case RunStarted(id, _, _, _, provider, capability, _) =>
          var model := if (provider, capability) in models then Some(models[(provider, capability)]) else None;
          Some(BatchOf(NewTrace(event, deployment.value, now), [InvocationStarted(provider, capability, model)],
                       Reported(), None))
        case StageReported(id, stage, _, _, _, _, _, _, _) =>
          var trace := Observing(traces[id], stage, now, newId);
          Some(BatchOf(trace, [StageRecord(event, trace.stages[stage])], Reported(), None))
        case RunFinished(id, status, duration, endedAt, error) =>
          Some(BatchOf(traces[id], [], Reported(), Some(Terminal(status, duration, endedAt, PublicError(error)))))
    }

    function Record(id: TraceId, newInput: Option<TraceIoSummary>, newOutput: Option<TraceIoSummary>, now: nat): State {
      if id !in traces then this
      else
        var trace := traces[id];
        this.(traces := traces[id := trace.(
          lastEvent := now,
          input := if newInput.Some? then newInput else trace.input,
          output := if newOutput.Some? then newOutput else trace.output)])
    }

    /** A walk over the table visits every trace once, in some order. */
    predicate IsWalk(walk: seq<TraceId>) {
      && (forall i :: 0 <= i < |walk| ==> walk[i] in traces)
      && (forall id :: id in traces ==> id in walk)
      && Distinct(walk)
    }

    /** The expired traces among these, in the order of the walk. */
    function Expired(walk: seq<TraceId>, now: nat): (r: seq<TraceId>)
      ensures forall id :: id in r <==> id in walk && id in traces && IsExpired(traces[id], now)
    {
      if walk == [] then []
      else
        var rest := Expired(walk[..|walk| - 1], now);
        var id := walk[|walk| - 1];
        if id in traces && IsExpired(traces[id], now) then rest + [id] else rest
    }

    lemma ExpiredStep(walk: seq<TraceId>, i: nat, now: nat)
      requires i < |walk| && walk[i] in traces
      ensures Expired(walk[..i + 1], now)
           == if IsExpired(traces[walk[i]], now) then Expired(walk[..i], now) + [walk[i]] else Expired(walk[..i], now)
    {
      assert walk[..i + 1][..i] == walk[..i];
    }

    lemma {:induction false} ExpiredIsDistinct(walk: seq<TraceId>, now: nat)
      requires Distinct(walk)
      ensures Distinct(Expired(walk, now))
    {
      if walk != [] {
        ExpiredIsDistinct(walk[..|walk| - 1], now);
        assert walk[|walk| - 1] !in walk[..|walk| - 1];
      }
    }

    /** Nothing happens without an expired trace, or when the clock cannot be read. */
    predicate Expires(walk: seq<TraceId>, now: nat, clock: Option<nat>) {
      Expired(walk, now) != [] && clock.Some?
    }

    function AfterExpiry(walk: seq<TraceId>, now: nat, clock: Option<nat>): State {
      if !Expires(walk, now, clock) then this
      else this.(traces := Without(traces, Expired(walk, now)), dropped := 0)
    }

    function ExpiryCommands(walk: seq<TraceId>, now: nat, clock: Option<nat>): seq<RuntimeBatch> {
      if !Expires(walk, now, clock) then [] else LastBatches(traces, Expired(walk, now), Reported(), clock.value)
    }
  }

  class Monitor {
    const models: map<(string, string), string>
    var traces: map<TraceId, Trace>
    var dropped: nat
    var deployment: Option<Deployment>

    ghost function Model(): State
      reads this
    {
      State(traces, dropped, deployment)
    }

    constructor (models: map<(string, string), string>)
      ensures Model() == State(map[], 0, None) && this.models == models
    {
      this.models := models;
      traces, dropped, deployment := map[], 0, None;
    }

    method SetDeployment(d: Deployment)
      modifies this
      ensures Model() == old(Model()).(deployment := Some(d))
    {
      deployment := Some(d);
    }

    /** An event found the monitor's queue full. */
    method NoteDrop()
      modifies this
      ensures Model() == old(Model()).(dropped := old(dropped) + 1)
    {
      dropped := dropped + 1;
    }

    method TakeDropped() returns (reported: nat)
      modifies `dropped
      ensures dropped == 0
      ensures reported == old(Model()).Reported()
    {
      reported := Min(dropped, MAX_DROPPED);
      dropped := 0;
    }

    method Receive(event: MonitorEvent, now: nat, newId: Uuid) returns (command: Option<RuntimeBatch>)
      modifies this
      ensures Model() == old(Model()).After(event, now, newId)
      ensures command == old(Model()).Command(models, event, now, newId)
    {
      match event {
        case RunStarted(id, invocationId, endpoint, agent, provider, capability, startedAt) =>
          if deployment.None? { return None; }
          var trace := Trace(deployment.value, id, invocationId, endpoint, agent, startedAt, now, map[], None, None);
          var reported := TakeDropped();
          var model := if (provider, capability) in models then Some(models[(provider, capability)]) else None;
          command := Some(BatchOf(trace, [InvocationStarted(provider, capability, model)], reported, None));
          trace := Emptied(trace);
          traces := traces[id := trace];
        case StageReported(id, stage, status, elapsed, requestElapsed, inputTokens, outputTokens, resident, error) =>
          if id !in traces { return None; }
          var trace := traces[id].(lastEvent := now);
          if stage !in trace.stages { trace := trace.(stages := trace.stages[stage := newId]); }
          var start := Saturating(requestElapsed, if elapsed.Some? then elapsed.value else 0);
          var end := if status == Started then None else Some(requestElapsed);
          var record := ProviderStage(
            trace.stages[stage], stage, status, start, end, elapsed, Some(requestElapsed), inputTokens, outputTokens,
            resident, PublicError(error));
          var reported := TakeDropped();
          command := Some(BatchOf(trace, [record], reported, None));
          traces := traces[id := Emptied(trace)];
        case RunFinished(id, status, duration, endedAt, error) =>
          if id !in traces { return None; }
          var trace := traces[id];
          traces := traces - {id};
          var reported := TakeDropped();
          command := Some(BatchOf(trace, [], reported, Some(Terminal(status, duration, endedAt, PublicError(error)))));
      }
    }

    method RecordIo(id: TraceId, input: Option<TraceIoSummary>, output: Option<TraceIoSummary>, now: nat)
      modifies this
      ensures Model() == old(Model()).Record(id, input, output, now)
    {
      if id !in traces { return; }
      var trace := traces[id].(lastEvent := now);
      if input.Some? { trace := trace.(input := input); }
      if output.Some? { trace := trace.(output := output); }
      traces := traces[id := trace];
    }

    method CollectExpired(walk: seq<TraceId>, now: nat) returns (expired: seq<TraceId>)
      requires Model().IsWalk(walk)
      ensures expired == Model().Expired(walk, now) && Distinct(expired)
    {
      expired := [];
      for i := 0 to |walk|
        invariant expired == Model().Expired(walk[..i], now)
      {
        Model().ExpiredStep(walk, i, now);
        if IsExpired(traces[walk[i]], now) {
          expired := expired + [walk[i]];
        }
      }
      assert walk[..|walk|] == walk;
      Model().ExpiredIsDistinct(walk, now);
    }

    method SendLast(expired: seq<TraceId>, endedAt: nat) returns (commands: seq<RuntimeBatch>)
      requires Distinct(expired) && forall i :: 0 <= i < |expired| ==> expired[i] in traces
      modifies `traces, `dropped
      ensures traces == Without(old(traces), expired) && dropped == 0
      ensures commands == LastBatches(old(traces), expired, old(Model()).Reported(), endedAt)
    {
      ghost var before := traces;
      var reported := TakeDropped();
      ghost var first := reported;
      commands := [];
      for i := 0 to |expired|
        invariant traces == Without(before, expired[..i]) && dropped == 0
        invariant reported == if i == 0 then first else 0
        invariant commands == LastBatches(before, expired[..i], first, endedAt)
      {
        assert expired[..i + 1][..i] == expired[..i];
        var trace := traces[expired[i]];
        traces := traces - {expired[i]};
        commands := commands + [LastBatch(trace, reported, endedAt)];
        reported := 0;
      }
      assert expired[..|expired|] == expired;
    }

    /** The table is walked in an order of its own. */
    method Expire(walk: seq<TraceId>, now: nat, clock: Option<nat>) returns (commands: Option<seq<RuntimeBatch>>)
      requires Model().IsWalk(walk)
      modifies this
      ensures Model() == old(Model()).AfterExpiry(walk, now, clock)
      ensures commands.None? <==> old(Model()).Expired(walk, now) != [] && clock.None?
      ensures commands.Some? ==> commands.value == old(Model()).ExpiryCommands(walk, now, clock)
    {
      var expired := CollectExpired(walk, now);
      if expired == [] { return Some([]); }
      if clock.None? { return None; }
      var batches := SendLast(expired, clock.value);
      commands := Some(batches);
    }
  }
}

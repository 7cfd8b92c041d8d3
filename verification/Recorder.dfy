/** The recorder of one invocation: a bounded buffer of telemetry, the open observations, a drop
    counter and a seal. */
module Recorder {
  import opened Outcomes
  import opened TraceIo
  import opened TelemetryEvents

  datatype Observation = Observation(stage: Stage, id: Uuid, start: nat)

  /** What the gateway reads from an event's metadata. */
  datatype Metadata = Metadata(inputTokens: Option<nat>, outputTokens: Option<nat>, resident: Option<bool>)

  datatype ProviderEvent =
    | Activity
    | OutputDelta
    | StageStarted(stage: Stage, metadata: Metadata)
    | StageCompleted(stage: Stage, elapsed: nat, metadata: Metadata)
    | StageFailed(stage: Stage, elapsed: nat, message: string, metadata: Metadata)

  /** The index of the open observation of a stage, or the number of observations. */
  function OpenIndex(active: seq<Observation>, stage: Stage): (i: nat)
    ensures i <= |active|
    ensures i < |active| ==> active[i].stage == stage
    ensures forall j :: 0 <= j < i ==> active[j].stage != stage
  {
    if active == [] || active[0].stage == stage then 0 else 1 + OpenIndex(active[1..], stage)
  }

  /** The index of the first Started record, of this observation if one is given. */
  function StartedIndex(events: seq<TraceTelemetry>, id: Option<Uuid>): (i: nat)
    ensures i <= |events|
    ensures i < |events| ==> events[i].Opens() && (id.Some? ==> events[i].id == id.value)
    ensures forall j :: 0 <= j < i ==> !(events[j].Opens() && (id.Some? ==> events[j].id == id.value))
  {
    if events == [] || (events[0].Opens() && (id.Some? ==> events[0].id == id.value)) then 0
    else 1 + StartedIndex(events[1..], id)
  }

  /** Which record of a full buffer gives way to a terminal record: the observation's own Started
      record, else any Started record, else the one after the first. */
  function Victim(events: seq<TraceTelemetry>, event: TraceTelemetry): nat {
    var own := if event.InvocationStarted? then |events| else StartedIndex(events, Some(event.id));
    if own < |events| then own
    else
      var other := StartedIndex(events, None);
      if other < |events| then other else if |events| > 1 then 1 else 0
  }

  /** The record that closes an observation by force, with a public error. */
  function FailedRecord(o: Observation, end: nat, error: Option<string>): TraceTelemetry {
    ProviderStage(
      o.id, o.stage, Failed, o.start, Some(Max(end, o.start)), Some(if end > o.start then end - o.start else 0),
      None, None, None, None, error)
  }

  function CountDrop(dropped: nat): nat {
    Min(dropped + 1, MAX_DROPPED)
  }

  datatype State = State(
    events: seq<TraceTelemetry>, active: seq<Observation>, dropped: nat,
    input: Option<TraceIoSummary>, output: Option<TraceIoSummary>, isSealed: bool)
  {
    function SetInput(summary: TraceIoSummary): State {
      if isSealed then this else this.(input := Some(summary))
    }

    function SetOutput(summary: TraceIoSummary): State {
      if isSealed then this else this.(output := Some(summary))
    }

    function Push(event: TraceTelemetry): State {
      if isSealed then this
      else if |events| < MAX_EVENTS then this.(events := events + [event])
      else this.(dropped := CountDrop(dropped))
    }

    function PushTerminal(event: TraceTelemetry): State {
      if |events| < MAX_EVENTS then this.(events := events + [event])
      else this.(events := events[Victim(events, event) := event], dropped := CountDrop(dropped))
    }

    /** Push the Failed records of a list of observations, in order. */
    function PushFailed(open: seq<Observation>, end: nat, error: Option<string>): State
      decreases open
    {
      if open == [] then this
      else PushTerminal(FailedRecord(open[0], end, error)).PushFailed(open[1..], end, error)
    }

    function FailActive(end: nat, error: Option<string>): State {
      this.(active := []).PushFailed(active, end, PublicError(error))
    }

    function Sealed(): State {
      this.(events := [], active := [], input := None, output := None, isSealed := true)
    }

    function TakenBatch(): Batch {
      Batch(events, dropped, input, output)
    }

    /** The record that a provider event makes, if it makes one, with an unused id at hand. */
    function Observed(event: ProviderEvent, offset: nat, newId: Uuid): Option<TraceTelemetry> {
      ObservedWith(event, offset, newId, if event.StageFailed? then Some(SafeObserverError(event.message)) else None)
    }

    function ObservedWith(event: ProviderEvent, offset: nat, newId: Uuid, error: Option<string>): Option<TraceTelemetry> {
      if isSealed || event.Activity? || event.OutputDelta? then None
      else
        var i := OpenIndex(active, event.stage);
        var m := event.metadata;
        if event.StageStarted? then
          var o := if i < |active| then active[i] else Observation(event.stage, newId, offset);
          Some(ProviderStage(
            o.id, event.stage, Started, o.start, None, None, None, m.inputTokens, m.outputTokens, m.resident, None))
        else
          var o := if i < |active| then active[i]
                   else Observation(event.stage, newId, if offset > event.elapsed then offset - event.elapsed else 0);
          var completed := event.StageCompleted?;
          Some(ProviderStage(
            o.id, event.stage, if completed then Completed else Failed, o.start, Some(Max(offset, o.start)),
            Some(event.elapsed), if event.stage == FirstToken && completed then Some(offset) else None,
            m.inputTokens, m.outputTokens, m.resident, error))
    }

    /** The open observations after the event. */
    function ActiveAfter(event: ProviderEvent, offset: nat, newId: Uuid): seq<Observation> {
      if isSealed || event.Activity? || event.OutputDelta? then active
      else
        var i := OpenIndex(active, event.stage);
        if event.StageStarted? then
          if i < |active| then active else active + [Observation(event.stage, newId, offset)]
        else if i < |active| then active[..i] + active[i + 1..]
        else active
    }

    function Record(event: ProviderEvent, offset: nat, newId: Uuid): State {
      var observed := Observed(event, offset, newId);
      if observed.None? then this
      else this.(active := ActiveAfter(event, offset, newId)).Push(observed.value)
    }
  }

  function Begin(providerKey: string, capability: string, model: Option<string>): State {
    State([InvocationStarted(providerKey, capability, model)], [], 0, None, None, false)
  }

  class InvocationTelemetry {
    var events: seq<TraceTelemetry>
    var active: seq<Observation>
    var dropped: nat
    var input: Option<TraceIoSummary>
    var output: Option<TraceIoSummary>
    var isSealed: bool

    ghost function Model(): State
      reads this
    {
      State(events, active, dropped, input, output, isSealed)
    }

    constructor (providerKey: string, capability: string, model: Option<string>)
      ensures Model() == Begin(providerKey, capability, model)
    {
      events := [InvocationStarted(providerKey, capability, model)];
      active, dropped, input, output, isSealed := [], 0, None, None, false;
    }

    method SetRootInputSummary(summary: TraceIoSummary)
      modifies this
      ensures Model() == old(Model()).SetInput(summary)
    {
      if !isSealed { input := Some(summary); }
    }

    method SetRootOutputSummary(summary: TraceIoSummary)
      modifies this
      ensures Model() == old(Model()).SetOutput(summary)
    {
      if !isSealed { output := Some(summary); }
    }

    method Push(event: TraceTelemetry)
      modifies this
      ensures Model() == old(Model()).Push(event)
    {
      if isSealed { return; }
      if |events| < MAX_EVENTS {
        events := events + [event];
      } else {
        dropped := Min(dropped + 1, MAX_DROPPED);
      }
    }

    method PushTerminal(event: TraceTelemetry)
      modifies this
      ensures Model() == old(Model()).PushTerminal(event)
    {
      if |events| < MAX_EVENTS {
        events := events + [event];
        return;
      }
      var replacement := |events|;
      if !event.InvocationStarted? {
        replacement := StartedIndex(events, Some(event.id));
      }
      if replacement == |events| {
        replacement := StartedIndex(events, None);
      }
      if replacement == |events| {
        replacement := 1;
      }
      events := events[replacement := event];
      dropped := Min(dropped + 1, MAX_DROPPED);
    }

    method FailActive(end: nat, error: Option<string>) returns (records: seq<TraceTelemetry>)
      modifies this
      ensures Model() == old(Model()).FailActive(end, error)
      ensures |records| == |old(active)|
      ensures forall i :: 0 <= i < |records| ==> records[i] == FailedRecord(old(active)[i], end, PublicError(error))
    {
      var open := active;
      active := [];
      records := [];
      var public := PublicError(error);
      ghost var target := Model().PushFailed(open, end, public);
      for i := 0 to |open|
        invariant |records| == i
        invariant forall j :: 0 <= j < i ==> records[j] == FailedRecord(open[j], end, public)
        invariant Model().PushFailed(open[i..], end, public) == target
      {
        var record := FailedRecord(open[i], end, public);
        assert open[i..][0] == open[i] && open[i..][1..] == open[i + 1..];
        PushTerminal(record);
        records := records + [record];
      }
    }

    method Finish() returns (batch: Batch)
      modifies this
      ensures Model() == old(Model()).Sealed()
      ensures batch == old(Model()).TakenBatch()
    {
      isSealed := true;
      active := [];
      batch := Batch(events, dropped, input, output);
      events, input, output := [], None, None;
    }

    /** Records one provider event at an offset of the invocation. */
    method SafeTraceTelemetry(event: ProviderEvent, offset: nat, newId: Uuid) returns (record: Option<TraceTelemetry>)
      modifies this
      ensures Model() == old(Model()).Record(event, offset, newId)
      ensures record == old(Model()).Observed(event, offset, newId)
    {
      if isSealed || event.Activity? || event.OutputDelta? { return None; }
      var stage, metadata := event.stage, event.metadata;
      var status := if event.StageStarted? then Started else if event.StageCompleted? then Completed else Failed;
      var elapsed := if event.StageStarted? then None else Some(event.elapsed);
      var error := if event.StageFailed? then Some(SafeObserverError(event.message)) else None;
      var requestElapsed := if stage == FirstToken && status == Completed then Some(offset) else None;
      var index := OpenIndex(active, stage);
      var id, start := newId, offset;
      if index < |active| {
        id, start := active[index].id, active[index].start;
        if status != Started { active := active[..index] + active[index + 1..]; }
      } else if status == Started {
        active := active + [Observation(stage, newId, offset)];
      } else {
        start := if offset > elapsed.value then offset - elapsed.value else 0;
      }
      var end := if status == Started then None else Some(Max(offset, start));
      var telemetry := ProviderStage(
        id, stage, status, start, end, elapsed, requestElapsed,
        metadata.inputTokens, metadata.outputTokens, metadata.resident, error);
      Push(telemetry);
      return Some(telemetry);
    }
  }
}

/** What the records of an invocation say: each one tells its event field by field, they are reported in the order
    of the events, and the buffer holds what was reported. */
module RecordContents {
  import opened Outcomes
  import opened TelemetryEvents
  import opened Recorder
  import opened RecorderRuns
  import opened Pairs
  import opened InvocationRuns

  predicate IsStageEvent(event: ProviderEvent) {
    event.StageStarted? || event.StageCompleted? || event.StageFailed?
  }

  // --- One record -------------------------------------------------------------------------------

  /** The record has the event's stage, status and numbers; its error if it failed; and the offset as the time to the
      first token if it completed that stage. */
  predicate Tells(t: TraceTelemetry, event: ProviderEvent, offset: nat)
    requires IsStageEvent(event)
  {
    && t.ProviderStage? && t.stage == event.stage
    && (t.status == Started <==> event.StageStarted?)
    && (t.status == Completed <==> event.StageCompleted?)
    && (t.status == Failed <==> event.StageFailed?)
    && t.inputTokens == event.metadata.inputTokens
    && t.outputTokens == event.metadata.outputTokens
    && t.resident == event.metadata.resident
    && t.elapsed == (if event.StageStarted? then None else Some(event.elapsed))
    && t.error == (if event.StageFailed? then Some(SafeObserverError(event.message)) else None)
    && t.requestElapsed == (if event.StageCompleted? && event.stage == FirstToken then Some(offset) else None)
    && (event.StageStarted? ==> t.end == None)
    && (!event.StageStarted? ==> t.end.Some? && t.end.value >= offset && t.end.value >= t.start
                                 && (t.end.value == offset || t.end.value == t.start))
  }

  /** Where an event without an open observation begins: a terminal one as long ago as it took. */
  function BeginsAt(event: ProviderEvent, offset: nat): nat
    requires IsStageEvent(event)
  {
    if event.StageStarted? || offset < event.elapsed then (if event.StageStarted? then offset else 0)
    else offset - event.elapsed
  }

  /** Every stage event makes a record that tells it, under the id and from the start of the open observation of its
      stage, if there is one. */
  lemma RecordTellsItsEvent(s: State, event: ProviderEvent, offset: nat, newId: Uuid)
    requires !s.isSealed && OnePerStage(s.active) && IsStageEvent(event)
    ensures var t := s.Observed(event, offset, newId);
      && t.Some? && Tells(t.value, event, offset)
      && (forall o :: o in s.active && o.stage == event.stage ==> t.value.id == o.id && t.value.start == o.start)
      && ((forall o :: o in s.active ==> o.stage != event.stage) ==>
            t.value.id == newId && t.value.start == BeginsAt(event, offset))
  {
  }

  /** Afterwards the observation of the stage is open with the record's id and start if it started, and closed if it
      did not; the others are as they were. */
  lemma EventOpensOrCloses(s: State, event: ProviderEvent, offset: nat, newId: Uuid)
    requires !s.isSealed && OnePerStage(s.active) && IsStageEvent(event)
    ensures var t := s.Observed(event, offset, newId); var after := s.Record(event, offset, newId).active;
      forall o :: o in after
        <==> (o.stage != event.stage && o in s.active)
             || (event.StageStarted? && t.Some? && o == Observation(event.stage, t.value.id, t.value.start))
  {
    var i := OpenIndex(s.active, event.stage);
    var after := s.Record(event, offset, newId).active;
    assert after == s.ActiveAfter(event, offset, newId);
    forall o
      ensures o in s.active && o.stage == event.stage <==> i < |s.active| && o == s.active[i]
    {
    }
    if !event.StageStarted? && i < |s.active| {
      assert s.active == s.active[..i] + [s.active[i]] + s.active[i + 1..];
    }
  }

  /** Activity, output and anything after the seal make no record and change nothing. */
  lemma OthersMakeNoRecord(s: State, event: ProviderEvent, offset: nat, newId: Uuid)
    requires s.isSealed || !IsStageEvent(event)
    ensures s.Observed(event, offset, newId) == None && s.Record(event, offset, newId) == s
  {
  }

  /** A record that an end forces on an open observation. */
  predicate TellsFailure(t: TraceTelemetry, o: Observation, end: nat, error: Option<string>) {
    && t.ProviderStage? && t.status == Failed && t.id == o.id && t.stage == o.stage && t.start == o.start
    && t.end.Some? && t.elapsed.Some? && t.end.value == t.start + t.elapsed.value
    && (if end >= o.start then t.end.value == end else t.elapsed.value == 0)
    && t.error == (if error.Some? then Some(SafeObserverError(error.value)) else None)
    && t.requestElapsed == None && t.inputTokens == None && t.outputTokens == None && t.resident == None
  }

  lemma {:induction false} ForcedRecordsTell(open: seq<Observation>, end: nat, error: Option<string>)
    ensures var records := FailedRecords(open, end, PublicError(error));
      |records| == |open| && forall i :: 0 <= i < |open| ==> TellsFailure(records[i], open[i], end, error)
    decreases open
  {
    if open != [] { ForcedRecordsTell(open[1..], end, error); }
  }

  // --- The history of a run ---------------------------------------------------------------------

  lemma {:induction false} HistoryGrows(begin: State, ops: seq<Op>, n: nat)
    requires n <= |ops|
    ensures History(begin, ops[..n]) <= History(begin, ops)
    decreases |ops|
  {
    if n < |ops| {
      HistoryGrows(begin, ops[..|ops| - 1], n);
      assert ops[..|ops| - 1][..n] == ops[..n];
    } else {
      assert ops[..n] == ops;
    }
  }

  lemma OneMoreOp(begin: State, ops: seq<Op>, n: nat)
    requires n < |ops|
    ensures History(begin, ops[..n + 1]) == History(begin, ops[..n]) + Emits(Run(begin, ops[..n]), ops[n])
  {
    assert ops[..n + 1][..n] == ops[..n];
  }

  /** The history of a run has the records of its operations in order: one for each stage event before the seal, which
      tells it, and one for each observation that an end found open. */
  lemma EventsAreReported(providerKey: string, capability: string, model: Option<string>, ops: seq<Op>, n: nat)
    requires n < |ops|
    ensures var begin := Begin(providerKey, capability, model);
      var before, after, all := History(begin, ops[..n]), History(begin, ops[..n + 1]), History(begin, ops);
      var s := Run(begin, ops[..n]);
      && before <= after <= all
      && (ops[n].Provider? && IsStageEvent(ops[n].event) && !s.isSealed ==>
            |after| == |before| + 1 && Tells(after[|before|], ops[n].event, ops[n].offset))
      && (ops[n].FailOpen? ==>
            |after| == |before| + |s.active|
            && forall i :: 0 <= i < |s.active| ==>
                 TellsFailure(after[|before| + i], s.active[i], ops[n].failEnd, ops[n].failError))
      && (!ops[n].FailOpen? && !(ops[n].Provider? && IsStageEvent(ops[n].event) && !s.isSealed) ==> after == before)
  {
    var begin := Begin(providerKey, capability, model);
    RunIsAccounted(providerKey, capability, model, ops[..n]);
    OneMoreOp(begin, ops, n);
    HistoryGrows(begin, ops, n + 1);
    var s, op := Run(begin, ops[..n]), ops[n];
    if op.Provider? {
      if IsStageEvent(op.event) && !s.isSealed { RecordTellsItsEvent(s, op.event, op.offset, op.newId); }
      else { OthersMakeNoRecord(s, op.event, op.offset, op.newId); }
    }
    if op.FailOpen? { ForcedRecordsTell(s.active, op.failEnd, op.failError); }
  }

  // --- The buffer -------------------------------------------------------------------------------

  /** The records that an operation offers to the buffer. */
  function Given(s: State, op: Op): seq<TraceTelemetry> {
    if op.Deliver? then
      if s.isSealed then [] else [Delivery(op.id, op.delivered, op.start, op.end, op.elapsed, op.deliveryError)]
    else Emits(s, op)
  }

  function AllGiven(begin: State, ops: seq<Op>): seq<TraceTelemetry> {
    if ops == [] then begin.events
    else AllGiven(begin, ops[..|ops| - 1]) + Given(Run(begin, ops[..|ops| - 1]), ops[|ops| - 1])
  }

  /** The buffer has records of those that were given, and all of them in order while they fit. */
  predicate Buffers(events: seq<TraceTelemetry>, given: seq<TraceTelemetry>) {
    && (forall e :: e in events ==> e in given)
    && |events| == Min(32, |given|)
    && (|given| <= 32 ==> events == given)
  }

  lemma PushBuffers(s: State, given: seq<TraceTelemetry>, t: TraceTelemetry)
    requires Buffers(s.events, given)
    ensures !s.isSealed ==> Buffers(s.Push(t).events, given + [t])
    ensures s.events != [] ==> Buffers(s.PushTerminal(t).events, given + [t])
  {
  }

  lemma {:induction false} FailedBuffer(
      s: State, given: seq<TraceTelemetry>, open: seq<Observation>, end: nat, error: Option<string>)
    requires s.events != [] && Buffers(s.events, given)
    ensures Buffers(s.PushFailed(open, end, error).events, given + FailedRecords(open, end, error))
    decreases open
  {
    if open == [] {
      assert given + [] == given;
    } else {
      var t, rest := FailedRecord(open[0], end, error), FailedRecords(open[1..], end, error);
      PushBuffers(s, given, t);
      FailedBuffer(s.PushTerminal(t), given + [t], open[1..], end, error);
      assert given + ([t] + rest) == (given + [t]) + rest;
    }
  }

  lemma OpBuffers(s: State, given: seq<TraceTelemetry>, op: Op)
    requires s.events != [] && Buffers(s.events, given) && !Apply(s, op).isSealed
    ensures Buffers(Apply(s, op).events, given + Given(s, op)) && Apply(s, op).events != []
  {
    assert given + [] == given;
    if op.FailOpen? {
      FailedBuffer(s.(active := []), given, s.active, op.failEnd, PublicError(op.failError));
    } else if op.Deliver? {
      PushBuffers(s, given, Delivery(op.id, op.delivered, op.start, op.end, op.elapsed, op.deliveryError));
    } else if op.Provider? && s.Observed(op.event, op.offset, op.newId).Some? {
      PushBuffers(s, given, s.Observed(op.event, op.offset, op.newId).value);
    }
  }

  /** Before the seal the buffer holds nothing but records of the run, and all of them, in order, as long as they are
      at most 32. */
  lemma {:induction false} BufferHoldsTheRun(
      providerKey: string, capability: string, model: Option<string>, ops: seq<Op>)
    requires !Run(Begin(providerKey, capability, model), ops).isSealed
    ensures var begin := Begin(providerKey, capability, model);
      Run(begin, ops).events != [] && Buffers(Run(begin, ops).events, AllGiven(begin, ops))
  {
    if ops != [] {
      var begin, front := Begin(providerKey, capability, model), ops[..|ops| - 1];
      if Run(begin, front).isSealed {
        RunIsAccounted(providerKey, capability, model, front);
        SealStays(Run(begin, front), ops[|ops| - 1]);
      }
      BufferHoldsTheRun(providerKey, capability, model, front);
      OpBuffers(Run(begin, front), AllGiven(begin, front), ops[|ops| - 1]);
    }
  }

  /** Unless an end forces records in, the first 32 stay. */
  lemma {:induction false} FirstRecordsStay(
      providerKey: string, capability: string, model: Option<string>, ops: seq<Op>)
    requires !Run(Begin(providerKey, capability, model), ops).isSealed && forall op :: op in ops ==> !op.FailOpen?
    ensures var begin := Begin(providerKey, capability, model); var given := AllGiven(begin, ops);
      Run(begin, ops).events == if |given| <= 32 then given else given[..32]
  {
    if ops != [] {
      var begin, front := Begin(providerKey, capability, model), ops[..|ops| - 1];
      if Run(begin, front).isSealed {
        RunIsAccounted(providerKey, capability, model, front);
        SealStays(Run(begin, front), ops[|ops| - 1]);
      }
      FirstRecordsStay(providerKey, capability, model, front);
      assert ops[|ops| - 1] in ops;
    }
  }
}

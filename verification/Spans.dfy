/** The spans that a recorder reports over a run in which ids are not reused and time does not go back: the
    bracketed spans of one stage follow one another. */
module Spans {
  import opened Outcomes
  import opened TraceIo
  import opened TelemetryEvents
  import opened Recorder
  import opened RecorderRuns
  import opened Pairs

  function Clock(ops: seq<Op>): nat {
    if ops == [] then 0
    else
      match ops[|ops| - 1]
      case Provider(_, offset, _) => offset
      case FailOpen(end, _) => end
      case _ => Clock(ops[..|ops| - 1])
  }

  /** Ids are drawn afresh, and offsets do not decrease. */
  predicate Orderly(ops: seq<Op>) {
    Fresh(ops) && InTime(ops)
  }

  predicate InTime(ops: seq<Op>) {
    ops == [] || (InTime(ops[..|ops| - 1]) && Clock(ops[..|ops| - 1]) <= Clock(ops))
  }

  // --- Ordered spans ----------------------------------------------------------------------------

  /** The record opens an observation, or one was opened under its id before. */
  predicate Bracketed(hist: seq<TraceTelemetry>, k: nat)
    requires k < |hist| && AllStages(hist)
  {
    hist[k].Opens() || Announced(hist[..k], hist[k].id)
  }

  predicate SpansAreOrdered(hist: seq<TraceTelemetry>)
    requires AllStages(hist)
  {
    && (forall k :: 0 <= k < |hist| && hist[k].Closes() ==> hist[k].start <= hist[k].end.value)
    && (forall i, k :: 0 <= i < k < |hist| && hist[i].Closes() && hist[k].stage == hist[i].stage && Bracketed(hist, k) ==>
          hist[i].end.value <= hist[k].start)
  }

  /** Nothing is later than the clock, and open observations start after all terminal records of their
      stage. */
  predicate Timed(hist: seq<TraceTelemetry>, active: seq<Observation>, clock: nat) {
    && AllStages(hist)
    && SpansAreOrdered(hist)
    && (forall i :: 0 <= i < |hist| && hist[i].Closes() ==> hist[i].end.value <= clock)
    && (forall j :: 0 <= j < |active| ==> active[j].start <= clock)
    && (forall i, j :: 0 <= i < |hist| && 0 <= j < |active| && hist[i].Closes() && hist[i].stage == active[j].stage ==>
          hist[i].end.value <= active[j].start)
  }

  lemma Later(hist: seq<TraceTelemetry>, active: seq<Observation>, clock: nat, later: nat)
    requires Timed(hist, active, clock) && clock <= later
    ensures Timed(hist, active, later)
  {
  }

  lemma OrderedExtension(hist: seq<TraceTelemetry>, t: TraceTelemetry)
    requires AllStages(hist) && SpansAreOrdered(hist)
    requires t.ProviderStage? && (t.Closes() ==> t.end.Some? && t.start <= t.end.value)
    requires t.Opens() || Announced(hist, t.id) ==>
      forall i :: 0 <= i < |hist| && hist[i].Closes() && hist[i].stage == t.stage ==> hist[i].end.value <= t.start
    ensures AllStages(hist + [t]) && SpansAreOrdered(hist + [t])
  {
    var h := hist + [t];
    assert forall k :: 0 <= k < |hist| ==> h[..k] == hist[..k];
    assert h[..|hist|] == hist;
    forall i, k | 0 <= i < k < |h| && h[i].Closes() && h[k].stage == h[i].stage && Bracketed(h, k)
      ensures h[i].end.value <= h[k].start
    {
      if k < |hist| { assert Bracketed(hist, k); }
    }
  }

  lemma OpenNewInTime(hist: seq<TraceTelemetry>, active: seq<Observation>, clock: nat, t: TraceTelemetry, o: Observation)
    requires Timed(hist, active, clock) && t.Opens() && Matches(t, o) && clock <= o.start
    ensures Timed(hist + [t], active + [o], o.start)
  {
    OrderedExtension(hist, t);
  }

  lemma OpenAgainInTime(hist: seq<TraceTelemetry>, active: seq<Observation>, clock: nat, t: TraceTelemetry, index: nat)
    requires Timed(hist, active, clock) && index < |active| && t.Opens() && Matches(t, active[index])
    ensures Timed(hist + [t], active, clock)
  {
    OrderedExtension(hist, t);
  }

  lemma CloseOneInTime(
      hist: seq<TraceTelemetry>, active: seq<Observation>, clock: nat, t: TraceTelemetry, index: nat, now: nat)
    requires Timed(hist, active, clock) && OnePerStage(active)
    requires index < |active| && t.Closes() && Matches(t, active[index]) && clock <= now && t.end == Some(now)
    ensures Timed(hist + [t], Without(active, index), now)
  {
    OrderedExtension(hist, t);
    WithoutEntries(active, index);
  }

  lemma CloseUnopenedInTime(hist: seq<TraceTelemetry>, active: seq<Observation>, clock: nat, t: TraceTelemetry, now: nat)
    requires Timed(hist, active, clock) && t.Closes() && t.start <= now && clock <= now && t.end == Some(now)
    requires !Announced(hist, t.id) && forall j :: 0 <= j < |active| ==> active[j].stage != t.stage
    ensures Timed(hist + [t], active, now)
  {
    OrderedExtension(hist, t);
  }

  lemma {:induction false} CloseAllInTime(
      hist: seq<TraceTelemetry>, active: seq<Observation>, clock: nat, end: nat, error: Option<string>)
    requires Timed(hist, active, clock) && OnePerStage(active) && clock <= end
    ensures Timed(hist + FailedRecords(active, end, error), [], end)
    decreases active
  {
    if active == [] {
      assert hist + [] == hist;
    } else {
      var t := FailedRecord(active[0], end, error);
      CloseOneInTime(hist, active, clock, t, 0, end);
      assert Without(active, 0) == active[1..];
      CloseAllInTime(hist + [t], active[1..], end, end, error);
      Regroup(hist, t, FailedRecords(active[1..], end, error));
    }
  }

  // --- Over a run -------------------------------------------------------------------------------

  lemma ProviderKeepsTime(hist: seq<TraceTelemetry>, s: State, clock: nat, used: set<Uuid>,
                          event: ProviderEvent, offset: nat, newId: Uuid)
    requires Timed(hist, s.active, clock) && Identified(hist, s.active, used)
    requires clock <= offset && newId !in used && s.Observed(event, offset, newId).Some?
    ensures Timed(hist + [s.Observed(event, offset, newId).value], s.ActiveAfter(event, offset, newId), offset)
  {
    var t, i := s.Observed(event, offset, newId).value, OpenIndex(s.active, event.stage);
    if event.StageStarted? {
      if i < |s.active| {
        OpenAgainInTime(hist, s.active, clock, t, i);
        Later(hist + [t], s.active, clock, offset);
      } else {
        OpenNewInTime(hist, s.active, clock, t, Observation(event.stage, newId, offset));
      }
    } else if i < |s.active| {
      CloseOneInTime(hist, s.active, clock, t, i, offset);
    } else {
      CloseUnopenedInTime(hist, s.active, clock, t, offset);
    }
  }

  lemma {:induction false} RunKeepsTime(begin: State, ops: seq<Op>)
    requires begin.active == [] && Orderly(ops)
    ensures Timed(History(begin, ops), Run(begin, ops).active, Clock(ops))
  {
    if ops != [] {
      var before, op := ops[..|ops| - 1], ops[|ops| - 1];
      RunKeepsTime(begin, before);
      RunKeepsPairs(begin, before);
      OpKeepsTime(History(begin, before), Run(begin, before), Clock(before), Used(before), op, Clock(ops));
    }
  }

  lemma OpKeepsTime(hist: seq<TraceTelemetry>, s: State, clock: nat, used: set<Uuid>, op: Op, now: nat)
    requires Timed(hist, s.active, clock) && Identified(hist, s.active, used) && clock <= now
    requires op.Provider? ==> now == op.offset && op.newId !in used
    requires op.FailOpen? ==> now == op.failEnd
    ensures Timed(hist + Emits(s, op), Apply(s, op).active, now)
  {
    assert hist + [] == hist;
    Later(hist, s.active, clock, now);
    if op.Provider? && s.Observed(op.event, op.offset, op.newId).Some? {
      ProviderKeepsTime(hist, s, clock, used, op.event, op.offset, op.newId);
    } else if op.FailOpen? {
      CloseAllInTime(hist, s.active, clock, op.failEnd, PublicError(op.failError));
      PushFailedKeeps(s.(active := []), s.active, op.failEnd, PublicError(op.failError));
    }
  }

  /** The records that any run reports have ordered spans. */
  lemma ReportedSpansAreOrdered(providerKey: string, capability: string, model: Option<string>, ops: seq<Op>)
    requires Orderly(ops)
    ensures var hist := History(Begin(providerKey, capability, model), ops);
      AllStages(hist) && ArePaired(hist) && SpansAreOrdered(hist)
  {
    RunKeepsTime(Begin(providerKey, capability, model), ops);
    RunKeepsPairs(Begin(providerKey, capability, model), ops);
  }
}

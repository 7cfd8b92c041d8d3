/** What the gateway does with the recorder of an invocation: the summaries that it sets are the canonical ones
    of the invocation's input and output, so what the receiver accepts depends on those. */
module InvocationRuns {
  import opened Outcomes
  import opened JsonValues
  import opened TraceIo
  import opened TraceIoFixpoint
  import opened TraceIoGuarantees
  import opened TelemetryEvents
  import opened Recorder
  import opened RecorderRuns

  /** The input or the output becomes known, or something else happens. */
  datatype Step = Input(v: Json) | Output(v: Json) | Other(op: Op)

  function OpOf(reader: Reader, step: Step): Op {
    match step
    case Input(v) => SetInput(CanonicalSummary(reader, v))
    case Output(v) => SetOutput(CanonicalSummary(reader, v))
    case Other(op) => op
  }

  function Ops(reader: Reader, steps: seq<Step>): (ops: seq<Op>)
    ensures |ops| == |steps|
  {
    seq(|steps|, i requires 0 <= i < |steps| => OpOf(reader, steps[i]))
  }

  function LastInput(steps: seq<Step>): Option<Json> {
    if steps == [] then None
    else if steps[|steps| - 1].Input? then Some(steps[|steps| - 1].v)
    else LastInput(steps[..|steps| - 1])
  }

  function LastOutput(steps: seq<Step>): Option<Json> {
    if steps == [] then None
    else if steps[|steps| - 1].Output? then Some(steps[|steps| - 1].v)
    else LastOutput(steps[..|steps| - 1])
  }

  ghost predicate StepInRange(step: Step) {
    match step
    case Input(v) => WellFormed(v)
    case Output(v) => WellFormed(v)
    case Other(op) => !op.SetInput? && !op.SetOutput? && InRange(op)
  }

  /** The value's canonical summary is one that the receiver accepts. */
  ghost predicate Passes(reader: Reader, v: Json) {
    || EncodedSize(RedactValue(reader, v, 0, None)) > MAX_SUMMARY_BYTES
    || (Stable(reader, v, 0, None) && (Truncates(reader, v, 0, None) || !Lookalike(reader, v, 0, None)))
  }

  ghost predicate Pass(reader: Reader, v: Option<Json>) {
    v.Some? ==> Passes(reader, v.value)
  }

  function SummaryOf(reader: Reader, v: Option<Json>): Option<TraceIoSummary> {
    if v.Some? then Some(CanonicalSummary(reader, v.value)) else None
  }

  lemma SealStays(s: State, op: Op)
    requires s.isSealed && (s.active == [] || !op.FailOpen?)
    ensures Apply(s, op).isSealed
  {
    if op.FailOpen? { PushFailedKeeps(s.(active := []), s.active, op.failEnd, PublicError(op.failError)); }
  }

  lemma OpKeepsSummaries(s: State, op: Op)
    requires !op.SetInput? && !op.SetOutput? && !op.Seal?
    ensures Apply(s, op).input == s.input && Apply(s, op).output == s.output
  {
    if op.FailOpen? { PushFailedKeeps(s.(active := []), s.active, op.failEnd, PublicError(op.failError)); }
  }

  /** Until the seal the recorder has the summaries of the last input and the last output. */
  lemma {:induction false} SummariesAreTheLast(
      reader: Reader, providerKey: string, capability: string, model: Option<string>, steps: seq<Step>)
    requires forall step :: step in steps ==> StepInRange(step)
    requires !Run(Begin(providerKey, capability, model), Ops(reader, steps)).isSealed
    ensures var s := Run(Begin(providerKey, capability, model), Ops(reader, steps));
      s.input == SummaryOf(reader, LastInput(steps)) && s.output == SummaryOf(reader, LastOutput(steps))
  {
    if steps != [] {
      var front, last := steps[..|steps| - 1], steps[|steps| - 1];
      var s := Run(Begin(providerKey, capability, model), Ops(reader, front));
      assert Ops(reader, steps)[..|steps| - 1] == Ops(reader, front);
      RunIsAccounted(providerKey, capability, model, Ops(reader, front));
      if s.isSealed { SealStays(s, OpOf(reader, last)); }
      SummariesAreTheLast(reader, providerKey, capability, model, front);
      assert last in steps;
      if last.Other? && !last.op.Seal? { OpKeepsSummaries(s, last.op); }
    }
  }

  /** The batch carries the records and the losses of the recorder, and the canonical summaries of the last input and
      the last output. */
  lemma BatchHasItsSummaries(
      reader: Reader, providerKey: string, capability: string, model: Option<string>, steps: seq<Step>)
    requires forall step :: step in steps ==> StepInRange(step)
    requires !Run(Begin(providerKey, capability, model), Ops(reader, steps)).isSealed
    ensures var s := Run(Begin(providerKey, capability, model), Ops(reader, steps)); var batch := s.TakenBatch();
      batch.events == s.events && batch.dropped == s.dropped
      && batch.input == SummaryOf(reader, LastInput(steps)) && batch.output == SummaryOf(reader, LastOutput(steps))
  {
    SummariesAreTheLast(reader, providerKey, capability, model, steps);
  }

  /** An invocation whose events are in range has its batch accepted exactly when the raw values of its input
      and its output pass. */
  lemma BatchIsAccepted(
      reader: Reader, providerKey: string, capability: string, model: Option<string>, steps: seq<Step>)
    requires ReadsJson(reader) && ValidTelemetry(InvocationStarted(providerKey, capability, model))
    requires forall step :: step in steps ==> StepInRange(step)
    requires !Run(Begin(providerKey, capability, model), Ops(reader, steps)).isSealed
    ensures ValidBatch(reader, Run(Begin(providerKey, capability, model), Ops(reader, steps)).TakenBatch())
        <==> Pass(reader, LastInput(steps)) && Pass(reader, LastOutput(steps))
  {
    forall op | op in Ops(reader, steps)
      ensures InRange(op)
    {
      var i :| 0 <= i < |steps| && Ops(reader, steps)[i] == op;
      assert steps[i] in steps;
    }
    BatchNeedsItsSummaries(reader, providerKey, capability, model, Ops(reader, steps));
    SummariesAreTheLast(reader, providerKey, capability, model, steps);
    LastAreWellFormed(steps);
    SummaryPasses(reader, LastInput(steps));
    SummaryPasses(reader, LastOutput(steps));
  }

  lemma {:induction false} LastAreWellFormed(steps: seq<Step>)
    requires forall step :: step in steps ==> StepInRange(step)
    ensures LastInput(steps).Some? ==> WellFormed(LastInput(steps).value)
    ensures LastOutput(steps).Some? ==> WellFormed(LastOutput(steps).value)
  {
    if steps != [] {
      LastAreWellFormed(steps[..|steps| - 1]);
      assert steps[|steps| - 1] in steps;
    }
  }

  lemma SummaryPasses(reader: Reader, v: Option<Json>)
    requires ReadsJson(reader) && (v.Some? ==> WellFormed(v.value))
    ensures ValidSummary(reader, SummaryOf(reader, v)) <==> Pass(reader, v)
  {
    if v.Some? { CanonicalIsAccepted(reader, v.value); }
  }

  // --- Errors -----------------------------------------------------------------------------------

  /** A stage that fails with a short error is in range whatever the error says. */
  lemma ShortErrorIsInRange(stage: Stage, elapsed: nat, message: string, metadata: Metadata)
    requires elapsed <= MAX_DURATION_MS && MetadataInRange(metadata) && Utf8Size(message) <= 512
    ensures EventInRange(StageFailed(stage, elapsed, message, metadata))
  {
    ShortErrorFits(message);
  }

  /** One stage that fails with an error that does not fit spoils the whole batch. */
  lemma UnfitErrorSpoilsTheBatch(
      reader: Reader, providerKey: string, capability: string, model: Option<string>, stage: Stage, message: string)
    requires !ErrorFits(message)
    ensures var ops := [Provider(StageFailed(stage, 0, message, Metadata(None, None, None)), 0, 0)];
      !ValidBatch(reader, Run(Begin(providerKey, capability, model), ops).TakenBatch())
  {
    var begin := Begin(providerKey, capability, model);
    var op := Provider(StageFailed(stage, 0, message, Metadata(None, None, None)), 0, 0);
    assert [op][..0] == [] && Run(begin, []) == begin;
    var record := begin.Observed(op.event, 0, 0);
    ObservedIsValid(begin, op.event, 0, 0);
    assert Run(begin, [op]).events == begin.events + [record.value];
    assert record.value in Run(begin, [op]).events;
  }

  /** There is such an error: 512 characters of two bytes. */
  lemma WideErrorSpoilsABatch(reader: Reader, providerKey: string, capability: string, model: Option<string>)
    returns (ops: seq<Op>)
    ensures !ValidBatch(reader, Run(Begin(providerKey, capability, model), ops).TakenBatch())
    ensures |ops| == 1 && ops[0].Provider? && ops[0].event.StageFailed? && |ops[0].event.message| == 512
  {
    var message := WideErrorIsRefused();
    UnfitErrorSpoilsTheBatch(reader, providerKey, capability, model, Decode, message);
    ops := [Provider(StageFailed(Decode, 0, message, Metadata(None, None, None)), 0, 0)];
  }
}

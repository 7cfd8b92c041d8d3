/** The recorder over whole runs: any sequence of its operations, in the order in which its lock
    serialises them. */
module RecorderRuns {
  import opened Outcomes
  import opened Text
  import opened JsonValues
  import opened TraceIo
  import opened TelemetryEvents
  import opened Recorder

  datatype Op =
    | Provider(event: ProviderEvent, offset: nat, newId: Uuid)
    | SetInput(summary: TraceIoSummary)
    | SetOutput(summary: TraceIoSummary)
    | Deliver(id: Uuid, delivered: bool, start: nat, end: nat, elapsed: nat, deliveryError: Option<string>)
    | FailOpen(failEnd: nat, failError: Option<string>)
    | Seal

  function Apply(s: State, op: Op): State {
    match op
    case Provider(event, offset, newId) => s.Record(event, offset, newId)
    case SetInput(summary) => s.SetInput(summary)
    case SetOutput(summary) => s.SetOutput(summary)
    case Deliver(id, delivered, start, end, elapsed, error) =>
      s.Push(Delivery(id, delivered, start, end, elapsed, error))
    case FailOpen(end, error) => s.FailActive(end, error)
    case Seal => s.Sealed()
  }

  function Run(s: State, ops: seq<Op>): State {
    if ops == [] then s else Apply(Run(s, ops[..|ops| - 1]), ops[|ops| - 1])
  }

  // --- Accounting -------------------------------------------------------------------------------

  /** How many records the operation offers to the buffer. */
  function Offers(s: State, op: Op): nat {
    match op
    case Provider(event, offset, newId) => if s.Observed(event, offset, newId).Some? then 1 else 0
    case Deliver(_, _, _, _, _, _) => if s.isSealed then 0 else 1
    case FailOpen(_, _) => |s.active|
    case _ => 0
  }

  /** How many records the run offers, the first record included. */
  function Offered(s: State, ops: seq<Op>): nat {
    if ops == [] then 1
    else Offered(s, ops[..|ops| - 1]) + Offers(Run(s, ops[..|ops| - 1]), ops[|ops| - 1])
  }

  predicate OnePerStage(active: seq<Observation>) {
    forall i, j :: 0 <= i < j < |active| ==> active[i].stage != active[j].stage
  }

  /** The buffer holds what was offered, up to its limit, and the counter holds the rest, up to its own. */
  predicate Counted(s: State, first: TraceTelemetry, offered: nat) {
    && offered >= 1
    && |s.events| == Min(MAX_EVENTS, offered)
    && s.events[0] == first
    && s.dropped == Min(MAX_DROPPED, offered - |s.events|)
  }

  predicate Final(s: State) {
    s.isSealed && s.events == [] && s.active == [] && s.input == None && s.output == None
  }

  /** Once sealed, nothing changes any more. */
  lemma SealedIsFinal(s: State, op: Op)
    requires Final(s)
    ensures Apply(s, op) == s
  {
  }

  lemma PushTerminalCounts(s: State, first: TraceTelemetry, offered: nat, event: TraceTelemetry)
    requires Counted(s, first, offered) && first.InvocationStarted?
    ensures Counted(s.PushTerminal(event), first, offered + 1)
  {
  }

  lemma {:induction false} PushFailedCounts(
      s: State, first: TraceTelemetry, offered: nat, open: seq<Observation>, end: nat, error: Option<string>)
    requires Counted(s, first, offered) && first.InvocationStarted?
    ensures Counted(s.PushFailed(open, end, error), first, offered + |open|)
    decreases open
  {
    if open != [] {
      var event := FailedRecord(open[0], end, error);
      PushTerminalCounts(s, first, offered, event);
      PushFailedCounts(s.PushTerminal(event), first, offered + 1, open[1..], end, error);
    }
  }

  lemma {:induction false} PushFailedKeeps(s: State, open: seq<Observation>, end: nat, error: Option<string>)
    ensures var r := s.PushFailed(open, end, error);
      r.active == s.active && r.input == s.input && r.output == s.output && r.isSealed == s.isSealed
    decreases open
  {
    if open != [] { PushFailedKeeps(s.PushTerminal(FailedRecord(open[0], end, error)), open[1..], end, error); }
  }

  lemma OpIsCounted(s: State, first: TraceTelemetry, offered: nat, op: Op)
    requires !s.isSealed && OnePerStage(s.active) && Counted(s, first, offered) && first.InvocationStarted?
    ensures OnePerStage(Apply(s, op).active)
    ensures if Apply(s, op).isSealed then Final(Apply(s, op)) else Counted(Apply(s, op), first, offered + Offers(s, op))
  {
    if op.FailOpen? {
      var bare := s.(active := []);
      PushFailedCounts(bare, first, offered, s.active, op.failEnd, PublicError(op.failError));
      PushFailedKeeps(bare, s.active, op.failEnd, PublicError(op.failError));
    }
  }

  /** In every run, until the seal: the first record stays, the buffer and the drop counter account for
      every record offered, and at most one observation is open per stage. After the seal the recorder
      is empty for good. */
  lemma {:induction false} RunIsAccounted(providerKey: string, capability: string, model: Option<string>, ops: seq<Op>)
    ensures var begin := Begin(providerKey, capability, model); var s := Run(begin, ops);
      && OnePerStage(s.active)
      && (s.isSealed ==> Final(s))
      && (!s.isSealed ==> Counted(s, InvocationStarted(providerKey, capability, model), Offered(begin, ops)))
  {
    if ops != [] {
      var before, op := ops[..|ops| - 1], ops[|ops| - 1];
      RunIsAccounted(providerKey, capability, model, before);
      var begin := Begin(providerKey, capability, model);
      var s := Run(begin, before);
      if s.isSealed {
        SealedIsFinal(s, op);
      } else {
        OpIsCounted(s, begin.events[0], Offered(begin, before), op);
      }
    }
  }

  // --- What is sent is accepted -----------------------------------------------------------------

  predicate ValidError(error: Option<string>) {
    error.Some? && ErrorFits(error.value)
  }

  predicate InRange(op: Op) {
    match op
    case Provider(event, offset, _) =>
      offset <= MAX_DURATION_MS && EventInRange(event)
    case Deliver(_, delivered, start, end, elapsed, error) =>
      && start <= end <= MAX_DURATION_MS && elapsed <= MAX_DURATION_MS
      && (error.None? ==> delivered)
      && (error.Some? ==> ValidText(error.value, 1, 512))
    case FailOpen(end, error) => end <= MAX_DURATION_MS && ValidError(error)
    case _ => true
  }

  predicate EventInRange(event: ProviderEvent) {
    NumbersInRange(event) && (event.StageFailed? ==> ErrorFits(event.message))
  }

  predicate NumbersInRange(event: ProviderEvent) {
    match event
    case StageStarted(_, m) => MetadataInRange(m)
    case StageCompleted(_, elapsed, m) => elapsed <= MAX_DURATION_MS && MetadataInRange(m)
    case StageFailed(_, elapsed, _, m) => elapsed <= MAX_DURATION_MS && MetadataInRange(m)
    case _ => true
  }

  predicate MetadataInRange(m: Metadata) {
    AtMost(m.inputTokens, MAX_TOKENS) && AtMost(m.outputTokens, MAX_TOKENS)
  }

  /** Every record in the buffer is valid, and every open observation can be closed by a valid record. */
  predicate Sendable(s: State) {
    && (forall i :: 0 <= i < |s.events| ==> ValidTelemetry(s.events[i]))
    && (forall i :: 0 <= i < |s.active| ==> s.active[i].start <= MAX_DURATION_MS)
  }

  lemma ObservedValidity(s: State, event: ProviderEvent, offset: nat, newId: Uuid, error: Option<string>)
    requires s.ObservedWith(event, offset, newId, error).Some? && (error.Some? <==> event.StageFailed?)
    requires forall i :: 0 <= i < |s.active| ==> s.active[i].start <= MAX_DURATION_MS
    ensures ValidTelemetry(s.ObservedWith(event, offset, newId, error).value)
        <==> NumbersInRange(event)
             && (error.Some? ==> ValidText(error.value, 1, 512))
             && (offset <= MAX_DURATION_MS
                 || (event.StageStarted? && OpenIndex(s.active, event.stage) < |s.active|))
  {
  }

  /** The record of a provider event is valid exactly when the event's own numbers and error are in
      range and so is its offset, unless it reopens an open observation, which keeps its old offset. */
  lemma ObservedIsValid(s: State, event: ProviderEvent, offset: nat, newId: Uuid)
    requires s.Observed(event, offset, newId).Some?
    requires forall i :: 0 <= i < |s.active| ==> s.active[i].start <= MAX_DURATION_MS
    ensures ValidTelemetry(s.Observed(event, offset, newId).value)
        <==> EventInRange(event)
             && (offset <= MAX_DURATION_MS
                 || (event.StageStarted? && OpenIndex(s.active, event.stage) < |s.active|))
  {
    ObservedValidity(s, event, offset, newId, if event.StageFailed? then Some(SafeObserverError(event.message)) else None);
    if event.StageFailed? { SafeErrorIsValid(event.message); }
  }

  lemma FailedRecordValidity(o: Observation, end: nat, error: Option<string>)
    requires o.start <= MAX_DURATION_MS
    ensures ValidTelemetry(FailedRecord(o, end, error))
        <==> end <= MAX_DURATION_MS && error.Some? && ValidText(error.value, 1, 512)
  {
  }

  /** A forced Failed record is valid exactly when its end is within a day and there is an error that fits. */
  lemma FailedRecordIsValid(o: Observation, end: nat, error: Option<string>)
    requires o.start <= MAX_DURATION_MS
    ensures ValidTelemetry(FailedRecord(o, end, PublicError(error))) <==> end <= MAX_DURATION_MS && ValidError(error)
  {
    FailedRecordValidity(o, end, PublicError(error));
    if error.Some? { SafeErrorIsValid(error.value); }
  }

  lemma {:induction false} PushFailedIsSendable(s: State, open: seq<Observation>, end: nat, error: Option<string>)
    requires Sendable(s) && end <= MAX_DURATION_MS && error.Some? && ValidText(error.value, 1, 512)
    requires forall i :: 0 <= i < |open| ==> open[i].start <= MAX_DURATION_MS
    ensures Sendable(s.PushFailed(open, end, error))
    decreases open
  {
    if open != [] {
      FailedRecordValidity(open[0], end, error);
      PushFailedIsSendable(s.PushTerminal(FailedRecord(open[0], end, error)), open[1..], end, error);
    }
  }

  lemma RecordIsSendable(s: State, event: ProviderEvent, offset: nat, newId: Uuid)
    requires Sendable(s) && offset <= MAX_DURATION_MS && EventInRange(event)
    ensures Sendable(s.Record(event, offset, newId))
  {
    if s.Observed(event, offset, newId).Some? { ObservedIsValid(s, event, offset, newId); }
  }

  lemma FailIsSendable(s: State, end: nat, error: Option<string>)
    requires Sendable(s) && end <= MAX_DURATION_MS && ValidError(error)
    ensures Sendable(s.FailActive(end, error))
  {
    SafeErrorIsValid(error.value);
    PushFailedIsSendable(s.(active := []), s.active, end, PublicError(error));
  }

  lemma ApplyIsSendable(s: State, op: Op)
    requires Sendable(s) && InRange(op)
    ensures Sendable(Apply(s, op))
  {
    match op
    case Provider(event, offset, newId) => RecordIsSendable(s, event, offset, newId);
    case FailOpen(end, error) => FailIsSendable(s, end, error);
    case _ =>
  }

  lemma {:induction false} RunIsSendable(begin: State, ops: seq<Op>)
    requires Sendable(begin)
    requires forall op :: op in ops ==> InRange(op)
    ensures Sendable(Run(begin, ops))
  {
    if ops != [] {
      RunIsSendable(begin, ops[..|ops| - 1]);
      ApplyIsSendable(Run(begin, ops[..|ops| - 1]), ops[|ops| - 1]);
    }
  }

  /** Whatever happens to an invocation whose events are in range, the batch taken from its recorder passes
      the receiver's validator exactly when its two summaries do: delivered, failed, shed and cancelled
      invocations alike. */
  lemma BatchNeedsItsSummaries(
      reader: Reader, providerKey: string, capability: string, model: Option<string>, ops: seq<Op>)
    requires ValidTelemetry(InvocationStarted(providerKey, capability, model))
    requires forall op :: op in ops ==> InRange(op)
    requires !Run(Begin(providerKey, capability, model), ops).isSealed
    ensures var s := Run(Begin(providerKey, capability, model), ops);
      ValidBatch(reader, s.TakenBatch()) <==> ValidSummary(reader, s.input) && ValidSummary(reader, s.output)
  {
    RunIsSendable(Begin(providerKey, capability, model), ops);
    RunIsAccounted(providerKey, capability, model, ops);
  }
}

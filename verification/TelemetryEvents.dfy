/** Trace telemetry records, the public form of provider errors, and the receiver's validator. */
module TelemetryEvents {
  import opened Outcomes
  import opened Text
  import opened JsonValues
  import opened TraceIo

  const MAX_DURATION_MS := 24 * 60 * 60 * 1_000
  const MAX_TOKENS := 1_000_000_000
  const MAX_EVENTS := 32
  const MAX_DROPPED := 10_000

  type Uuid = nat

  datatype Stage = Queue | Load | Tokenize | Prefill | FirstToken | Decode | Validate

  datatype StageStatus = Started | Completed | Failed

  datatype TraceTelemetry =
    | InvocationStarted(providerKey: string, capability: string, model: Option<string>)
    | ProviderStage(
        id: Uuid, stage: Stage, status: StageStatus, start: nat, end: Option<nat>, elapsed: Option<nat>,
        requestElapsed: Option<nat>, inputTokens: Option<nat>, outputTokens: Option<nat>,
        resident: Option<bool>, error: Option<string>)
    | Delivery(id: Uuid, delivered: bool, start: nat, deliveryEnd: nat, deliveryElapsed: nat, error: Option<string>)
  {
    predicate Opens() {
      ProviderStage? && status == Started
    }

    predicate Closes() {
      ProviderStage? && status != Started
    }
  }

  datatype Batch = Batch(
    events: seq<TraceTelemetry>, dropped: nat, input: Option<TraceIoSummary>, output: Option<TraceIoSummary>)

  // --- Public errors ----------------------------------------------------------------------------

  const ERROR_MARKERS: seq<string> := [
    "authorization", "bearer ", "basic ", "api key", "api_key", "apikey", "access token", "access_token",
    "secret", "token=", "token:", "password", "credential", "cookie", "session=", "session:"]

  const REDACTED_ERROR := "Provider failed; sensitive details were redacted"

  function WithoutControls(text: string): (r: string)
    ensures |r| == |text| && forall i :: 0 <= i < |r| ==> r[i] == '\n' || !IsControl(r[i])
  {
    seq(|text|, i requires 0 <= i < |text| => if IsControl(text[i]) && text[i] != '\n' then ' ' else text[i])
  }

  /** The first 512 characters, without control characters other than line feeds. */
  function ErrorHead(text: string): string {
    WithoutControls(text[..Min(|text|, 512)])
  }

  function SanitizeError(text: string): string {
    if Trim(ErrorHead(text)) == "" then "unknown error" else ErrorHead(text)
  }

  predicate HasErrorMarker(text: string) {
    exists i :: 0 <= i < |ERROR_MARKERS| && Contains(Lower(text), ERROR_MARKERS[i])
  }

  function SafeObserverError(text: string): string {
    if HasErrorMarker(text) then REDACTED_ERROR else SanitizeError(text)
  }

  function Utf8Size(text: string): nat {
    if text == [] then 0 else Utf8Length(text[0]) + Utf8Size(text[1..])
  }

  // --- The validator ----------------------------------------------------------------------------

  predicate ValidIdentifier(text: string) {
    && 3 <= |text| <= 128
    && forall i :: 0 <= i < |text| ==> IsAsciiAlphanumeric(text[i]) || text[i] in "-_.:"
  }

  predicate ValidText(text: string, min: nat, max: nat) {
    min <= Utf8Size(text) <= max && '\0' !in text
  }

  predicate AtMost(value: Option<nat>, limit: nat) {
    value.Some? ==> value.value <= limit
  }

  predicate ValidTelemetry(t: TraceTelemetry) {
    match t
    case InvocationStarted(providerKey, capability, model) =>
      && ValidIdentifier(providerKey)
      && ValidIdentifier(capability)
      && (model.Some? ==> ValidText(model.value, 1, 512))
    case ProviderStage(_, _, status, start, end, elapsed, requestElapsed, inputTokens, outputTokens, _, error) =>
      && (status == Started <==> elapsed.None?)
      && (status == Failed ==> error.Some?)
      && (error.Some? ==> ValidText(error.value, 1, 512))
      && start <= MAX_DURATION_MS
      && (status == Started <==> end.None?)
      && (end.Some? ==> start <= end.value <= MAX_DURATION_MS)
      && AtMost(elapsed, MAX_DURATION_MS)
      && AtMost(requestElapsed, MAX_DURATION_MS)
      && AtMost(inputTokens, MAX_TOKENS)
      && AtMost(outputTokens, MAX_TOKENS)
    case Delivery(_, delivered, start, end, elapsed, error) =>
      && start <= end <= MAX_DURATION_MS
      && elapsed <= MAX_DURATION_MS
      && (!delivered ==> error.Some?)
      && (error.Some? ==> ValidText(error.value, 1, 512))
  }

  predicate ValidSummary(reader: Reader, summary: Option<TraceIoSummary>) {
    summary.Some? ==> ValidateSummary(reader, summary.value).Ok?
  }

  predicate ValidBatch(reader: Reader, batch: Batch) {
    && (batch.events != [] || batch.input.Some? || batch.output.Some?)
    && |batch.events| <= MAX_EVENTS
    && batch.dropped <= MAX_DROPPED
    && (forall t :: t in batch.events ==> ValidTelemetry(t))
    && ValidSummary(reader, batch.input)
    && ValidSummary(reader, batch.output)
  }

  // --- Errors that pass -------------------------------------------------------------------------

  lemma {:induction false} Utf8SizeBounds(text: string)
    ensures |text| <= Utf8Size(text) <= 4 * |text|
  {
    if text != [] { Utf8SizeBounds(text[1..]); }
  }

  lemma {:induction false} AsciiSize(text: string)
    requires forall i :: 0 <= i < |text| ==> (text[i] as int) < 0x80
    ensures Utf8Size(text) == |text|
  {
    if text != [] { AsciiSize(text[1..]); }
  }

  function PublicError(error: Option<string>): Option<string> {
    if error.Some? then Some(SafeObserverError(error.value)) else None
  }

  /** What an error text needs for its public form to be accepted: a marker that gets it redacted, a blank
      head, or a head of at most 512 bytes. */
  predicate ErrorFits(text: string) {
    HasErrorMarker(text) || Trim(ErrorHead(text)) == "" || Utf8Size(ErrorHead(text)) <= 512
  }

  /** A public error is never blank, has no NUL and at most 512 characters. The validator counts bytes, so it
      accepts exactly the errors of texts that fit. */
  lemma SafeErrorIsValid(text: string)
    ensures 0 < |SafeObserverError(text)| <= 512
    ensures ValidText(SafeObserverError(text), 1, 512) <==> ErrorFits(text)
  {
    PublicErrorFacts(text);
    if HasErrorMarker(text) || Trim(ErrorHead(text)) == "" { ShortTextIsValid(SafeObserverError(text)); }
    Utf8SizeBounds(SafeObserverError(text));
  }

  lemma ShortTextIsValid(text: string)
    requires 0 < |text| <= 128 && '\0' !in text
    ensures ValidText(text, 1, 512)
  {
    Utf8SizeBounds(text);
  }

  lemma PublicErrorFacts(text: string)
    ensures 0 < |SafeObserverError(text)| <= 512 && '\0' !in SafeObserverError(text)
    ensures HasErrorMarker(text) || Trim(ErrorHead(text)) == "" ==> |SafeObserverError(text)| <= 128
  {
    SanitizedFacts(text);
    RedactedErrorFacts();
    UnknownErrorFacts();
  }

  /** A text of at most 512 bytes fits. */
  lemma ShortErrorFits(text: string)
    requires Utf8Size(text) <= 512
    ensures ErrorFits(text) && ValidText(SafeObserverError(text), 1, 512)
  {
    var n := Min(|text|, 512);
    HeadIsNoLarger(text[..n], text[n..]);
    assert text[..n] + text[n..] == text;
    SafeErrorIsValid(text);
  }

  lemma {:induction false} HeadIsNoLarger(head: string, rest: string)
    ensures Utf8Size(WithoutControls(head)) <= Utf8Size(head + rest)
  {
    if head == [] {
      assert WithoutControls(head) == [];
    } else {
      HeadIsNoLarger(head[1..], rest);
      assert (head + rest)[1..] == head[1..] + rest;
      assert WithoutControls(head)[1..] == WithoutControls(head[1..]);
    }
  }

  lemma UnknownErrorFacts()
    ensures '\0' !in "unknown error" && |"unknown error"| == 13
  {
  }

  lemma RedactedErrorFacts()
    ensures 0 < |REDACTED_ERROR| <= 128 && '\0' !in REDACTED_ERROR
  {
    var a, b, c := "Provider failed;", " sensitive details", " were redacted";
    assert REDACTED_ERROR == a + b + c;
    assert '\0' !in a && '\0' !in b && '\0' !in c;
  }

  lemma SanitizedFacts(text: string)
    ensures 0 < |SanitizeError(text)| <= 512 && '\0' !in SanitizeError(text)
  {
    assert IsControl('\0');
    assert '\0' !in "unknown error";
    if ErrorHead(text) == "" { assert TrimmedLength(ErrorHead(text)) == 0; }
  }

  /** 512 two-byte characters make an error that is short enough to send and too long to accept. */
  lemma WideErrorIsRefused() returns (text: string)
    ensures |text| == 512 && !ErrorFits(text) && !ValidText(SafeObserverError(text), 1, 512)
  {
    text := seq(512, _ => '\U{00E9}');
    WideErrorIsKept(text);
    WideSize(text);
    SafeErrorIsValid(text);
  }

  lemma WideErrorIsKept(text: string)
    requires |text| == 512 && forall i :: 0 <= i < |text| ==> text[i] == '\U{00E9}'
    ensures SafeObserverError(text) == text
  {
    forall i | 0 <= i < |ERROR_MARKERS|
      ensures !Contains(Lower(text), ERROR_MARKERS[i])
    {
      if Contains(Lower(text), ERROR_MARKERS[i]) {
        ContainsOnlyItsLetters(Lower(text), ERROR_MARKERS[i], ERROR_MARKERS[i][0]);
      }
    }
    assert text[..512] == text;
    assert WithoutControls(text) == text;
    assert TrimmedLength(text) == 512;
  }

  lemma {:induction false} WideSize(text: string)
    requires forall i :: 0 <= i < |text| ==> text[i] == '\U{00E9}'
    ensures Utf8Size(text) == 2 * |text|
  {
    if text != [] { WideSize(text[1..]); }
  }
}

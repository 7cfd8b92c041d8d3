/** Conversions of the payload structs that keep to the codec's assumptions: every field by itself, in order,
    in an array. */
module GatewayWire {
  import opened Outcomes
  import opened JsonValues
  import opened TraceIo
  import opened TelemetryEvents
  import opened EmbeddedMonitor
  import opened GatewayCodec

  // --- Fields -----------------------------------------------------------------------------------

  function OfNat(n: nat): Json { Array(seq(n, _ => Null)) }

  function OfOption<T>(o: Option<T>, f: T -> Json): Json {
    match o case None => Null case Some(v) => Array([f(v)])
  }

  function OfSeq<T>(s: seq<T>, f: T -> Json): Json {
    Array(seq(|s|, i requires 0 <= i < |s| => f(s[i])))
  }

  ghost predicate Injective<T(!new)>(f: T -> Json) {
    forall a, b :: f(a) == f(b) ==> a == b
  }

  lemma NatsDiffer(a: nat, b: nat)
    requires OfNat(a) == OfNat(b)
    ensures a == b
  {
    assert |OfNat(a).items| == a && |OfNat(b).items| == b;
  }

  lemma OptionsDiffer<T(!new)>(a: Option<T>, b: Option<T>, f: T -> Json)
    requires Injective(f) && OfOption(a, f) == OfOption(b, f)
    ensures a == b
  {
    if a.Some? && b.Some? { assert OfOption(a, f).items[0] == OfOption(b, f).items[0]; }
  }

  lemma SeqsDiffer<T(!new)>(a: seq<T>, b: seq<T>, f: T -> Json)
    requires Injective(f) && OfSeq(a, f) == OfSeq(b, f)
    ensures a == b
  {
    var x, y := OfSeq(a, f).items, OfSeq(b, f).items;
    assert |x| == |a| && |y| == |b|;
    assert forall i :: 0 <= i < |a| ==> x[i] == f(a[i]) && y[i] == f(b[i]);
  }

  /** Rows of the same length are equal field by field. */
  lemma SameRow(a: seq<Json>, b: seq<Json>)
    requires Array(a) == Array(b)
    ensures |a| == |b| && forall i :: 0 <= i < |a| ==> a[i] == b[i]
  {
  }

  function OfText(s: string): Json { String(s) }

  function OfBool(b: bool): Json { Bool(b) }

  lemma Primitives()
    ensures Injective(OfNat) && Injective(OfText) && Injective(OfBool)
  {
    forall a, b | OfNat(a) == OfNat(b)
      ensures a == b
    {
      NatsDiffer(a, b);
    }
  }

  function OfNats(o: Option<nat>): Json { OfOption(o, OfNat) }

  function OfTexts(o: Option<string>): Json { OfOption(o, OfText) }

  function OfBools(o: Option<bool>): Json { OfOption(o, OfBool) }

  lemma Optionals()
    ensures Injective(OfNats) && Injective(OfTexts) && Injective(OfBools)
  {
    Primitives();
    forall a, b | OfNats(a) == OfNats(b)
      ensures a == b
    {
      OptionsDiffer(a, b, OfNat);
    }
    forall a, b | OfTexts(a) == OfTexts(b)
      ensures a == b
    {
      OptionsDiffer(a, b, OfText);
    }
    forall a, b | OfBools(a) == OfBools(b)
      ensures a == b
    {
      OptionsDiffer(a, b, OfBool);
    }
  }

  // --- Structs ----------------------------------------------------------------------------------

  function OfStage(s: Stage): Json {
    OfNat(match s
          case Queue => 0 case Load => 1 case Tokenize => 2 case Prefill => 3 case FirstToken => 4 case Decode => 5
          case Validate => 6)
  }

  function OfStatus(s: StageStatus): Json {
    OfNat(match s case Started => 0 case Completed => 1 case Failed => 2)
  }

  function OfRunStatus(s: RunStatus): Json {
    OfNat(match s case RunCompleted => 0 case RunCancelled => 1 case RunError => 2)
  }

  function OfKind(k: FeedbackKind): Json {
    OfNat(match k case OutputAccepted => 0 case ActionApplied => 1 case FramePresented => 2)
  }

  function OfOutcome(o: FeedbackOutcome): Json {
    OfNat(match o case Pass => 0 case Fail => 1 case Unknown => 2 case NotApplicable => 3)
  }

  lemma Enumerations()
    ensures Injective(OfStage) && Injective(OfStatus) && Injective(OfRunStatus) && Injective(OfKind) && Injective(OfOutcome)
  {
    StagesDiffer();
    FeedbackEnumerations();
    Primitives();
  }

  lemma StagesDiffer()
    ensures Injective(OfStage)
  {
    Primitives();
  }

  lemma FeedbackEnumerations()
    ensures Injective(OfKind) && Injective(OfOutcome)
  {
    Primitives();
  }

  function TelemetryRow(t: TraceTelemetry): seq<Json> {
    match t
    case InvocationStarted(providerKey, capability, model) => [String(providerKey), String(capability), OfTexts(model)]
    case ProviderStage(id, stage, status, start, end, elapsed, requestElapsed, input, output, resident, error) =>
      [OfNat(id), OfStage(stage), OfStatus(status), OfNat(start), OfNats(end), OfNats(elapsed), OfNats(requestElapsed),
       OfNats(input), OfNats(output), OfBools(resident), OfTexts(error)]
    case Delivery(id, delivered, start, end, elapsed, error) =>
      [OfNat(id), Bool(delivered), OfNat(start), OfNat(end), OfNat(elapsed), OfTexts(error)]
  }

  function OfTelemetry(t: TraceTelemetry): Json { Array(TelemetryRow(t)) }

  lemma TelemetryDiffers()
    ensures Injective(OfTelemetry)
  {
    Primitives();
    Optionals();
    Enumerations();
    forall a, b | OfTelemetry(a) == OfTelemetry(b)
      ensures a == b
    {
      SameRow(TelemetryRow(a), TelemetryRow(b));
      assert |TelemetryRow(a)| == if a.InvocationStarted? then 3 else if a.ProviderStage? then 11 else 6;
      assert |TelemetryRow(b)| == if b.InvocationStarted? then 3 else if b.ProviderStage? then 11 else 6;
    }
  }

  function OfSummary(s: TraceIoSummary): Json { Array([s.value, Bool(s.truncated)]) }

  function OfTerminal(t: Terminal): Json { Array([OfRunStatus(t.status), OfNat(t.duration), OfNat(t.endedAt), OfTexts(t.error)]) }

  function OfAuth(a: WelcomeAuth): Json { Array([String(a.deviceToken), OfNat(a.generation), String(a.expiresAt)]) }

  function OfAgent(a: AgentDescriptor): Json { Array([String(a.id), String(a.name), a.metadata]) }

  function OfProof(m: MachineProof): Json {
    Array([String(m.id), String(m.publicKey), String(m.signature), OfNat(m.signedAt)])
  }

  function OfFeedback(f: Feedback): Json {
    Array([OfKind(f.kind), OfOutcome(f.outcome), OfTexts(f.message), OfTexts(f.path)])
  }

  lemma SummariesDiffer()
    ensures Injective(OfSummary)
  {
    forall a, b | OfSummary(a) == OfSummary(b)
      ensures a == b
    {
      SameRow([a.value, Bool(a.truncated)], [b.value, Bool(b.truncated)]);
    }
  }

  lemma TerminalsDiffer()
    ensures Injective(OfTerminal)
  {
    Primitives();
    Optionals();
    Enumerations();
    forall a, b | OfTerminal(a) == OfTerminal(b)
      ensures a == b
    {
      SameRow(OfTerminal(a).items, OfTerminal(b).items);
    }
  }

  lemma AuthsDiffer()
    ensures Injective(OfAuth)
  {
    Primitives();
    forall a, b | OfAuth(a) == OfAuth(b)
      ensures a == b
    {
      SameRow(OfAuth(a).items, OfAuth(b).items);
    }
  }

  lemma AgentsDiffer()
    ensures Injective(OfAgent)
  {
    forall a, b | OfAgent(a) == OfAgent(b)
      ensures a == b
    {
      SameRow(OfAgent(a).items, OfAgent(b).items);
    }
  }

  lemma ProofsDiffer()
    ensures Injective(OfProof)
  {
    Primitives();
    forall a, b | OfProof(a) == OfProof(b)
      ensures a == b
    {
      SameRow(OfProof(a).items, OfProof(b).items);
    }
  }

  lemma FeedbackDiffers()
    ensures Injective(OfFeedback)
  {
    Optionals();
    Enumerations();
    forall a, b | OfFeedback(a) == OfFeedback(b)
      ensures a == b
    {
      SameRow(OfFeedback(a).items, OfFeedback(b).items);
    }
  }

  function BatchRow(b: RuntimeBatch): seq<Json> {
    [OfNat(b.deployment.id), String(b.deployment.project), String(b.traceId), String(b.invocationId), String(b.endpoint),
     String(b.agent), OfNat(b.startedAt), OfSeq(b.events, OfTelemetry), OfNat(b.dropped), OfOption(b.input, OfSummary),
     OfOption(b.output, OfSummary), OfOption(b.terminal, OfTerminal)]
  }

  lemma BatchesDiffer(a: RuntimeBatch, b: RuntimeBatch)
    requires Array(BatchRow(a)) == Array(BatchRow(b))
    ensures a == b
  {
    SameRow(BatchRow(a), BatchRow(b));
    Primitives();
    TelemetryDiffers();
    SummariesDiffer();
    TerminalsDiffer();
    SeqsDiffer(a.events, b.events, OfTelemetry);
    OptionsDiffer(a.input, b.input, OfSummary);
    OptionsDiffer(a.output, b.output, OfSummary);
    OptionsDiffer(a.terminal, b.terminal, OfTerminal);
  }

  // --- Payloads ---------------------------------------------------------------------------------

  function PayloadRow(p: Payload): seq<Json> {
    match p
    case ChallengePayload(nonce, timestamp, audience) => [String(nonce), OfNat(timestamp), String(audience)]
    case HelloParams(protocol, resume, agents, metadata, machine, helloToken, followup) =>
      [String(protocol), OfNats(resume), OfSeq(agents, OfAgent), metadata, OfProof(machine), OfTexts(helloToken),
       OfTexts(followup)]
    case WelcomePayload(gatewayId, connectionId, sessionId, interval, resumed, auth) =>
      [String(gatewayId), OfNat(connectionId), OfNat(sessionId), OfNat(interval), Bool(resumed), OfOption(auth, OfAuth)]
    case PairingPayload(id, authUrl, retryable, nextStep, retryAfterMs) =>
      [OfNat(id), String(authUrl), Bool(retryable), String(nextStep), OfNat(retryAfterMs)]
    case InvokeParams(channelId, endpointId, profileId, bindingId, agentId, binding, input, timeoutMs) =>
      [OfNat(channelId), OfNat(endpointId), OfNat(profileId), OfNat(bindingId), String(agentId), binding, input,
       OfNat(timeoutMs)]
    case ResultPayload(channelId, output) => [OfNat(channelId), output]
    case ErrorDetails(channelId) => [OfNat(channelId)]
    case CancelPayload(id, channelId) => [OfNat(id), OfNat(channelId)]
    case EmptyPayload => []
    case ActivityPayload(id, channelId) => [OfNat(id), OfNat(channelId)]
    case HeartbeatPayload(sessionId) => [OfNat(sessionId)]
    case ErrorPayload(code, message) => [String(code), String(message)]
    case ConfigPayload(deployments) => [OfSeq(deployments, OfNat)]
    case TelemetryPayload(batch) => BatchRow(batch)
    case FeedbackPayload(id, observationId, start, end, feedback) =>
      [OfNat(id), OfNat(observationId), OfNat(start), OfNat(end), OfFeedback(feedback)]
  }

  function OfPayload(p: Payload): Json { Array(PayloadRow(p)) }

  lemma WidePayloadsDiffer(a: Payload, b: Payload)
    requires ShapeOf(a) == ShapeOf(b) && OfPayload(a) == OfPayload(b)
    requires a.ChallengePayload? || a.PairingPayload? || a.InvokeParams? || a.ErrorPayload?
    ensures a == b
  {
    SameRow(PayloadRow(a), PayloadRow(b));
    Primitives();
  }

  lemma SmallPayloadsDiffer(a: Payload, b: Payload)
    requires ShapeOf(a) == ShapeOf(b) && OfPayload(a) == OfPayload(b) && |PayloadRow(a)| <= 2
    requires !a.ErrorPayload? && !a.ConfigPayload?
    ensures a == b
  {
    SameRow(PayloadRow(a), PayloadRow(b));
    Primitives();
  }

  lemma HellosDiffer(a: Payload, b: Payload)
    requires a.HelloParams? && b.HelloParams? && OfPayload(a) == OfPayload(b)
    ensures a == b
  {
    SameRow(PayloadRow(a), PayloadRow(b));
    Primitives();
    Optionals();
    AgentsDiffer();
    ProofsDiffer();
    SeqsDiffer(a.agents, b.agents, OfAgent);
  }

  lemma DeepPayloadsDiffer(a: Payload, b: Payload)
    requires ShapeOf(a) == ShapeOf(b) && OfPayload(a) == OfPayload(b)
    requires a.WelcomePayload? || a.ConfigPayload? || a.FeedbackPayload?
    ensures a == b
  {
    SameRow(PayloadRow(a), PayloadRow(b));
    Primitives();
    if a.WelcomePayload? {
      AuthsDiffer();
      OptionsDiffer(a.auth, b.auth, OfAuth);
    } else if a.ConfigPayload? {
      SeqsDiffer(a.deployments, b.deployments, OfNat);
    } else {
      FeedbackDiffers();
    }
  }

  lemma PayloadsDiffer(a: Payload, b: Payload)
    requires ShapeOf(a) == ShapeOf(b) && OfPayload(a) == OfPayload(b)
    ensures a == b
  {
    if a.TelemetryPayload? {
      BatchesDiffer(a.batch, b.batch);
    } else if a.HelloParams? {
      HellosDiffer(a, b);
    } else if a.WelcomePayload? || a.ConfigPayload? || a.FeedbackPayload? {
      DeepPayloadsDiffer(a, b);
    } else if a.ChallengePayload? || a.PairingPayload? || a.InvokeParams? || a.ErrorPayload? {
      WidePayloadsDiffer(a, b);
    } else {
      SmallPayloadsDiffer(a, b);
    }
  }

  ghost predicate Encodes(p: Payload, shape: Shape, v: Json) {
    ShapeOf(p) == shape && OfPayload(p) == v
  }

  ghost function PayloadOf(shape: Shape, v: Json): Option<Payload> {
    if exists p :: Encodes(p, shape, v) then
      var p :| Encodes(p, shape, v);
      Some(p)
    else None
  }

  function ShowId(id: Uuid): string { seq(id, _ => '0') }

  function ParseId(text: string): Option<Uuid> { Some(|text|) }

  /** So the codec's assumptions about the wire can be met, with any JSON reader. */
  lemma FaithfulWireExists(reader: Reader) returns (wire: Wire)
    ensures wire.Faithful() && wire.reader == reader
  {
    wire := Wire(reader, OfPayload, PayloadOf, ShowId, ParseId);
    forall p
      ensures PayloadOf(ShapeOf(p), OfPayload(p)) == Some(p)
    {
      assert Encodes(p, ShapeOf(p), OfPayload(p));
      var q := PayloadOf(ShapeOf(p), OfPayload(p)).value;
      PayloadsDiffer(p, q);
    }
    forall id: Uuid
      ensures ParseId(ShowId(id)) == Some(id) && ShowId(id) != HELLO
    {
      assert id > 0 ==> ShowId(id)[0] == '0';
      assert HELLO[0] == 'g';
    }
  }
}

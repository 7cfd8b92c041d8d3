/** The codec between the relay's commands and the frames of the wire. Payload structs become JSON values
    and back by derived code, which is a parameter here. */
module GatewayCodec {
  import opened Outcomes
  import opened Text
  import opened JsonValues
  import opened TraceIo
  import opened TelemetryEvents
  import EmbeddedMonitor
  import MonitorBatches

  const VERSION := "vifu.agent-gateway/1"
  const MAX_AGENTS := 256
  const MAX_INVOCATION_BODY_BYTES := 16 * 1024 * 1024
  const MAX_METADATA_BYTES := 64 * 1024

  const HELLO := "gateway.hello"
  const CHALLENGE_EVENT := "gateway.challenge"
  const PAIRING_REQUIRED_EVENT := "gateway.pairingRequired"
  const INVOKE_METHOD := "agent.invoke"
  const CANCEL_EVENT := "agent.cancel"
  const ACTIVITY_READY_EVENT := "agent.invocationActivity.ready"
  const ACTIVITY_EVENT := "agent.invocationActivity"
  const HEARTBEAT_EVENT := "gateway.heartbeat"
  const HEARTBEAT_ACK_EVENT := "gateway.heartbeatAck"
  const ERROR_EVENT := "gateway.error"
  const CONFIG_CHANGED_EVENT := "runtime.config.changed"
  const MONITORING_READY_EVENT := "runtime.monitoring.ready"
  const HOST_METRICS_READY_EVENT := "runtime.hostMetrics.ready"
  const TELEMETRY_EVENT := "runtime.telemetry"
  const FEEDBACK_EVENT := "trace.applicationFeedback"

  datatype AgentDescriptor = AgentDescriptor(id: string, name: string, metadata: Json)

  datatype MachineProof = MachineProof(id: string, publicKey: string, signature: string, signedAt: nat)

  datatype WelcomeAuth = WelcomeAuth(deviceToken: string, generation: nat, expiresAt: string)

  datatype FeedbackKind = OutputAccepted | ActionApplied | FramePresented

  datatype FeedbackOutcome = Pass | Fail | Unknown | NotApplicable

  datatype Feedback = Feedback(
    kind: FeedbackKind, outcome: FeedbackOutcome, message: Option<string>, path: Option<string>)

  datatype Command =
    | Challenge(nonce: string, timestamp: nat, audience: string)
    | Hello(protocol: string, resume: Option<Uuid>, agents: seq<AgentDescriptor>, metadata: Json,
            machine: MachineProof, helloToken: Option<string>, followup: Option<string>)
    | Welcome(gatewayId: string, connectionId: Uuid, sessionId: Uuid, heartbeatIntervalMs: nat, resumed: bool,
              auth: Option<WelcomeAuth>)
    | PairingRequired(requestId: Uuid, authUrl: string, retryable: bool, nextStep: string, retryAfterMs: nat)
    | Invoke(requestId: Uuid, channelId: nat, endpointId: Uuid, profileId: Uuid, bindingId: Uuid, agentId: string,
             binding: Json, input: Json, timeoutMs: nat)
    | Result(requestId: Uuid, channelId: nat, output: Json)
    | Error(about: Option<Uuid>, channel: Option<nat>, code: string, message: string)
    | Cancel(requestId: Uuid, channelId: nat)
    | ActivityReady
    | Activity(requestId: Uuid, channelId: nat)
    | Heartbeat(sessionId: Uuid)
    | HeartbeatAck(sessionId: Uuid)
    | ConfigChanged(deployments: seq<Uuid>)
    | MonitoringReady
    | HostMetricsReady
    | Telemetry(batch: EmbeddedMonitor.RuntimeBatch)
    | ApplicationFeedback(requestId: Uuid, observationId: Uuid, start: nat, end: nat, feedback: Feedback)

  datatype ErrorShape = ErrorShape(code: string, message: string, details: Option<Json>)

  datatype Frame =
    | Request(id: string, method_: string, params: Option<Json>)
    | Response(id: string, ok: bool, payload: Option<Json>, error: Option<ErrorShape>)
    | Event(event: string, payload: Option<Json>)

  // --- Payloads ---------------------------------------------------------------------------------

  datatype Shape =
    | ChallengeShape | HelloShape | WelcomeShape | PairingShape | InvokeShape | ResultShape | DetailsShape | CancelShape
    | EmptyShape | ActivityShape | HeartbeatShape | ErrorShape_ | ConfigShape | TelemetryShape | FeedbackShape

  /** The payload structs, as the fields of the commands that they carry. */
  datatype Payload =
    | ChallengePayload(nonce: string, timestamp: nat, audience: string)
    | HelloParams(protocol: string, resume: Option<Uuid>, agents: seq<AgentDescriptor>, metadata: Json,
                  machine: MachineProof, helloToken: Option<string>, followup: Option<string>)
    | WelcomePayload(gatewayId: string, connectionId: Uuid, sessionId: Uuid, heartbeatIntervalMs: nat, resumed: bool,
                     auth: Option<WelcomeAuth>)
    | PairingPayload(requestId: Uuid, authUrl: string, retryable: bool, nextStep: string, retryAfterMs: nat)
    | InvokeParams(channelId: nat, endpointId: Uuid, profileId: Uuid, bindingId: Uuid, agentId: string,
                   binding: Json, input: Json, timeoutMs: nat)
    | ResultPayload(channelId: nat, output: Json)
    | ErrorDetails(channelId: nat)
    | CancelPayload(requestId: Uuid, channelId: nat)
    | EmptyPayload
    | ActivityPayload(requestId: Uuid, channelId: nat)
    | HeartbeatPayload(sessionId: Uuid)
    | ErrorPayload(code: string, message: string)
    | ConfigPayload(deployments: seq<Uuid>)
    | TelemetryPayload(batch: EmbeddedMonitor.RuntimeBatch)
    | FeedbackPayload(requestId: Uuid, observationId: Uuid, start: nat, end: nat, feedback: Feedback)

  function ShapeOf(p: Payload): Shape {
    match p
    case ChallengePayload(_, _, _) => ChallengeShape
    case HelloParams(_, _, _, _, _, _, _) => HelloShape
    case WelcomePayload(_, _, _, _, _, _) => WelcomeShape
    case PairingPayload(_, _, _, _, _) => PairingShape
    case InvokeParams(_, _, _, _, _, _, _, _) => InvokeShape
    case ResultPayload(_, _) => ResultShape
    case ErrorDetails(_) => DetailsShape
    case CancelPayload(_, _) => CancelShape
    case EmptyPayload => EmptyShape
    case ActivityPayload(_, _) => ActivityShape
    case HeartbeatPayload(_) => HeartbeatShape
    case ErrorPayload(_, _) => ErrorShape_
    case ConfigPayload(_) => ConfigShape
    case TelemetryPayload(_) => TelemetryShape
    case FeedbackPayload(_, _, _, _, _) => FeedbackShape
  }

  /** The derived conversions, and the text form of request ids. */
  datatype Wire = Wire(
    reader: Reader, encode: Payload -> Json, decode: (Shape, Json) -> Option<Payload>,
    show: Uuid -> string, parse: string -> Option<Uuid>)
  {
    /** Decoding undoes encoding and keeps to the shape; the text of an id is never that of the hello. */
    ghost predicate Faithful() {
      && (forall p :: decode(ShapeOf(p), encode(p)) == Some(p))
      && (forall shape, v :: decode(shape, v).Some? ==> ShapeOf(decode(shape, v).value) == shape)
      && (forall id: Uuid :: parse(show(id)) == Some(id) && show(id) != HELLO)
    }
  }

  // --- Validation -------------------------------------------------------------------------------

  predicate ValidToken(text: string, min: nat, max: nat) {
    min <= |text| <= max && forall i :: 0 <= i < |text| ==> IsAsciiAlphanumeric(text[i]) || text[i] in "-_.:"
  }

  predicate ValidCode(code: string) {
    && 1 <= |code| <= 64
    && forall i :: 0 <= i < |code| ==> 'A' <= code[i] <= 'Z' || '0' <= code[i] <= '9' || code[i] == '_'
  }

  predicate ValidAgent(agent: AgentDescriptor) {
    ValidIdentifier(agent.id) && ValidText(agent.name, 1, 128) && EncodedSize(agent.metadata) <= MAX_METADATA_BYTES
  }

  predicate ValidCommand(wire: Wire, c: Command) {
    match c
    case Challenge(nonce, timestamp, audience) =>
      ValidToken(nonce, 32, 256) && timestamp != 0 && ValidText(audience, 1, 512)
    case Hello(protocol, _, agents, metadata, machine, helloToken, followup) =>
      && protocol == VERSION
      && |agents| <= MAX_AGENTS
      && (forall i :: 0 <= i < |agents| ==> ValidAgent(agents[i]))
      && EncodedSize(metadata) <= MAX_METADATA_BYTES
      && ValidIdentifier(machine.id) && ValidToken(machine.publicKey, 32, 256) && ValidToken(machine.signature, 32, 256)
      && machine.signedAt != 0
      && (helloToken.Some? ==> ValidToken(helloToken.value, 48, 256))
      && (followup.Some? ==> ValidToken(followup.value, 16, 512))
    case Welcome(gatewayId, _, _, interval, _, auth) =>
      && ValidIdentifier(gatewayId)
      && 1_000 <= interval <= 60_000
      && (auth.Some? ==>
            ValidToken(auth.value.deviceToken, 48, 256) && auth.value.generation != 0
            && 1 <= Utf8Size(auth.value.expiresAt) <= 64)
    case PairingRequired(_, authUrl, _, nextStep, retryAfterMs) =>
      ValidText(authUrl, 1, 2048) && ValidToken(nextStep, 3, 64) && 250 <= retryAfterMs <= 60_000
    case Invoke(_, channelId, _, _, _, agentId, binding, input, timeoutMs) =>
      && channelId != 0 && ValidIdentifier(agentId)
      && EncodedSize(binding) <= MAX_METADATA_BYTES && EncodedSize(input) <= MAX_INVOCATION_BODY_BYTES
      && 500 <= timeoutMs <= 120_000
    case Result(_, channelId, output) => channelId != 0 && EncodedSize(output) <= MAX_INVOCATION_BODY_BYTES
    case Error(about, channel, code, message) =>
      && about.Some? == channel.Some?
      && (channel.Some? ==> channel.value != 0)
      && ValidCode(code) && ValidText(message, 1, 2048)
    case Cancel(_, channelId) => channelId != 0
    case Activity(_, channelId) => channelId != 0
    case ConfigChanged(deployments) =>
      1 <= |deployments| <= 256 && forall i, j :: 0 <= i < j < |deployments| ==> deployments[i] != deployments[j]
    case Telemetry(batch) => MonitorBatches.ValidRuntimeBatch(wire.reader, batch)
    case ApplicationFeedback(_, _, start, end, feedback) =>
      && start <= end <= MAX_DURATION_MS
      && (feedback.message.Some? ==> ValidText(feedback.message.value, 1, 512))
      && (feedback.path.Some? ==> ValidText(feedback.path.value, 1, 512))
    case _ => true
  }

  // --- Encoding ---------------------------------------------------------------------------------

  datatype CodecError = InvalidCommand | UnsupportedMethod | UnsupportedEvent | InvalidPayload | MissingError | InvalidId

  type Res<T> = Outcomes.Result<T, CodecError>

  function RequestFrame(wire: Wire, id: string, method_: string, p: Payload): Frame {
    Request(id, method_, Some(wire.encode(p)))
  }

  function ResponseFrame(wire: Wire, id: string, p: Payload): Frame {
    Response(id, true, Some(wire.encode(p)), None)
  }

  function EventFrame(wire: Wire, event: string, p: Payload): Frame {
    Event(event, Some(wire.encode(p)))
  }

  function ToGatewayFrame(wire: Wire, c: Command): (r: Res<Frame>)
    ensures r.Ok? <==> ValidCommand(wire, c)
  {
    if !ValidCommand(wire, c) then Err(InvalidCommand)
    else
      match c
      case Challenge(nonce, timestamp, audience) =>
        Ok(EventFrame(wire, CHALLENGE_EVENT, ChallengePayload(nonce, timestamp, audience)))
      case Hello(protocol, resume, agents, metadata, machine, helloToken, followup) =>
        Ok(RequestFrame(wire, HELLO, HELLO, HelloParams(protocol, resume, agents, metadata, machine, helloToken, followup)))
      case Welcome(gatewayId, connectionId, sessionId, interval, resumed, auth) =>
        Ok(ResponseFrame(wire, HELLO, WelcomePayload(gatewayId, connectionId, sessionId, interval, resumed, auth)))
      case PairingRequired(id, authUrl, retryable, nextStep, retryAfterMs) =>
        Ok(EventFrame(wire, PAIRING_REQUIRED_EVENT, PairingPayload(id, authUrl, retryable, nextStep, retryAfterMs)))
      case Invoke(id, channelId, endpointId, profileId, bindingId, agentId, binding, input, timeoutMs) =>
        Ok(RequestFrame(wire, wire.show(id), INVOKE_METHOD,
                        InvokeParams(channelId, endpointId, profileId, bindingId, agentId, binding, input, timeoutMs)))
      case Result(id, channelId, output) => Ok(ResponseFrame(wire, wire.show(id), ResultPayload(channelId, output)))
      case Error(about, channel, code, message) =>
        if about.Some? && channel.Some? then
          Ok(Response(wire.show(about.value), false, None,
                      Some(ErrorShape(code, message, Some(wire.encode(ErrorDetails(channel.value)))))))
        else if about.None? && channel.None? then Ok(EventFrame(wire, ERROR_EVENT, ErrorPayload(code, message)))
        else Err(InvalidCommand)
      case Cancel(id, channelId) => Ok(EventFrame(wire, CANCEL_EVENT, CancelPayload(id, channelId)))
      case ActivityReady => Ok(EventFrame(wire, ACTIVITY_READY_EVENT, EmptyPayload))
      case Activity(id, channelId) => Ok(EventFrame(wire, ACTIVITY_EVENT, ActivityPayload(id, channelId)))
      case Heartbeat(sessionId) => Ok(EventFrame(wire, HEARTBEAT_EVENT, HeartbeatPayload(sessionId)))
      case HeartbeatAck(sessionId) => Ok(EventFrame(wire, HEARTBEAT_ACK_EVENT, HeartbeatPayload(sessionId)))
      case ConfigChanged(deployments) => Ok(EventFrame(wire, CONFIG_CHANGED_EVENT, ConfigPayload(deployments)))
      case MonitoringReady => Ok(EventFrame(wire, MONITORING_READY_EVENT, EmptyPayload))
      case HostMetricsReady => Ok(EventFrame(wire, HOST_METRICS_READY_EVENT, EmptyPayload))
      case Telemetry(batch) => Ok(EventFrame(wire, TELEMETRY_EVENT, TelemetryPayload(batch)))
      case ApplicationFeedback(id, observationId, start, end, feedback) =>
        Ok(EventFrame(wire, FEEDBACK_EVENT, FeedbackPayload(id, observationId, start, end, feedback)))
  }

  // --- Decoding ---------------------------------------------------------------------------------

  function DecodeRequired(wire: Wire, shape: Shape, v: Option<Json>): Option<Payload> {
    if v.None? then None else wire.decode(shape, v.value)
  }

  function EventShape(event: string): Option<Shape> {
    if event == CHALLENGE_EVENT then Some(ChallengeShape)
    else if event == PAIRING_REQUIRED_EVENT then Some(PairingShape)
    else if event == CANCEL_EVENT then Some(CancelShape)
    else if event == ACTIVITY_READY_EVENT then Some(EmptyShape)
    else if event == ACTIVITY_EVENT then Some(ActivityShape)
    else if event == HEARTBEAT_EVENT then Some(HeartbeatShape)
    else if event == HEARTBEAT_ACK_EVENT then Some(HeartbeatShape)
    else if event == ERROR_EVENT then Some(ErrorShape_)
    else if event == CONFIG_CHANGED_EVENT then Some(ConfigShape)
    else if event == MONITORING_READY_EVENT then Some(EmptyShape)
    else if event == HOST_METRICS_READY_EVENT then Some(EmptyShape)
    else if event == TELEMETRY_EVENT then Some(TelemetryShape)
    else if event == FEEDBACK_EVENT then Some(FeedbackShape)
    else None
  }

  /** The command that an event's payload stands for. */
  function EventCommand(event: string, p: Payload): Res<Command> {
    match p
    case ChallengePayload(nonce, timestamp, audience) => Ok(Challenge(nonce, timestamp, audience))
    case PairingPayload(id, authUrl, retryable, nextStep, retryAfterMs) =>
      Ok(PairingRequired(id, authUrl, retryable, nextStep, retryAfterMs))
    case CancelPayload(id, channelId) => Ok(Cancel(id, channelId))
    case EmptyPayload =>
      Ok(if event == ACTIVITY_READY_EVENT then ActivityReady
         else if event == MONITORING_READY_EVENT then MonitoringReady
         else HostMetricsReady)
    case ActivityPayload(id, channelId) => Ok(Activity(id, channelId))
    case HeartbeatPayload(sessionId) =>
      Ok(if event == HEARTBEAT_EVENT then Heartbeat(sessionId) else HeartbeatAck(sessionId))
    case ErrorPayload(code, message) => Ok(Error(None, None, code, message))
    case ConfigPayload(deployments) => Ok(ConfigChanged(deployments))
    case TelemetryPayload(batch) => Ok(Telemetry(batch))
    case FeedbackPayload(id, observationId, start, end, feedback) =>
      Ok(ApplicationFeedback(id, observationId, start, end, feedback))
    case _ => Err(InvalidPayload)
  }

  function FromEvent(wire: Wire, event: string, payload: Option<Json>): Res<Command> {
    var shape := EventShape(event);
    if shape.None? then Err(UnsupportedEvent)
    else
      var p := DecodeRequired(wire, shape.value, payload);
      if p.None? then Err(InvalidPayload) else EventCommand(event, p.value)
  }

  function FromRequest(wire: Wire, id: string, method_: string, params: Option<Json>): Res<Command> {
    if method_ == HELLO then
      match DecodeRequired(wire, HelloShape, params)
      case Some(HelloParams(protocol, resume, agents, metadata, machine, helloToken, followup)) =>
        Ok(Hello(protocol, resume, agents, metadata, machine, helloToken, followup))
      case _ => Err(InvalidPayload)
    else if method_ == INVOKE_METHOD then
      var requestId := wire.parse(id);
      if requestId.None? then Err(InvalidId)
      else
        match DecodeRequired(wire, InvokeShape, params)
        case Some(InvokeParams(channelId, endpointId, profileId, bindingId, agentId, binding, input, timeoutMs)) =>
          Ok(Invoke(requestId.value, channelId, endpointId, profileId, bindingId, agentId, binding, input, timeoutMs))
        case _ => Err(InvalidPayload)
    else Err(UnsupportedMethod)
  }

  function FromResponse(wire: Wire, id: string, ok: bool, payload: Option<Json>, error: Option<ErrorShape>): Res<Command> {
    if id == HELLO then
      if !ok then
        if error.None? then Err(MissingError) else Ok(Error(None, None, error.value.code, error.value.message))
      else
        match DecodeRequired(wire, WelcomeShape, payload)
        case Some(WelcomePayload(gatewayId, connectionId, sessionId, interval, resumed, auth)) =>
          Ok(Welcome(gatewayId, connectionId, sessionId, interval, resumed, auth))
        case _ => Err(InvalidPayload)
    else
      var requestId := wire.parse(id);
      if requestId.None? then Err(InvalidId)
      else if ok then
        match DecodeRequired(wire, ResultShape, payload)
        case Some(ResultPayload(channelId, output)) => Ok(Result(requestId.value, channelId, output))
        case _ => Err(InvalidPayload)
      else if error.None? then Err(MissingError)
      else
        match DecodeRequired(wire, DetailsShape, error.value.details)
        case Some(ErrorDetails(channelId)) =>
          Ok(Error(requestId, Some(channelId), error.value.code, error.value.message))
        case _ => Err(InvalidPayload)
  }

  function FromGatewayFrame(wire: Wire, frame: Frame): Res<Command> {
    var c :=
      match frame
      case Request(id, method_, params) => FromRequest(wire, id, method_, params)
      case Response(id, ok, payload, error) => FromResponse(wire, id, ok, payload, error)
      case Event(event, payload) => FromEvent(wire, event, payload);
    if c.Ok? && !ValidCommand(wire, c.value) then Err(InvalidCommand) else c
  }

  // --- Round trips ------------------------------------------------------------------------------

  predicate SentAsEvent(c: Command) {
    !(c.Hello? || c.Welcome? || c.Invoke? || c.Result? || (c.Error? && c.about.Some?))
  }

  /** The event under which a command goes out, and its payload. */
  function EventOf(c: Command): (r: (string, Payload))
    requires SentAsEvent(c)
  {
    match c
    case Challenge(nonce, timestamp, audience) => (CHALLENGE_EVENT, ChallengePayload(nonce, timestamp, audience))
    case PairingRequired(id, authUrl, retryable, nextStep, retryAfterMs) =>
      (PAIRING_REQUIRED_EVENT, PairingPayload(id, authUrl, retryable, nextStep, retryAfterMs))
    case Error(_, _, code, message) => (ERROR_EVENT, ErrorPayload(code, message))
    case Cancel(id, channelId) => (CANCEL_EVENT, CancelPayload(id, channelId))
    case ActivityReady => (ACTIVITY_READY_EVENT, EmptyPayload)
    case Activity(id, channelId) => (ACTIVITY_EVENT, ActivityPayload(id, channelId))
    case Heartbeat(sessionId) => (HEARTBEAT_EVENT, HeartbeatPayload(sessionId))
    case HeartbeatAck(sessionId) => (HEARTBEAT_ACK_EVENT, HeartbeatPayload(sessionId))
    case ConfigChanged(deployments) => (CONFIG_CHANGED_EVENT, ConfigPayload(deployments))
    case MonitoringReady => (MONITORING_READY_EVENT, EmptyPayload)
    case HostMetricsReady => (HOST_METRICS_READY_EVENT, EmptyPayload)
    case Telemetry(batch) => (TELEMETRY_EVENT, TelemetryPayload(batch))
    case ApplicationFeedback(id, observationId, start, end, feedback) =>
      (FEEDBACK_EVENT, FeedbackPayload(id, observationId, start, end, feedback))
  }

  lemma EventComesBack(c: Command)
    requires SentAsEvent(c) && (c.Error? ==> c.channel.None?)
    ensures EventShape(EventOf(c).0) == Some(ShapeOf(EventOf(c).1))
    ensures EventCommand(EventOf(c).0, EventOf(c).1) == Ok(c)
  {
  }

  /** Every command that is encoded comes back as it was. */
  lemma RoundTrip(wire: Wire, c: Command)
    requires wire.Faithful() && ToGatewayFrame(wire, c).Ok?
    ensures FromGatewayFrame(wire, ToGatewayFrame(wire, c).value) == Ok(c)
  {
    var frame := ToGatewayFrame(wire, c).value;
    if SentAsEvent(c) {
      EventComesBack(c);
      assert frame == EventFrame(wire, EventOf(c).0, EventOf(c).1);
    }
  }

  /** What was decoded from any frame can be encoded, and comes back as it was. */
  lemma DecodedComesBack(wire: Wire, frame: Frame)
    requires wire.Faithful() && FromGatewayFrame(wire, frame).Ok?
    ensures var c := FromGatewayFrame(wire, frame).value;
      ToGatewayFrame(wire, c).Ok? && FromGatewayFrame(wire, ToGatewayFrame(wire, c).value) == Ok(c)
  {
    RoundTrip(wire, FromGatewayFrame(wire, frame).value);
  }

  /** No two commands share a frame. */
  lemma FramesAreUnambiguous(wire: Wire, a: Command, b: Command)
    requires wire.Faithful() && ToGatewayFrame(wire, a).Ok? && ToGatewayFrame(wire, a) == ToGatewayFrame(wire, b)
    ensures a == b
  {
    RoundTrip(wire, a);
    RoundTrip(wire, b);
  }

  /** The frame itself need not come back: a refused hello is decoded to an error of the connection, which
      is encoded as an event. */
  lemma RefusedHelloBecomesAnEvent(wire: Wire, code: string, message: string, details: Option<Json>)
    requires ValidCode(code) && ValidText(message, 1, 2048)
    ensures var frame := Response(HELLO, false, None, Some(ErrorShape(code, message, details)));
      && FromGatewayFrame(wire, frame) == Ok(Error(None, None, code, message))
      && ToGatewayFrame(wire, Error(None, None, code, message)) == Ok(EventFrame(wire, ERROR_EVENT, ErrorPayload(code, message)))
  {
  }
}

/** Which commands the codec takes, and under which names: whatever the gateway answers to a decoded invocation can be
    encoded, unless the output is too large. */
module CodecAcceptance {
  import opened Outcomes
  import opened JsonValues
  import opened TelemetryEvents
  import opened GatewayCodec
  import Admission
  import MonitorBatches

  // --- Answers ----------------------------------------------------------------------------------

  /** The code of an error answer. */
  function CodeOf(answer: Admission.Answer): string {
    match answer
    case ProviderError => "PROVIDER_ERROR"
    case NotConnected => "PROVIDER_NOT_AVAILABLE"
    case Backpressure => "BACKPRESSURE"
    case _ => "DUPLICATE_REQUEST"
  }

  /** The command of an answer to an invocation. An error's text is cut to 512 characters. */
  function AnswerCommand(id: Uuid, channel: nat, answer: Admission.Answer, output: Json, text: string): Command {
    if answer == Admission.Output then Result(id, channel, output)
    else Error(Some(id), Some(channel), CodeOf(answer), SanitizeError(text))
  }

  /** 512 characters of up to four bytes are just what an error message may have. */
  lemma SanitizedErrorFits(text: string)
    ensures ValidText(SanitizeError(text), 1, 2048)
  {
    SanitizedFacts(text);
    Utf8SizeBounds(SanitizeError(text));
  }

  lemma CodesAreValid(answer: Admission.Answer)
    ensures ValidCode(CodeOf(answer))
  {
  }

  lemma DecodedHasChannel(wire: Wire, frame: Frame)
    requires FromGatewayFrame(wire, frame).Ok? && FromGatewayFrame(wire, frame).value.Invoke?
    ensures FromGatewayFrame(wire, frame).value.channelId != 0
  {
  }

  lemma ErrorIsEncoded(wire: Wire, id: Uuid, channel: nat, code: string, text: string)
    requires channel != 0 && ValidCode(code)
    ensures ToGatewayFrame(wire, Error(Some(id), Some(channel), code, SanitizeError(text))).Ok?
  {
    SanitizedErrorFits(text);
  }

  lemma ResultIsEncoded(wire: Wire, id: Uuid, channel: nat, output: Json)
    ensures ToGatewayFrame(wire, Result(id, channel, output)).Ok? <==> channel > 0 && EncodedSize(output) <= 16_777_216
  {
  }

  /** Every answer to a decoded invocation can be encoded, except exactly an output of more than 16 MiB. */
  lemma AnswersAreEncoded(wire: Wire, frame: Frame, c: Command, answer: Admission.Answer, output: Json, text: string)
    requires FromGatewayFrame(wire, frame) == Ok(c) && c.Invoke?
    ensures ToGatewayFrame(wire, AnswerCommand(c.requestId, c.channelId, answer, output, text)).Ok?
      <==> (answer != Admission.Output || EncodedSize(output) <= 16_777_216)
  {
    DecodedHasChannel(wire, frame);
    if answer == Admission.Output {
      ResultIsEncoded(wire, c.requestId, c.channelId, output);
    } else {
      CodesAreValid(answer);
      ErrorIsEncoded(wire, c.requestId, c.channelId, CodeOf(answer), text);
    }
  }

  // --- The other commands -----------------------------------------------------------------------

  lemma NoticesAreEncoded(wire: Wire, c: Command)
    requires c.ActivityReady? || c.MonitoringReady? || c.HostMetricsReady? || c.Heartbeat? || c.HeartbeatAck?
    ensures ToGatewayFrame(wire, c).Ok?
  {
  }

  lemma ChannelsAreEncoded(wire: Wire, c: Command)
    requires c.Cancel? || c.Activity?
    ensures ToGatewayFrame(wire, c).Ok? <==> c.channelId > 0
  {
  }

  function IdsIn(ids: seq<Uuid>): set<Uuid> {
    set id | id in ids
  }

  /** As many different deployments as there are entries. */
  lemma ConfigurationIsEncoded(wire: Wire, c: Command)
    requires c.ConfigChanged?
    ensures ToGatewayFrame(wire, c).Ok? <==> 0 < |c.deployments| <= 256 && |IdsIn(c.deployments)| == |c.deployments|
  {
    IdsAreCounted(c.deployments);
  }

  predicate AllDiffer(ids: seq<Uuid>) {
    forall i, j :: 0 <= i < j < |ids| ==> ids[i] != ids[j]
  }

  lemma {:induction false} IdsAreCounted(ids: seq<Uuid>)
    ensures |IdsIn(ids)| <= |ids|
    ensures |IdsIn(ids)| == |ids| <==> AllDiffer(ids)
  {
    if ids == [] {
      assert IdsIn(ids) == {};
    } else {
      var front, last := ids[..|ids| - 1], ids[|ids| - 1];
      IdsAreCounted(front);
      OneMoreId(front, last);
      assert ids == front + [last];
    }
  }

  lemma OneMoreId(front: seq<Uuid>, last: Uuid)
    ensures IdsIn(front + [last]) == IdsIn(front) + {last}
    ensures AllDiffer(front + [last]) <==> AllDiffer(front) && last !in front
  {
    var ids := front + [last];
    assert forall i :: 0 <= i < |front| ==> ids[i] == front[i];
    if last in front {
      var i :| 0 <= i < |front| && front[i] == last;
      assert ids[i] == ids[|front|];
    }
  }

  lemma InvocationIsEncoded(wire: Wire, c: Command)
    requires c.Invoke?
    ensures ToGatewayFrame(wire, c).Ok?
      <==> && c.channelId > 0 && ValidIdentifier(c.agentId) && 500 <= c.timeoutMs <= 120_000
           && EncodedSize(c.binding) <= 65_536 && EncodedSize(c.input) <= 16_777_216
  {
  }

  lemma FeedbackIsEncoded(wire: Wire, c: Command)
    requires c.ApplicationFeedback?
    ensures ToGatewayFrame(wire, c).Ok?
      <==> && c.start <= c.end <= 86_400_000
           && (c.feedback.message == None || ValidText(c.feedback.message.value, 1, 512))
           && (c.feedback.path == None || ValidText(c.feedback.path.value, 1, 512))
  {
  }

  /** An error goes out with both ids of a call, or with none. */
  lemma ErrorsAreEncoded(wire: Wire, c: Command)
    requires c.Error?
    ensures ToGatewayFrame(wire, c).Ok?
      <==> && ((c.about.Some? && c.channel.Some? && c.channel.value > 0) || (c.about == None && c.channel == None))
           && ValidCode(c.code) && ValidText(c.message, 1, 2048)
  {
  }

  lemma HandshakesAreEncoded(wire: Wire, c: Command)
    ensures c.Challenge? ==>
      (ToGatewayFrame(wire, c).Ok?
       <==> ValidToken(c.nonce, 32, 256) && c.timestamp > 0 && ValidText(c.audience, 1, 512))
    ensures c.PairingRequired? ==>
      (ToGatewayFrame(wire, c).Ok?
       <==> ValidText(c.authUrl, 1, 2048) && ValidToken(c.nextStep, 3, 64) && 250 <= c.retryAfterMs <= 60_000)
    ensures c.Telemetry? ==> (ToGatewayFrame(wire, c).Ok? <==> MonitorBatches.ValidRuntimeBatch(wire.reader, c.batch))
  {
  }

  lemma WelcomeIsEncoded(wire: Wire, c: Command)
    requires c.Welcome?
    ensures ToGatewayFrame(wire, c).Ok?
      <==> && ValidIdentifier(c.gatewayId) && 1_000 <= c.heartbeatIntervalMs <= 60_000
           && (c.auth == None
               || (ValidToken(c.auth.value.deviceToken, 48, 256) && c.auth.value.generation > 0
                   && 1 <= Utf8Size(c.auth.value.expiresAt) <= 64))
  {
  }

  lemma HelloIsEncoded(wire: Wire, c: Command)
    requires c.Hello?
    ensures ToGatewayFrame(wire, c).Ok?
      <==> && c.protocol == "vifu.agent-gateway/1" && EncodedSize(c.metadata) <= 65_536 && c.machine.signedAt > 0
           && ValidIdentifier(c.machine.id) && ValidToken(c.machine.publicKey, 32, 256)
           && ValidToken(c.machine.signature, 32, 256)
           && (c.helloToken == None || ValidToken(c.helloToken.value, 48, 256))
           && (c.followup == None || ValidToken(c.followup.value, 16, 512))
           && |c.agents| <= 256
           && forall i :: 0 <= i < |c.agents| ==>
                && ValidIdentifier(c.agents[i].id) && ValidText(c.agents[i].name, 1, 128)
                && EncodedSize(c.agents[i].metadata) <= 65_536
  {
  }

  predicate IsTokenChar(c: char) {
    'a' <= c <= 'z' || 'A' <= c <= 'Z' || '0' <= c <= '9' || c == '-' || c == '_' || c == '.' || c == ':'
  }

  predicate IsCodeChar(c: char) {
    'A' <= c <= 'Z' || '0' <= c <= '9' || c == '_'
  }

  /** What tokens, identifiers and codes are made of. */
  lemma NamesAreChecked(text: string, min: nat, max: nat)
    ensures ValidToken(text, min, max)
      <==> min <= |text| <= max && forall i :: 0 <= i < |text| ==> IsTokenChar(text[i])
    ensures ValidIdentifier(text) <==> ValidToken(text, 3, 128)
    ensures ValidCode(text) <==> 1 <= |text| <= 64 && forall i :: 0 <= i < |text| ==> IsCodeChar(text[i])
  {
  }

  // --- Names on the wire ------------------------------------------------------------------------

  /** The event of a command that goes out as one. */
  function EventName(c: Command): string {
    match c
    case Challenge(_, _, _) => "gateway.challenge"
    case PairingRequired(_, _, _, _, _) => "gateway.pairingRequired"
    case Cancel(_, _) => "agent.cancel"
    case ActivityReady => "agent.invocationActivity.ready"
    case Activity(_, _) => "agent.invocationActivity"
    case Heartbeat(_) => "gateway.heartbeat"
    case HeartbeatAck(_) => "gateway.heartbeatAck"
    case ConfigChanged(_) => "runtime.config.changed"
    case MonitoringReady => "runtime.monitoring.ready"
    case HostMetricsReady => "runtime.hostMetrics.ready"
    case Telemetry(_) => "runtime.telemetry"
    case ApplicationFeedback(_, _, _, _, _) => "trace.applicationFeedback"
    case _ => "gateway.error"
  }

  /** Requests and responses go out under the id of their invocation, or that of the hello; the rest are events. */
  lemma FramesAreNamed(wire: Wire, c: Command)
    requires ToGatewayFrame(wire, c).Ok?
    ensures var f := ToGatewayFrame(wire, c).value;
      match c
      case Hello(_, _, _, _, _, _, _) => f.Request? && f.id == "gateway.hello" && f.method_ == "gateway.hello"
      case Invoke(id, _, _, _, _, _, _, _, _) => f.Request? && f.id == wire.show(id) && f.method_ == "agent.invoke"
      case Welcome(_, _, _, _, _, _) => f.Response? && f.id == "gateway.hello" && f.ok && f.error == None
      case Result(id, _, _) => f.Response? && f.id == wire.show(id) && f.ok && f.error == None
      case Error(Some(id), _, code, message) =>
        && f.Response? && f.id == wire.show(id) && !f.ok && f.payload == None
        && f.error.Some? && f.error.value.code == code && f.error.value.message == message
      case _ => f.Event? && f.event == EventName(c) && f.payload.Some?
  {
  }

  /** What is decoded is what its frame names: an event under its own name, the two requests, and the responses to the
      hello or to an invocation. Nothing decodes without its payload, or its error. */
  lemma DecodedIsNamed(wire: Wire, frame: Frame, c: Command)
    requires FromGatewayFrame(wire, frame) == Ok(c) && wire.Faithful()
    ensures frame.Event? ==> SentAsEvent(c) && frame.event == EventName(c) && frame.payload.Some?
    ensures frame.Request? && c.Hello? ==> frame.method_ == "gateway.hello" && frame.params.Some?
    ensures frame.Request? && !c.Hello? ==>
      c.Invoke? && frame.method_ == "agent.invoke" && wire.parse(frame.id) == Some(c.requestId) && frame.params.Some?
    ensures frame.Response? && frame.ok ==>
      && frame.payload.Some?
      && if frame.id == "gateway.hello" then c.Welcome? else c.Result? && wire.parse(frame.id) == Some(c.requestId)
    ensures frame.Response? && !frame.ok ==>
      && c.Error? && frame.error.Some? && c.code == frame.error.value.code && c.message == frame.error.value.message
      && if frame.id == "gateway.hello" then c.about == None
         else wire.parse(frame.id).Some? && c.about == wire.parse(frame.id) && c.channel.Some?
  {
    if frame.Event? { EventIsNamed(wire, frame.event, frame.payload, c); }
  }

  lemma EventIsNamed(wire: Wire, event: string, payload: Option<Json>, c: Command)
    requires FromEvent(wire, event, payload) == Ok(c) && wire.Faithful()
    ensures SentAsEvent(c) && event == EventName(c) && payload.Some?
  {
    var p := DecodeRequired(wire, EventShape(event).value, payload).value;
    assert ShapeOf(p) == EventShape(event).value;
    EventCommandIsNamed(event, p, c);
  }

  lemma EventCommandIsNamed(event: string, p: Payload, c: Command)
    requires EventShape(event) == Some(ShapeOf(p)) && EventCommand(event, p) == Ok(c)
    ensures SentAsEvent(c) && event == EventName(c)
  {
    NamesAndShapes(event);
  }

  lemma NamesAndShapes(event: string)
    ensures EventShape(event) == Some(EmptyShape) ==>
      event == ACTIVITY_READY_EVENT || event == MONITORING_READY_EVENT || event == HOST_METRICS_READY_EVENT
    ensures EventShape(event) == Some(HeartbeatShape) ==> event == HEARTBEAT_EVENT || event == HEARTBEAT_ACK_EVENT
  {
  }

  /** Why a frame is not decoded. */
  lemma RefusedFrames(wire: Wire, name: string, id: string, payload: Option<Json>)
    ensures EventShape(name) == None ==> FromGatewayFrame(wire, Event(name, payload)) == Err(UnsupportedEvent)
    ensures EventShape(name).Some? && payload == None ==> FromGatewayFrame(wire, Event(name, payload)) == Err(InvalidPayload)
    ensures name != "gateway.hello" && name != "agent.invoke" ==>
      FromGatewayFrame(wire, Request(id, name, payload)) == Err(UnsupportedMethod)
    ensures wire.parse(id) == None ==> FromGatewayFrame(wire, Request(id, "agent.invoke", payload)) == Err(InvalidId)
    ensures wire.parse(id) == None && id != "gateway.hello" ==>
      forall ok, error :: FromGatewayFrame(wire, Response(id, ok, payload, error)) == Err(InvalidId)
    ensures FromGatewayFrame(wire, Response("gateway.hello", false, payload, None)) == Err(MissingError)
    ensures wire.parse(id).Some? && id != "gateway.hello" ==>
      FromGatewayFrame(wire, Response(id, false, payload, None)) == Err(MissingError)
  {
  }
}

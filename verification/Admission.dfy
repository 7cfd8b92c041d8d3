/** How one connection admits invocations: its call table, its permits, the cancellation of calls, and the
    tasks that answer, each taking one atomic step at a time. */
module Admission {
  import opened Outcomes
  import TelemetryPipeline

  const MAX_CALLS := 64
  const MAX_REJECTIONS := 64
  const OUTBOUND_CAPACITY := 128

  type RequestId = nat

  /** A task that calls the provider can be cancelled; one that only reports a failure is aborted. */
  datatype Kind = ProviderCall | Unavailable | Rejected

  datatype Answer = Output | ProviderError | NotConnected | Backpressure | DuplicateRequest

  datatype Phase =
    | Calling                     // the provider runs
    | Grace                       // has seen the cancellation; the provider has some time left to stop
    | HasResult(result: Answer)   // the provider is done; about to look at the cancellation once more
    | Responding(answer: Answer)  // waits for room in the outbound queue
    | Awaiting                    // its response is queued; waits to hear whether it was delivered
    | GivingBack                  // about to give back the call permit
    | HandingOver                 // about to try for an upload permit
    | Uploading                   // sends its telemetry, with an upload permit
    | Leaving                     // its telemetry is settled
    | Ended                       // has given everything back
    | Finished                    // and its handle says so

  datatype Verdict = Undecided | Answered | Cancelled

  /** The task of invocation number `invoke`. `responded` and `verdict` record what it did. */
  datatype Task = Task(
    request: RequestId, invoke: nat, kind: Kind, phase: Phase,
    cancelled: bool, aborted: bool, report: Option<bool>, responded: bool, verdict: Verdict)

  /** A response to an invocation, with the task that waits for the delivery report, if one does. */
  datatype Response = Response(invoke: nat, answer: Answer, task: Option<nat>)

  datatype Status = Open | Closing | Closed | Broken

  /** `responses` are all that were ever queued, of which the first `delivered` went out on the socket. The
      queue also holds `activities` messages about running calls, in whatever places. */
  datatype Connection = Connection(
    status: Status, atTop: bool, calls: map<RequestId, nat>, tasks: seq<Task>, invokes: nat,
    permits: nat, slots: nat, uploads: nat, elsewhere: nat, responses: seq<Response>, delivered: nat,
    activities: nat)
  {
    predicate HasRoom() {
      |responses| + activities < delivered + OUTBOUND_CAPACITY
    }

    predicate Gone() {
      status == Closed || status == Broken
    }
  }

  function Connected(elsewhere: nat): Connection
    requires elsewhere <= TelemetryPipeline.MAX_UPLOADS
  {
    Connection(Open, true, map[], [], 0, MAX_CALLS, MAX_REJECTIONS, TelemetryPipeline.MAX_UPLOADS - elsewhere, elsewhere,
               [], 0, 0)
  }

  datatype Action =
    // the connection's loop
    | Reap
    | Invoke(id: RequestId, connected: bool)
    | Cancel(id: RequestId)
    | Transmit(ok: bool)
    | TransmitActivity(ok: bool)
    | OtherEvent
    | Fail
    | Stop
    | GiveUp(t: nat)
    | Close
    // a task
    | SeeCancel(t: nat)
    | GraceOver(t: nat)
    | Return(t: nat, result: Answer)
    | Check(t: nat)
    | Respond(t: nat)
    | Hear(t: nat)
    | GiveBack(t: nat)
    | TryUpload(t: nat)
    | UploadDone(t: nat)
    | Leave(t: nat)
    | Exit(t: nat)
    | Die(t: nat)
    // a provider's events, and other users of the upload permits
    | Notify(t: nat)
    | TakeElsewhere
    | GiveElsewhere

  predicate Suspended(p: Phase) {
    p == Calling || p == Grace || p.Responding? || p == Awaiting || p == Uploading
  }

  predicate OfLoop(a: Action) {
    a.Reap? || a.Invoke? || a.Cancel? || a.Transmit? || a.TransmitActivity?
    || a.OtherEvent? || a.Fail? || a.Stop? || a.GiveUp? || a.Close?
  }

  predicate OfTask(a: Action) {
    || a.SeeCancel? || a.GraceOver? || a.Return? || a.Check? || a.Respond? || a.Hear? || a.GiveBack? || a.TryUpload?
    || a.UploadDone? || a.Leave? || a.Exit? || a.Die?
  }

  predicate Enabled(s: Connection, a: Action) {
    if OfLoop(a) then LoopEnabled(s, a)
    else if OfTask(a) then a.t < |s.tasks| && TaskEnabled(s, s.tasks[a.t], a)
    else if a.Notify? then a.t < |s.tasks| && (s.tasks[a.t].phase == Calling || s.tasks[a.t].phase == Grace)
    else if a.TakeElsewhere? then s.uploads > 0
    else s.elsewhere > 0
  }

  predicate LoopEnabled(s: Connection, a: Action)
    requires OfLoop(a)
  {
    match a
    case Reap => s.status == Open && s.atTop
    case Transmit(_) => s.status == Open && !s.atTop && s.delivered < |s.responses|
    case TransmitActivity(_) => s.status == Open && !s.atTop && s.activities > 0
    case GiveUp(t) => s.status == Closing && t < |s.tasks| && s.tasks[t].kind == ProviderCall && s.tasks[t].phase != Finished
    case Close =>
      s.status == Closing
      && forall t :: 0 <= t < |s.tasks| && s.tasks[t].kind == ProviderCall ==>
           s.tasks[t].phase == Finished || s.tasks[t].aborted
    case _ => s.status == Open && !s.atTop
  }

  /** The wait for the result looks at the cancellation first, so a result is only taken without one. */
  predicate TaskEnabled(s: Connection, task: Task, a: Action)
    requires OfTask(a)
  {
    match a
    case SeeCancel(_) => task.phase == Calling && task.cancelled
    case GraceOver(_) => task.phase == Grace
    case Return(_, result) => task.phase == Calling && !task.cancelled && (result == Output || result == ProviderError)
    case Check(_) => task.phase.HasResult?
    case Respond(_) => task.phase.Responding? && (s.Gone() || s.HasRoom())
    case Hear(_) => task.phase == Awaiting && (task.report.Some? || s.Gone())
    case GiveBack(_) => task.phase == GivingBack
    case TryUpload(_) => task.phase == HandingOver
    case UploadDone(_) => task.phase == Uploading
    case Leave(_) => task.phase == Leaving
    case Exit(_) => task.phase == Ended
    case Die(_) => task.aborted && Suspended(task.phase)
  }

  // --- The loop ---------------------------------------------------------------------------------

  function NewTask(id: RequestId, invoke: nat, kind: Kind, phase: Phase): Task {
    Task(id, invoke, kind, phase, false, false, None, false, if kind == ProviderCall then Undecided else Answered)
  }

  function Spawn(s: Connection, task: Task): Connection {
    s.(tasks := s.tasks + [task], calls := s.calls[task.request := |s.tasks|])
  }

  /** A response that is dropped when the outbound queue is full. */
  function BestEffort(s: Connection, invoke: nat, answer: Answer): Connection {
    if s.HasRoom() then s.(responses := s.responses + [Response(invoke, answer, None)]) else s
  }

  function Admit(s: Connection, id: RequestId, connected: bool): Connection {
    var k := s.invokes;
    var r := s.(atTop := true, invokes := k + 1);
    if id in s.calls then BestEffort(r, k, DuplicateRequest)
    else if s.permits == 0 then
      if s.slots == 0 then BestEffort(r, k, Backpressure)
      else Spawn(r.(slots := s.slots - 1), NewTask(id, k, Rejected, Responding(Backpressure)))
    else if !connected then Spawn(r.(permits := s.permits - 1), NewTask(id, k, Unavailable, Responding(NotConnected)))
    else Spawn(r.(permits := s.permits - 1), NewTask(id, k, ProviderCall, Calling))
  }

  function SetTask(s: Connection, t: nat, task: Task): Connection
    requires t < |s.tasks|
  {
    s.(tasks := s.tasks[t := task])
  }

  function CancelCall(s: Connection, id: RequestId): Connection {
    var r := s.(atTop := true);
    if id !in s.calls || s.calls[id] >= |s.tasks| then r
    else
      var t := s.calls[id];
      if s.tasks[t].kind == ProviderCall then SetTask(r, t, s.tasks[t].(cancelled := true))
      else SetTask(r, t, s.tasks[t].(aborted := true)).(calls := s.calls - {id})
  }

  /** The socket takes the oldest queued response, and its task hears about it. A failure ends the
      connection. */
  function TransmitNext(s: Connection, ok: bool): Connection
    requires s.delivered < |s.responses|
  {
    var task := s.responses[s.delivered].task;
    var r :=
      if task.Some? && task.value < |s.tasks| then SetTask(s, task.value, s.tasks[task.value].(report := Some(ok))) else s;
    if ok then r.(atTop := true, delivered := s.delivered + 1) else r.(status := Broken)
  }

  /** Leaving the loop cancels every call in the table, and aborts what cannot be cancelled. */
  function StoppedTask(s: Connection, t: nat): Task
    requires t < |s.tasks|
  {
    var task := s.tasks[t];
    if task.request !in s.calls || s.calls[task.request] != t then task
    else if task.kind == ProviderCall then task.(cancelled := true)
    else task.(aborted := true)
  }

  function LoopStep(s: Connection, a: Action): Connection
    requires OfLoop(a) && LoopEnabled(s, a)
  {
    match a
    case Reap =>
      s.(atTop := false,
         calls := map id | id in s.calls && !(s.calls[id] < |s.tasks| && s.tasks[s.calls[id]].phase == Finished)
                  :: s.calls[id])
    case Invoke(id, connected) => Admit(s, id, connected)
    case Cancel(id) => CancelCall(s, id)
    case Transmit(ok) => TransmitNext(s, ok)
    case TransmitActivity(ok) =>
      if ok then s.(atTop := true, activities := s.activities - 1) else s.(status := Broken)
    case OtherEvent => s.(atTop := true)
    case Fail => s.(status := Broken)
    case Stop =>
      s.(status := Closing, calls := map[], tasks := seq(|s.tasks|, t requires 0 <= t < |s.tasks| => StoppedTask(s, t)))
    case GiveUp(t) => SetTask(s, t, s.tasks[t].(aborted := true))
    case Close => s.(status := Closed)
  }

  // --- Tasks ------------------------------------------------------------------------------------

  predicate HoldsPermit(task: Task) {
    && task.kind != Rejected
    && (task.phase == Calling || task.phase == Grace || task.phase.HasResult? || task.phase.Responding?
        || task.phase == Awaiting || task.phase == GivingBack)
  }

  predicate HoldsSlot(task: Task) {
    task.kind == Rejected && task.phase != Ended && task.phase != Finished
  }

  predicate HoldsUpload(task: Task) {
    task.phase == Uploading
  }

  function One(b: bool): nat {
    if b then 1 else 0
  }

  /** What a dropped task holds goes back. */
  function Dropped(s: Connection, task: Task): Connection {
    s.(permits := s.permits + One(HoldsPermit(task)), slots := s.slots + One(HoldsSlot(task)),
       uploads := s.uploads + One(HoldsUpload(task)))
  }

  function MovedTask(s: Connection, task: Task, a: Action): Task
    requires OfTask(a) && TaskEnabled(s, task, a)
  {
    match a
    case SeeCancel(_) => task.(phase := Grace, verdict := Cancelled)
    case GraceOver(_) => task.(phase := GivingBack)
    case Return(_, result) => task.(phase := HasResult(result))
    case Check(_) =>
      if task.cancelled then task.(phase := GivingBack, verdict := Cancelled)
      else task.(phase := Responding(task.phase.result), verdict := Answered)
    case Respond(_) =>
      if s.Gone() then task.(phase := GivingBack) else task.(phase := Awaiting, responded := true)
    case Hear(_) => task.(phase := GivingBack)
    case GiveBack(_) => task.(phase := HandingOver)
    case TryUpload(_) => task.(phase := if s.uploads > 0 then Uploading else Leaving)
    case UploadDone(_) => task.(phase := Leaving)
    case Leave(_) => task.(phase := Ended)
    case Exit(_) => task.(phase := Finished)
    case Die(_) => task.(phase := Finished)
  }

  function TaskStep(s: Connection, a: Action): Connection
    requires OfTask(a) && a.t < |s.tasks| && TaskEnabled(s, s.tasks[a.t], a)
  {
    var task := s.tasks[a.t];
    var r := SetTask(s, a.t, MovedTask(s, task, a));
    match a
    case Respond(t) =>
      if s.Gone() then r
      else r.(responses := s.responses + [Response(task.invoke, task.phase.answer, Some(t))])
    case GiveBack(_) => if task.kind == Rejected then r else r.(permits := s.permits + 1)
    case TryUpload(_) => if s.uploads > 0 then r.(uploads := s.uploads - 1) else r
    case UploadDone(_) => r.(uploads := s.uploads + 1)
    case Leave(_) => if task.kind == Rejected then r.(slots := s.slots + 1) else r
    case Die(_) => Dropped(r, task)
    case _ => r
  }

  function Step(s: Connection, a: Action): Connection
    requires Enabled(s, a)
  {
    if OfLoop(a) then LoopStep(s, a)
    else if OfTask(a) then TaskStep(s, a)
    else if a.Notify? then if s.HasRoom() then s.(activities := s.activities + 1) else s
    else if a.TakeElsewhere? then s.(uploads := s.uploads - 1, elsewhere := s.elsewhere + 1)
    else s.(uploads := s.uploads + 1, elsewhere := s.elsewhere - 1)
  }

  /** A run of one connection; other tasks hold `elsewhere` upload permits when it starts. */
  ghost predicate IsRun(states: seq<Connection>, actions: seq<Action>) {
    && |states| == |actions| + 1
    && states[0].elsewhere <= TelemetryPipeline.MAX_UPLOADS
    && states[0] == Connected(states[0].elsewhere)
    && forall k :: 0 <= k < |actions| ==> Enabled(states[k], actions[k]) && states[k + 1] == Step(states[k], actions[k])
  }
}

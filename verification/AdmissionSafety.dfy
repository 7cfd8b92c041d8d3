/** What holds in every reachable state of a connection. */
module AdmissionSafety {
  import opened Outcomes
  import opened Sums
  import opened Admission
  import TelemetryPipeline

  // --- The invariant ----------------------------------------------------------------------------

  /** The task is done with the provider and with the response. */
  predicate Past(p: Phase) {
    p == GivingBack || p == HandingOver || p == Uploading || p == Leaving || p == Ended || p == Finished
  }

  predicate TaskSound(task: Task, gone: bool) {
    && (task.phase == Calling || task.phase == Grace || task.phase.HasResult? ==> task.kind == ProviderCall)
    && (task.phase == Calling || task.phase.HasResult? ==> task.verdict == Undecided && !task.responded)
    && (task.phase == Grace ==> task.verdict == Cancelled)
    && (task.phase.Responding? ==> task.verdict == Answered && !task.responded)
    && (task.phase == Awaiting ==> task.verdict == Answered && task.responded)
    && (task.kind != ProviderCall ==> task.verdict == Answered)
    && (task.verdict == Cancelled ==> task.cancelled && !task.responded)
    && (task.verdict == Undecided && Past(task.phase) ==> task.aborted)
    && (task.verdict == Answered && Past(task.phase) && !task.responded ==> task.aborted || gone)
    && (task.report.Some? ==> task.responded)
  }

  predicate TasksSound(s: Connection) {
    forall t :: 0 <= t < |s.tasks| ==> TaskSound(s.tasks[t], s.Gone())
  }

  predicate Live(task: Task) {
    task.phase != Finished
  }

  predicate Entered(s: Connection, t: nat)
    requires t < |s.tasks|
  {
    s.tasks[t].request in s.calls && s.calls[s.tasks[t].request] == t
  }

  /** While the loop runs, the table has every live task that was not aborted, under its request id. */
  predicate TableSound(s: Connection) {
    s.status == Open ==>
      && (forall id :: id in s.calls ==> s.calls[id] < |s.tasks| && s.tasks[s.calls[id]].request == id)
      && (forall t :: 0 <= t < |s.tasks| && Live(s.tasks[t]) && !s.tasks[t].aborted ==> Entered(s, t))
      && (forall t :: 0 <= t < |s.tasks| && s.tasks[t].kind == ProviderCall ==> !s.tasks[t].aborted)
  }

  /** After an orderly end, everything that still runs has been aborted. */
  predicate EndSound(s: Connection) {
    && (s.status == Closing || s.status == Closed ==>
          forall t :: 0 <= t < |s.tasks| && s.tasks[t].kind != ProviderCall && Live(s.tasks[t]) ==> s.tasks[t].aborted)
    && (s.status == Closed ==> forall t :: 0 <= t < |s.tasks| && Live(s.tasks[t]) ==> s.tasks[t].aborted)
  }

  predicate LiveCall(task: Task) {
    task.kind == ProviderCall && Live(task)
  }

  predicate OneCallPerRequest(s: Connection) {
    forall t, u :: 0 <= t < u < |s.tasks| && LiveCall(s.tasks[t]) && LiveCall(s.tasks[u]) ==>
      s.tasks[t].request != s.tasks[u].request
  }

  predicate InvokesSound(s: Connection) {
    && (forall t :: 0 <= t < |s.tasks| ==> s.tasks[t].invoke < s.invokes)
    && (forall t, u :: 0 <= t < u < |s.tasks| ==> s.tasks[t].invoke < s.tasks[u].invoke)
  }

  predicate OfTaskResponse(s: Connection, i: nat, t: nat)
    requires i < |s.responses|
  {
    && t < |s.tasks| && s.tasks[t].invoke == s.responses[i].invoke && s.tasks[t].responded
    && (s.tasks[t].report == Some(true) <==> i < s.delivered)
  }

  predicate ResponsesSound(s: Connection) {
    && s.delivered <= |s.responses|
    && (forall i :: 0 <= i < |s.responses| ==> s.responses[i].invoke < s.invokes)
    && (forall i, j :: 0 <= i < j < |s.responses| ==> s.responses[i].invoke != s.responses[j].invoke)
    && (forall i :: 0 <= i < |s.responses| && s.responses[i].task.Some? ==> OfTaskResponse(s, i, s.responses[i].task.value))
    && (forall i, t :: 0 <= i < |s.responses| && 0 <= t < |s.tasks| && s.responses[i].task == None ==>
          s.tasks[t].invoke != s.responses[i].invoke)
    && (forall t :: 0 <= t < |s.tasks| && s.tasks[t].responded ==> HasResponse(s, t))
  }

  predicate HasResponse(s: Connection, t: nat) {
    exists i :: 0 <= i < |s.responses| && s.responses[i].task == Some(t)
  }

  function Permits(task: Task): nat { One(HoldsPermit(task)) }

  function Slots(task: Task): nat { One(HoldsSlot(task)) }

  function Uploads(task: Task): nat { One(HoldsUpload(task)) }

  predicate Balanced(s: Connection) {
    && s.permits + Sum(s.tasks, Permits) == MAX_CALLS
    && s.slots + Sum(s.tasks, Slots) == MAX_REJECTIONS
    && s.uploads + s.elsewhere + Sum(s.tasks, Uploads) == TelemetryPipeline.MAX_UPLOADS
  }

  predicate Inv(s: Connection) {
    && TasksSound(s) && TableSound(s) && EndSound(s) && OneCallPerRequest(s) && InvokesSound(s) && ResponsesSound(s)
    && Balanced(s)
  }

  lemma ConnectedInv(elsewhere: nat)
    requires elsewhere <= TelemetryPipeline.MAX_UPLOADS
    ensures Inv(Connected(elsewhere))
  {
  }

  // --- Steps of a task --------------------------------------------------------------------------

  /** What no step of a task changes, and what it never revives. */
  predicate SameTask(x: Task, y: Task) {
    && y.request == x.request && y.invoke == x.invoke && y.kind == x.kind && y.cancelled == x.cancelled
    && y.aborted == x.aborted && y.report == x.report && (Live(y) ==> Live(x)) && (x.responded ==> y.responded)
  }

  lemma TaskMoves(s: Connection, task: Task, a: Action)
    requires OfTask(a) && TaskEnabled(s, task, a) && TaskSound(task, s.Gone())
    ensures SameTask(task, MovedTask(s, task, a)) && TaskSound(MovedTask(s, task, a), s.Gone())
    ensures !a.Respond? || s.Gone() ==> MovedTask(s, task, a).responded == task.responded
  {
  }

  lemma OneTaskMoves(s: Connection, a: Action)
    requires OfTask(a) && Enabled(s, a)
    ensures var r := Step(s, a);
      r == s.(tasks := s.tasks[a.t := MovedTask(s, s.tasks[a.t], a)], permits := r.permits, slots := r.slots,
              uploads := r.uploads, responses := r.responses)
    ensures !a.Respond? || s.Gone() ==> Step(s, a).responses == s.responses
  {
  }

  lemma TaskKeepsTasks(s: Connection, a: Action)
    requires TasksSound(s) && TableSound(s) && EndSound(s) && OneCallPerRequest(s) && InvokesSound(s)
    requires OfTask(a) && Enabled(s, a)
    ensures TasksSound(Step(s, a)) && TableSound(Step(s, a)) && EndSound(Step(s, a))
    ensures OneCallPerRequest(Step(s, a)) && InvokesSound(Step(s, a))
  {
    OneTaskMoves(s, a);
    TaskMoves(s, s.tasks[a.t], a);
    SetTaskKeepsTasks(s, Step(s, a), a.t);
  }

  lemma SetTaskKeepsTasks(s: Connection, r: Connection, t: nat)
    requires TasksSound(s) && TableSound(s) && EndSound(s) && OneCallPerRequest(s) && InvokesSound(s)
    requires t < |s.tasks| && |r.tasks| == |s.tasks| && r.tasks == s.tasks[t := r.tasks[t]]
    requires SameTask(s.tasks[t], r.tasks[t]) && TaskSound(r.tasks[t], s.Gone())
    requires r.status == s.status && r.calls == s.calls && r.invokes == s.invokes
    ensures TasksSound(r) && TableSound(r) && EndSound(r) && OneCallPerRequest(r) && InvokesSound(r)
  {
    assert forall u :: 0 <= u < |s.tasks| ==> SameTask(s.tasks[u], r.tasks[u]);
  }

  lemma TaskKeepsResponses(s: Connection, a: Action)
    requires TasksSound(s) && ResponsesSound(s) && InvokesSound(s)
    requires OfTask(a) && Enabled(s, a)
    ensures ResponsesSound(Step(s, a))
  {
    OneTaskMoves(s, a);
    TaskMoves(s, s.tasks[a.t], a);
    if a.Respond? && !s.Gone() {
      RespondKeepsResponses(s, a.t);
    } else {
      SetTaskKeepsResponses(s, Step(s, a), a.t);
    }
  }

  lemma SetTaskKeepsResponses(s: Connection, r: Connection, t: nat)
    requires ResponsesSound(s) && t < |s.tasks| && |r.tasks| == |s.tasks| && r.tasks == s.tasks[t := r.tasks[t]]
    requires SameTask(s.tasks[t], r.tasks[t]) && r.tasks[t].responded == s.tasks[t].responded
    requires r.responses == s.responses && r.delivered == s.delivered && r.invokes == s.invokes
    ensures ResponsesSound(r)
  {
    assert forall u :: HasResponse(r, u) == HasResponse(s, u);
    assert forall u :: 0 <= u < |s.tasks| ==> SameTask(s.tasks[u], r.tasks[u]);
  }

  /** The response of a task is its first. */
  lemma NoResponseYet(s: Connection, t: nat)
    requires ResponsesSound(s) && InvokesSound(s) && t < |s.tasks| && !s.tasks[t].responded
    ensures forall i :: 0 <= i < |s.responses| ==> s.responses[i].invoke != s.tasks[t].invoke
  {
    forall i | 0 <= i < |s.responses|
      ensures s.responses[i].invoke != s.tasks[t].invoke
    {
      if s.responses[i].task.Some? {
        var u := s.responses[i].task.value;
        assert OfTaskResponse(s, i, u);
        assert u != t;
        if u < t { assert s.tasks[u].invoke < s.tasks[t].invoke; } else { assert s.tasks[t].invoke < s.tasks[u].invoke; }
      }
    }
  }

  lemma RespondKeepsResponses(s: Connection, t: nat)
    requires TasksSound(s) && ResponsesSound(s) && InvokesSound(s)
    requires Enabled(s, Respond(t)) && !s.Gone()
    ensures ResponsesSound(Step(s, Respond(t)))
  {
    var r := Step(s, Respond(t));
    assert TaskSound(s.tasks[t], s.Gone());
    NoResponseYet(s, t);
    assert r.responses[|s.responses|].task == Some(t);
    forall u | 0 <= u < |r.tasks| && r.tasks[u].responded
      ensures HasResponse(r, u)
    {
      if u != t {
        assert HasResponse(s, u);
        var i :| 0 <= i < |s.responses| && s.responses[i].task == Some(u);
        assert r.responses[i].task == Some(u);
      }
    }
    forall i | 0 <= i < |r.responses| && r.responses[i].task.Some?
      ensures OfTaskResponse(r, i, r.responses[i].task.value)
    {
      if i < |s.responses| { assert OfTaskResponse(s, i, s.responses[i].task.value); }
    }
    assert forall i :: 0 <= i < |s.responses| ==> r.responses[i] == s.responses[i];
    forall u | 0 <= u < |r.tasks|
      ensures r.tasks[u].invoke == s.tasks[u].invoke
    {
    }
  }

  lemma TaskKeepsBalance(s: Connection, a: Action)
    requires TasksSound(s) && Balanced(s)
    requires OfTask(a) && Enabled(s, a)
    ensures Balanced(Step(s, a))
  {
    OneTaskMoves(s, a);
    assert TaskSound(s.tasks[a.t], s.Gone());
    SetTaskSums(s.tasks, a.t, MovedTask(s, s.tasks[a.t], a));
    HoldingsMove(s, a);
  }

  /** What a step puts back or takes is what its task holds less or more. */
  lemma HoldingsMove(s: Connection, a: Action)
    requires OfTask(a) && Enabled(s, a) && TaskSound(s.tasks[a.t], s.Gone())
    ensures var r := Step(s, a); var x := s.tasks[a.t]; var y := MovedTask(s, x, a);
      && r.permits + Permits(y) == s.permits + Permits(x) && r.slots + Slots(y) == s.slots + Slots(x)
      && r.uploads + Uploads(y) == s.uploads + Uploads(x) && r.elsewhere == s.elsewhere
  {
  }

  lemma SetTaskSums(tasks: seq<Task>, t: nat, task: Task)
    requires t < |tasks|
    ensures Sum(tasks[t := task], Permits) + Permits(tasks[t]) == Sum(tasks, Permits) + Permits(task)
    ensures Sum(tasks[t := task], Slots) + Slots(tasks[t]) == Sum(tasks, Slots) + Slots(task)
    ensures Sum(tasks[t := task], Uploads) + Uploads(tasks[t]) == Sum(tasks, Uploads) + Uploads(task)
  {
    SumUpdate(tasks, t, task, Permits);
    SumUpdate(tasks, t, task, Slots);
    SumUpdate(tasks, t, task, Uploads);
  }

  // --- Steps of the loop ------------------------------------------------------------------------

  /** A new task for an invocation that found its request id free. */
  predicate Spawns(s: Connection, r: Connection, task: Task) {
    && s.status == Open && task.request !in s.calls
    && task == NewTask(task.request, s.invokes, task.kind, task.phase)
    && (if task.kind == ProviderCall then task.phase == Calling else task.phase.Responding?)
    && r == Spawn(s.(atTop := true, invokes := s.invokes + 1, permits := r.permits, slots := r.slots), task)
  }

  lemma SpawnKeepsTable(s: Connection, r: Connection, task: Task)
    requires TableSound(s) && Spawns(s, r, task)
    ensures TableSound(r)
  {
    assert forall t :: 0 <= t < |s.tasks| ==> r.tasks[t] == s.tasks[t];
    forall t | 0 <= t < |r.tasks| && Live(r.tasks[t]) && !r.tasks[t].aborted
      ensures Entered(r, t)
    {
      assert t < |s.tasks| ==> Entered(s, t);
    }
  }

  lemma SpawnKeepsCalls(s: Connection, r: Connection, task: Task)
    requires TableSound(s) && OneCallPerRequest(s) && Spawns(s, r, task)
    ensures OneCallPerRequest(r)
  {
    assert forall t :: 0 <= t < |s.tasks| ==> r.tasks[t] == s.tasks[t];
    forall t | 0 <= t < |s.tasks| && LiveCall(s.tasks[t])
      ensures s.tasks[t].request != task.request
    {
      assert Entered(s, t);
    }
  }

  lemma SpawnKeepsTasks(s: Connection, r: Connection, task: Task)
    requires TasksSound(s) && EndSound(s) && InvokesSound(s) && Spawns(s, r, task)
    ensures TasksSound(r) && EndSound(r) && InvokesSound(r)
  {
    assert forall t :: 0 <= t < |s.tasks| ==> r.tasks[t] == s.tasks[t];
    assert TaskSound(task, false);
  }

  lemma SpawnKeepsResponses(s: Connection, r: Connection, task: Task)
    requires Inv(s) && task.invoke == s.invokes && !task.responded
    requires r == Spawn(s.(atTop := true, invokes := s.invokes + 1, permits := r.permits, slots := r.slots), task)
    ensures ResponsesSound(r)
  {
    assert forall t :: 0 <= t < |s.tasks| ==> r.tasks[t] == s.tasks[t];
    assert forall t :: 0 <= t < |s.tasks| ==> HasResponse(r, t) == HasResponse(s, t);
    assert forall i :: 0 <= i < |s.responses| && s.responses[i].task.Some? ==>
      OfTaskResponse(s, i, s.responses[i].task.value);
  }

  lemma SpawnSums(s: Connection, task: Task)
    ensures Sum(s.tasks + [task], Permits) == Sum(s.tasks, Permits) + Permits(task)
    ensures Sum(s.tasks + [task], Slots) == Sum(s.tasks, Slots) + Slots(task)
    ensures Sum(s.tasks + [task], Uploads) == Sum(s.tasks, Uploads) + Uploads(task)
  {
    SumAppend(s.tasks, task, Permits);
    SumAppend(s.tasks, task, Slots);
    SumAppend(s.tasks, task, Uploads);
  }

  lemma BestEffortKeepsResponses(s: Connection, answer: Answer)
    requires InvokesSound(s) && ResponsesSound(s)
    ensures ResponsesSound(BestEffort(s.(atTop := true, invokes := s.invokes + 1), s.invokes, answer))
  {
    var r := BestEffort(s.(atTop := true, invokes := s.invokes + 1), s.invokes, answer);
    assert forall i :: 0 <= i < |s.responses| ==> r.responses[i] == s.responses[i];
    assert forall i :: 0 <= i < |s.responses| && s.responses[i].task.Some? ==>
      OfTaskResponse(s, i, s.responses[i].task.value);
    forall t | 0 <= t < |s.tasks| && s.tasks[t].responded
      ensures HasResponse(r, t)
    {
      assert HasResponse(s, t);
      var i :| 0 <= i < |s.responses| && s.responses[i].task == Some(t);
      assert r.responses[i].task == Some(t);
    }
  }

  lemma BestEffortKeepsInv(s: Connection, answer: Answer)
    requires Inv(s) && s.status == Open
    ensures Inv(BestEffort(s.(atTop := true, invokes := s.invokes + 1), s.invokes, answer))
  {
    BestEffortKeepsResponses(s, answer);
    SteadyKeepsTable(s, BestEffort(s.(atTop := true, invokes := s.invokes + 1), s.invokes, answer));
  }

  /** Nothing about a task that the table depends on changes. */
  predicate Steady(x: Task, y: Task) {
    y.request == x.request && y.invoke == x.invoke && y.kind == x.kind && y.aborted == x.aborted && y.phase == x.phase
  }

  lemma SteadyKeepsTable(s: Connection, r: Connection)
    requires TableSound(s) && EndSound(s) && OneCallPerRequest(s) && InvokesSound(s)
    requires |r.tasks| == |s.tasks| && forall t :: 0 <= t < |s.tasks| ==> Steady(s.tasks[t], r.tasks[t])
    requires r.calls == s.calls && s.invokes <= r.invokes && (r.status == s.status || r.status == Broken)
    ensures TableSound(r) && EndSound(r) && OneCallPerRequest(r) && InvokesSound(r)
  {
    if r.status == Open {
      forall t | 0 <= t < |r.tasks| && Live(r.tasks[t]) && !r.tasks[t].aborted
        ensures Entered(r, t)
      {
        assert Steady(s.tasks[t], r.tasks[t]) && Entered(s, t);
      }
    }
  }

  lemma SpawnKeepsInv(s: Connection, r: Connection, task: Task)
    requires Inv(s) && Spawns(s, r, task)
    requires r.permits + Permits(task) == s.permits && r.slots + Slots(task) == s.slots
    ensures Inv(r)
  {
    SpawnKeepsTable(s, r, task);
    SpawnKeepsCalls(s, r, task);
    SpawnKeepsTasks(s, r, task);
    SpawnKeepsResponses(s, r, task);
    SpawnSums(s, task);
  }

  /** The task that an admission starts, if it starts one. */
  lemma AdmitSpawns(s: Connection, id: RequestId, connected: bool) returns (task: Task)
    requires s.status == Open && id !in s.calls && (s.permits > 0 || s.slots > 0)
    ensures var r := Admit(s, id, connected);
      Spawns(s, r, task) && r.permits + Permits(task) == s.permits && r.slots + Slots(task) == s.slots
  {
    task := if s.permits == 0 then NewTask(id, s.invokes, Rejected, Responding(Backpressure))
            else if connected then NewTask(id, s.invokes, ProviderCall, Calling)
            else NewTask(id, s.invokes, Unavailable, Responding(NotConnected));
  }

  lemma AdmitKeepsInv(s: Connection, id: RequestId, connected: bool)
    requires Inv(s) && s.status == Open
    ensures Inv(Admit(s, id, connected))
  {
    if id in s.calls {
      BestEffortKeepsInv(s, DuplicateRequest);
    } else if s.permits == 0 && s.slots == 0 {
      BestEffortKeepsInv(s, Backpressure);
    } else {
      var task := AdmitSpawns(s, id, connected);
      SpawnKeepsInv(s, Admit(s, id, connected), task);
    }
  }

  /** Only flags of one task change: what it holds and what it answered stays. */
  predicate Flagged(x: Task, y: Task) {
    && y == x.(cancelled := y.cancelled, aborted := y.aborted)
    && (x.cancelled ==> y.cancelled) && (x.aborted ==> y.aborted)
  }

  predicate AllFlagged(s: Connection, r: Connection) {
    && r == s.(tasks := r.tasks, calls := r.calls, status := r.status, atTop := r.atTop, activities := r.activities)
    && |r.tasks| == |s.tasks|
    && (forall t :: 0 <= t < |s.tasks| ==> Flagged(s.tasks[t], r.tasks[t]))
  }

  lemma FlaggingKeepsRest(s: Connection, r: Connection)
    requires Inv(s) && AllFlagged(s, r) && (s.Gone() ==> r.Gone())
    ensures TasksSound(r) && OneCallPerRequest(r) && InvokesSound(r) && Balanced(r)
  {
    SameSums(s.tasks, r.tasks);
    assert forall t :: 0 <= t < |s.tasks| ==> Flagged(s.tasks[t], r.tasks[t]);
    assert forall t :: 0 <= t < |s.tasks| ==> TaskSound(s.tasks[t], s.Gone());
  }

  lemma FlaggingKeepsResponses(s: Connection, r: Connection)
    requires ResponsesSound(s) && AllFlagged(s, r)
    ensures ResponsesSound(r)
  {
    assert forall t :: 0 <= t < |s.tasks| ==> Flagged(s.tasks[t], r.tasks[t]);
    assert forall t :: HasResponse(r, t) == HasResponse(s, t);
    assert forall i :: 0 <= i < |s.responses| && s.responses[i].task.Some? ==>
      OfTaskResponse(s, i, s.responses[i].task.value);
  }

  lemma {:induction false} SameSums(a: seq<Task>, b: seq<Task>)
    requires |a| == |b| && forall t :: 0 <= t < |a| ==> Flagged(a[t], b[t])
    ensures Sum(a, Permits) == Sum(b, Permits) && Sum(a, Slots) == Sum(b, Slots) && Sum(a, Uploads) == Sum(b, Uploads)
  {
    if a != [] { SameSums(a[..|a| - 1], b[..|b| - 1]); }
  }

  lemma CancelFlags(s: Connection, id: RequestId)
    ensures AllFlagged(s, CancelCall(s, id))
  {
  }

  lemma CancelKeepsTable(s: Connection, id: RequestId)
    requires TableSound(s) && EndSound(s)
    requires s.status == Open
    ensures TableSound(CancelCall(s, id)) && EndSound(CancelCall(s, id))
  {
    var r := CancelCall(s, id);
    CancelFlags(s, id);
    forall t | 0 <= t < |r.tasks| && Live(r.tasks[t]) && !r.tasks[t].aborted
      ensures Entered(r, t)
    {
      assert Flagged(s.tasks[t], r.tasks[t]) && Entered(s, t);
    }
  }

  lemma ReapKeepsTable(s: Connection)
    requires TableSound(s) && EndSound(s)
    requires Enabled(s, Reap)
    ensures TableSound(Step(s, Reap)) && EndSound(Step(s, Reap)) && AllFlagged(s, Step(s, Reap))
  {
    var r := Step(s, Reap);
    forall t | 0 <= t < |r.tasks| && Live(r.tasks[t]) && !r.tasks[t].aborted
      ensures Entered(r, t)
    {
      assert Entered(s, t);
    }
  }

  lemma StopKeepsTable(s: Connection)
    requires TableSound(s) && EndSound(s)
    requires Enabled(s, Stop)
    ensures TableSound(Step(s, Stop)) && EndSound(Step(s, Stop)) && AllFlagged(s, Step(s, Stop))
  {
    var r := Step(s, Stop);
    forall t | 0 <= t < |r.tasks| && r.tasks[t].kind != ProviderCall && Live(r.tasks[t])
      ensures r.tasks[t].aborted
    {
      assert s.tasks[t].aborted || Entered(s, t);
    }
  }

  lemma PlainLoopKeepsTable(s: Connection, a: Action)
    requires TableSound(s) && EndSound(s)
    requires Enabled(s, a) && (a.OtherEvent? || a.TransmitActivity? || a.Fail? || a.GiveUp? || a.Close?)
    ensures TableSound(Step(s, a)) && EndSound(Step(s, a)) && AllFlagged(s, Step(s, a))
  {
    var r := Step(s, a);
    assert forall t :: 0 <= t < |r.tasks| ==> Entered(r, t) == Entered(s, t);
  }

  lemma TransmitKeepsInv(s: Connection, ok: bool)
    requires Inv(s) && Enabled(s, Transmit(ok))
    ensures Inv(Step(s, Transmit(ok)))
  {
    TransmitKeepsTasks(s, ok);
    TransmitKeepsTable(s, ok);
    TransmitKeepsResponses(s, ok);
    TransmitKeepsBalance(s, ok);
  }

  lemma TransmitKeepsBalance(s: Connection, ok: bool)
    requires Balanced(s) && Enabled(s, Transmit(ok))
    ensures Balanced(Step(s, Transmit(ok)))
  {
    var task := s.responses[s.delivered].task;
    if task.Some? && task.value < |s.tasks| {
      SetTaskSums(s.tasks, task.value, s.tasks[task.value].(report := Some(ok)));
    }
  }

  predicate Informed(x: Task, y: Task) {
    y == x.(report := y.report) && (y.report.Some? ==> x.responded)
  }

  lemma TransmitInforms(s: Connection, ok: bool)
    requires Inv(s) && Enabled(s, Transmit(ok))
    ensures var r := Step(s, Transmit(ok));
      |r.tasks| == |s.tasks| && forall t :: 0 <= t < |s.tasks| ==> Informed(s.tasks[t], r.tasks[t])
  {
    var next := s.responses[s.delivered];
    assert forall t :: 0 <= t < |s.tasks| ==> TaskSound(s.tasks[t], s.Gone());
    if next.task.Some? { assert OfTaskResponse(s, s.delivered, next.task.value); }
  }

  lemma TransmitKeepsTasks(s: Connection, ok: bool)
    requires Inv(s) && Enabled(s, Transmit(ok))
    ensures TasksSound(Step(s, Transmit(ok)))
  {
    var r := Step(s, Transmit(ok));
    TransmitInforms(s, ok);
    forall t | 0 <= t < |r.tasks|
      ensures TaskSound(r.tasks[t], r.Gone())
    {
      assert TaskSound(s.tasks[t], s.Gone()) && Informed(s.tasks[t], r.tasks[t]);
    }
  }

  lemma TransmitKeepsTable(s: Connection, ok: bool)
    requires Inv(s) && Enabled(s, Transmit(ok))
    ensures var r := Step(s, Transmit(ok)); TableSound(r) && EndSound(r) && OneCallPerRequest(r) && InvokesSound(r)
  {
    var r := Step(s, Transmit(ok));
    TransmitInforms(s, ok);
    forall t | 0 <= t < |s.tasks|
      ensures Steady(s.tasks[t], r.tasks[t])
    {
      assert Informed(s.tasks[t], r.tasks[t]);
    }
    SteadyKeepsTable(s, r);
  }

  lemma TransmitKeepsReports(s: Connection, ok: bool, i: nat)
    requires Inv(s) && Enabled(s, Transmit(ok)) && i < |s.responses| && s.responses[i].task.Some?
    ensures OfTaskResponse(Step(s, Transmit(ok)), i, s.responses[i].task.value)
  {
    var next := s.responses[s.delivered];
    assert OfTaskResponse(s, i, s.responses[i].task.value);
    if i != s.delivered && next.task.Some? {
      assert OfTaskResponse(s, s.delivered, next.task.value);
      assert next.task != s.responses[i].task;
    }
  }

  lemma TransmitKeepsResponses(s: Connection, ok: bool)
    requires Inv(s) && Enabled(s, Transmit(ok))
    ensures ResponsesSound(Step(s, Transmit(ok)))
  {
    var r := Step(s, Transmit(ok));
    TransmitInforms(s, ok);
    assert forall t :: 0 <= t < |s.tasks| ==> Informed(s.tasks[t], r.tasks[t]);
    assert r.responses == s.responses && s.delivered <= r.delivered <= |r.responses|;
    assert forall t :: HasResponse(r, t) == HasResponse(s, t);
    forall i | 0 <= i < |s.responses| && s.responses[i].task.Some?
      ensures OfTaskResponse(r, i, s.responses[i].task.value)
    {
      TransmitKeepsReports(s, ok, i);
    }
  }

  /** Every step keeps the invariant. */
  lemma StepKeepsInv(s: Connection, a: Action)
    requires Inv(s) && Enabled(s, a)
    ensures Inv(Step(s, a))
  {
    if OfTask(a) {
      TaskKeepsTasks(s, a);
      TaskKeepsResponses(s, a);
      TaskKeepsBalance(s, a);
    } else if a.Invoke? {
      AdmitKeepsInv(s, a.id, a.connected);
    } else if a.Transmit? {
      TransmitKeepsInv(s, a.ok);
    } else if OfLoop(a) {
      if a.Cancel? { CancelFlags(s, a.id); CancelKeepsTable(s, a.id); }
      else if a.Reap? { ReapKeepsTable(s); }
      else if a.Stop? { StopKeepsTable(s); }
      else { PlainLoopKeepsTable(s, a); }
      FlaggingKeepsRest(s, Step(s, a));
      FlaggingKeepsResponses(s, Step(s, a));
    } else {
      AsideKeepsInv(s, Step(s, a));
    }
  }

  lemma ResponsesAside(s: Connection, r: Connection)
    requires ResponsesSound(s) && r.tasks == s.tasks && r.responses == s.responses
    requires r.delivered == s.delivered && r.invokes == s.invokes
    ensures ResponsesSound(r)
  {
    assert forall t :: HasResponse(r, t) == HasResponse(s, t);
    assert forall i :: 0 <= i < |s.responses| && s.responses[i].task.Some? ==>
      OfTaskResponse(s, i, s.responses[i].task.value);
  }

  /** Nothing changes but what other users of the permits and of the queue have. */
  lemma AsideKeepsInv(s: Connection, r: Connection)
    requires Inv(s) && r == s.(uploads := r.uploads, elsewhere := r.elsewhere, activities := r.activities)
    requires r.uploads + r.elsewhere == s.uploads + s.elsewhere
    ensures Inv(r)
  {
    SteadyKeepsTable(s, r);
    ResponsesAside(s, r);
  }

  lemma {:induction false} RunKeepsInv(states: seq<Connection>, actions: seq<Action>, k: nat)
    requires IsRun(states, actions) && k < |states|
    ensures Inv(states[k])
  {
    if k == 0 {
      ConnectedInv(states[0].elsewhere);
    } else {
      RunKeepsInv(states, actions, k - 1);
      StepKeepsInv(states[k - 1], actions[k - 1]);
    }
  }
}

/** Which answer an invocation gets, in every run of a connection. */
module AdmissionAnswers {
  import opened Outcomes
  import opened Admission
  import opened AdmissionSafety
  import opened AdmissionTheorems

  // --- What the providers returned --------------------------------------------------------------

  /** The results that the provider of task `t` returned before step `k`. */
  function ResultsOf(actions: seq<Action>, k: nat, t: nat): seq<Answer>
    requires k <= |actions|
  {
    if k == 0 then []
    else
      var a := actions[k - 1];
      ResultsOf(actions, k - 1, t) + (if a.Return? && a.t == t then [a.result] else [])
  }

  /** The answer that a task of this kind owes, given what its provider returned. */
  predicate Owed(kind: Kind, results: seq<Answer>, answer: Answer) {
    match kind
    case ProviderCall => results == [answer]
    case Unavailable => answer == NotConnected
    case Rejected => answer == Backpressure
  }

  predicate TaskTrue(task: Task, results: seq<Answer>) {
    && (task.phase == Calling ==> results == [])
    && (task.phase.HasResult? ==> task.kind == ProviderCall && results == [task.phase.result])
    && (task.phase.Responding? ==> Owed(task.kind, results, task.phase.answer))
  }

  predicate ResponseTrue(s: Connection, actions: seq<Action>, k: nat, i: nat)
    requires k <= |actions| && i < |s.responses|
  {
    var t := s.responses[i].task;
    t.Some? ==> t.value < |s.tasks| && Owed(s.tasks[t.value].kind, ResultsOf(actions, k, t.value), s.responses[i].answer)
  }

  ghost predicate AnswersTrue(s: Connection, actions: seq<Action>, k: nat)
    requires k <= |actions|
  {
    && (forall t :: 0 <= t < |s.tasks| ==> TaskTrue(s.tasks[t], ResultsOf(actions, k, t)))
    && (forall t :: t >= |s.tasks| ==> ResultsOf(actions, k, t) == [])
    && (forall i :: 0 <= i < |s.responses| ==> ResponseTrue(s, actions, k, i))
    && (forall i :: 0 <= i < |s.responses| && s.responses[i].task.Some? ==> OfTaskResponse(s, i, s.responses[i].task.value))
  }

  // --- One step ---------------------------------------------------------------------------------

  /** What a step that is not the task's own leaves as it is. */
  predicate SameAnswer(x: Task, y: Task) {
    y.kind == x.kind && y.phase == x.phase && y.request == x.request && y.invoke == x.invoke
  }

  lemma OwnMoveIsTrue(s: Connection, task: Task, a: Action, results: seq<Answer>)
    requires OfTask(a) && TaskEnabled(s, task, a) && TaskTrue(task, results) && TaskSound(task, s.Gone())
    ensures TaskTrue(MovedTask(s, task, a), results + (if a.Return? then [a.result] else []))
    ensures MovedTask(s, task, a).kind == task.kind
    ensures task.responded ==> !a.Return?
  {
  }

  lemma OthersKeepPhase(s: Connection, a: Action, t: nat)
    requires Inv(s) && Enabled(s, a) && t < |s.tasks| && !(OfTask(a) && a.t == t)
    ensures t < |Step(s, a).tasks| && SameAnswer(s.tasks[t], Step(s, a).tasks[t])
  {
    if OfTask(a) { OneTaskMoves(s, a); } else if OfLoop(a) { LoopLeavesTask(s, a, t); }
  }

  lemma NewTaskIsTrue(s: Connection, a: Action, r: Connection)
    requires Enabled(s, a) && r == Step(s, a)
    ensures |s.tasks| <= |r.tasks| <= |s.tasks| + 1
    ensures |r.tasks| > |s.tasks| ==> a.Invoke? && TaskTrue(r.tasks[|s.tasks|], [])
  {
    if OfTask(a) {
      OneTaskMoves(s, a);
    } else if a.Invoke? {
      AdmittedIsTrue(s, a.id, a.connected);
    }
  }

  lemma AdmittedIsTrue(s: Connection, id: RequestId, connected: bool)
    ensures var r := Admit(s, id, connected);
      |s.tasks| <= |r.tasks| <= |s.tasks| + 1 && (|r.tasks| > |s.tasks| ==> TaskTrue(r.tasks[|s.tasks|], []))
  {
  }

  /** An invocation that is turned away without a task. */
  predicate TurnsAway(s: Connection, a: Action) {
    a.Invoke? && (a.id in s.calls || (s.permits == 0 && s.slots == 0))
  }

  function Refusal(s: Connection, id: RequestId): Answer {
    if id in s.calls then DuplicateRequest else Backpressure
  }

  /** A step queues at most one response: the answer that a task waits to give, or a refusal. */
  lemma ResponsesGrow(s: Connection, a: Action, r: Connection)
    requires Enabled(s, a) && r == Step(s, a)
    ensures r.responses
         == if a.Respond? && !s.Gone() then
              s.responses + [Response(s.tasks[a.t].invoke, s.tasks[a.t].phase.answer, Some(a.t))]
            else if TurnsAway(s, a) && s.HasRoom() then s.responses + [Response(s.invokes, Refusal(s, a.id), None)]
            else s.responses
  {
    if OfTask(a) { OneTaskMoves(s, a); }
  }

  lemma TaskStaysTrue(s: Connection, a: Action, r: Connection, actions: seq<Action>, k: nat, t: nat)
    requires 0 < k <= |actions| && a == actions[k - 1]
    requires Inv(s) && Enabled(s, a) && r == Step(s, a) && AnswersTrue(s, actions, k - 1) && t < |r.tasks|
    ensures TaskTrue(r.tasks[t], ResultsOf(actions, k, t))
  {
    assert t < |s.tasks| ==> TaskTrue(s.tasks[t], ResultsOf(actions, k - 1, t));
    OneStepIsTrue(s, a, r, t, ResultsOf(actions, k - 1, t));
  }

  lemma OneStepIsTrue(s: Connection, a: Action, r: Connection, t: nat, results: seq<Answer>)
    requires Inv(s) && Enabled(s, a) && r == Step(s, a) && t < |r.tasks|
    requires if t < |s.tasks| then TaskTrue(s.tasks[t], results) else results == []
    ensures TaskTrue(r.tasks[t], results + (if a.Return? && a.t == t then [a.result] else []))
  {
    if t >= |s.tasks| {
      NewTaskIsTrue(s, a, r);
    } else if OfTask(a) && a.t == t {
      OwnStepIsTrue(s, a, r, results);
    } else {
      OthersKeepPhase(s, a, t);
    }
  }

  lemma OwnStepIsTrue(s: Connection, a: Action, r: Connection, results: seq<Answer>)
    requires TasksSound(s) && OfTask(a) && Enabled(s, a) && r == Step(s, a) && TaskTrue(s.tasks[a.t], results)
    ensures a.t < |r.tasks| && TaskTrue(r.tasks[a.t], results + (if a.Return? then [a.result] else []))
  {
    assert TaskSound(s.tasks[a.t], s.Gone());
    OneTaskMoves(s, a);
    OwnMoveIsTrue(s, s.tasks[a.t], a, results);
  }

  lemma ResponseStaysTrue(s: Connection, a: Action, r: Connection, actions: seq<Action>, k: nat, i: nat)
    requires 0 < k <= |actions| && a == actions[k - 1]
    requires Inv(s) && Enabled(s, a) && r == Step(s, a) && AnswersTrue(s, actions, k - 1) && i < |r.responses|
    ensures ResponseTrue(r, actions, k, i)
  {
    ResponsesGrow(s, a, r);
    if r.responses[i].task.Some? {
      var t := r.responses[i].task.value;
      if i < |s.responses| {
        assert ResponseTrue(s, actions, k - 1, i) && OfTaskResponse(s, i, t);
        AnsweredTaskIsDone(s, a, r, t);
      } else {
        OneTaskMoves(s, a);
        assert TaskTrue(s.tasks[t], ResultsOf(actions, k - 1, t));
      }
    }
  }

  lemma AnsweredTaskIsDone(s: Connection, a: Action, r: Connection, t: nat)
    requires Inv(s) && Enabled(s, a) && r == Step(s, a) && t < |s.tasks| && s.tasks[t].responded
    ensures t < |r.tasks| && r.tasks[t].kind == s.tasks[t].kind
    ensures a.Return? ==> a.t != t
  {
    assert TaskSound(s.tasks[t], s.Gone());
    KindIsKept(s, a, t);
  }

  lemma StepStaysTrue(s: Connection, a: Action, r: Connection, actions: seq<Action>, k: nat)
    requires 0 < k <= |actions| && a == actions[k - 1]
    requires Inv(s) && Enabled(s, a) && r == Step(s, a) && Inv(r) && AnswersTrue(s, actions, k - 1)
    ensures AnswersTrue(r, actions, k)
  {
    NewTaskIsTrue(s, a, r);
    forall t | 0 <= t < |r.tasks|
      ensures TaskTrue(r.tasks[t], ResultsOf(actions, k, t))
    {
      TaskStaysTrue(s, a, r, actions, k, t);
    }
    forall i | 0 <= i < |r.responses|
      ensures ResponseTrue(r, actions, k, i)
    {
      ResponseStaysTrue(s, a, r, actions, k, i);
    }
  }

  // --- Every run --------------------------------------------------------------------------------

  lemma {:induction false} RunStaysTrue(states: seq<Connection>, actions: seq<Action>, k: nat)
    requires IsRun(states, actions) && k < |states|
    ensures AnswersTrue(states[k], actions, k)
  {
    if k > 0 {
      RunStaysTrue(states, actions, k - 1);
      RunKeepsInv(states, actions, k - 1);
      RunKeepsInv(states, actions, k);
      StepStaysTrue(states[k - 1], actions[k - 1], states[k], actions, k);
    }
  }

  /** The response of a provider call is the one result that its provider returned; a task without a provider
      answers that it is not connected, and a rejected one that the gateway is busy. */
  lemma TasksAnswerTruly(states: seq<Connection>, actions: seq<Action>, k: nat, i: nat)
    requires IsRun(states, actions) && k < |states|
    requires i < |states[k].responses| && states[k].responses[i].task.Some?
    ensures var response := states[k].responses[i]; var t := response.task.value;
      t < |states[k].tasks| && states[k].tasks[t].invoke == response.invoke
      && (states[k].tasks[t].kind == ProviderCall ==> ResultsOf(actions, k, t) == [response.answer])
      && (states[k].tasks[t].kind == Unavailable ==> response.answer == NotConnected)
      && (states[k].tasks[t].kind == Rejected ==> response.answer == Backpressure)
  {
    RunStaysTrue(states, actions, k);
    var s := states[k];
    assert ResponseTrue(s, actions, k, i) && OfTaskResponse(s, i, s.responses[i].task.value);
  }

  predicate Refuses(s: Connection, a: Action, response: Response) {
    TurnsAway(s, a) && s.invokes == response.invoke && response.answer == Refusal(s, a.id)
  }

  /** At some step before `k` the invocation of this response was turned away. */
  predicate Refused(states: seq<Connection>, actions: seq<Action>, k: nat, response: Response)
    requires k <= |actions| <= |states|
  {
    k > 0 && (Refuses(states[k - 1], actions[k - 1], response) || Refused(states, actions, k - 1, response))
  }

  /** A response without a task refuses an invocation: as a duplicate exactly if the request id was in the table
      when the invocation arrived, and otherwise because no permit and no rejection slot were free. */
  lemma {:induction false} RefusalsAreTrue(states: seq<Connection>, actions: seq<Action>, k: nat, i: nat)
    requires IsRun(states, actions) && k < |states|
    requires i < |states[k].responses| && states[k].responses[i].task == None
    ensures Refused(states, actions, k, states[k].responses[i])
  {
    ResponsesGrow(states[k - 1], actions[k - 1], states[k]);
    if i < |states[k - 1].responses| { RefusalsAreTrue(states, actions, k - 1, i); }
  }

  /** And every invocation that is turned away without a task is refused so, if the queue has room. */
  lemma TurnedAwayIsRefused(states: seq<Connection>, actions: seq<Action>, k: nat)
    requires IsRun(states, actions) && k < |actions| && actions[k].Invoke?
    requires actions[k].id in states[k].calls || (states[k].permits == 0 && states[k].slots == 0)
    ensures states[k + 1].tasks == states[k].tasks
    ensures states[k + 1].responses
         == if states[k].HasRoom() then
              states[k].responses
              + [Response(states[k].invokes, if actions[k].id in states[k].calls then DuplicateRequest else Backpressure, None)]
            else states[k].responses
  {
    ResponsesGrow(states[k], actions[k], states[k + 1]);
  }

  /** The step starts task `t`: an invocation under a free request id, which found no permit, or found one and no
      provider, or found both. */
  predicate Starts(s: Connection, a: Action, t: nat, request: RequestId, invoke: nat, kind: Kind) {
    && a.Invoke? && |s.tasks| == t && s.invokes == invoke && a.id == request && a.id !in s.calls
    && kind == (if s.permits == 0 then Rejected else if a.connected then ProviderCall else Unavailable)
  }

  predicate Started(states: seq<Connection>, actions: seq<Action>, k: nat, t: nat, request: RequestId, invoke: nat, kind: Kind)
    requires k <= |actions| <= |states|
  {
    k > 0
    && (Starts(states[k - 1], actions[k - 1], t, request, invoke, kind)
        || Started(states, actions, k - 1, t, request, invoke, kind))
  }

  /** Every task was started by the invocation that it answers, and is of the kind that this one found. */
  lemma {:induction false} TasksHaveOrigins(states: seq<Connection>, actions: seq<Action>, k: nat, t: nat)
    requires IsRun(states, actions) && k < |states| && t < |states[k].tasks|
    ensures var task := states[k].tasks[t]; Started(states, actions, k, t, task.request, task.invoke, task.kind)
  {
    RunKeepsInv(states, actions, k - 1);
    OriginStays(states[k - 1], actions[k - 1], states[k], t);
    if t < |states[k - 1].tasks| { TasksHaveOrigins(states, actions, k - 1, t); }
  }

  lemma OriginStays(s: Connection, a: Action, r: Connection, t: nat)
    requires Inv(s) && Enabled(s, a) && r == Step(s, a) && t < |r.tasks|
    ensures var y := r.tasks[t];
      if t < |s.tasks| then
        s.tasks[t].kind == y.kind && s.tasks[t].request == y.request && s.tasks[t].invoke == y.invoke
      else Starts(s, a, t, y.request, y.invoke, y.kind)
  {
    if t < |s.tasks| { KindIsKept(s, a, t); } else { NewTaskFits(s, a, r); }
  }

  lemma KindIsKept(s: Connection, a: Action, t: nat)
    requires Inv(s) && Enabled(s, a) && t < |s.tasks|
    ensures t < |Step(s, a).tasks|
    ensures var x, y := s.tasks[t], Step(s, a).tasks[t]; y.kind == x.kind && y.request == x.request && y.invoke == x.invoke
  {
    if OfTask(a) && a.t == t {
      OneTaskMoves(s, a);
      TaskMoves(s, s.tasks[t], a);
    } else {
      OthersKeepPhase(s, a, t);
    }
  }

  lemma NewTaskFits(s: Connection, a: Action, r: Connection)
    requires Enabled(s, a) && r == Step(s, a) && |s.tasks| < |r.tasks|
    ensures var task := r.tasks[|s.tasks|];
      |r.tasks| == |s.tasks| + 1 && Starts(s, a, |s.tasks|, task.request, task.invoke, task.kind)
  {
    NewTaskIsTrue(s, a, r);
  }

  // --- Cancellations have causes ----------------------------------------------------------------

  /** Nothing has told the task to stop, and the loop has not ended in order. */
  predicate Undisturbed(s: Connection, t: nat, request: RequestId, invoke: nat) {
    && t < |s.tasks| && s.tasks[t].request == request && s.tasks[t].invoke == invoke
    && !s.tasks[t].cancelled && !s.tasks[t].aborted && (s.status == Open || s.status == Broken)
  }

  lemma LoopDisturbsByCause(s: Connection, a: Action, t: nat, request: RequestId, invoke: nat)
    requires TableSound(s) && OfLoop(a) && Enabled(s, a) && Undisturbed(s, t, request, invoke)
    requires a != Cancel(request) && a != Stop
    ensures Undisturbed(Step(s, a), t, request, invoke)
  {
  }

  lemma TaskDisturbsNothing(s: Connection, a: Action, t: nat, request: RequestId, invoke: nat)
    requires OfTask(a) && Enabled(s, a) && Undisturbed(s, t, request, invoke)
    ensures Undisturbed(Step(s, a), t, request, invoke)
  {
    OneTaskMoves(s, a);
    FlagsOfMove(s, s.tasks[a.t], a);
  }

  lemma StepDisturbsByCause(s: Connection, a: Action, r: Connection, t: nat, request: RequestId, invoke: nat)
    requires Inv(s) && Enabled(s, a) && r == Step(s, a) && Undisturbed(s, t, request, invoke)
    requires a != Cancel(request) && a != Stop
    ensures Undisturbed(r, t, request, invoke)
  {
    if OfTask(a) { TaskDisturbsNothing(s, a, t, request, invoke); }
    else if OfLoop(a) { LoopDisturbsByCause(s, a, t, request, invoke); }
  }

  lemma StartIsUndisturbed(s: Connection, a: Action, r: Connection)
    requires Enabled(s, a) && r == Step(s, a) && a.Invoke? && |s.tasks| < |r.tasks|
    ensures Undisturbed(r, |s.tasks|, a.id, s.invokes)
  {
    NewTaskIsTrue(s, a, r);
  }

  predicate Asks(a: Action, request: RequestId) {
    a == Cancel(request) || a == Stop
  }

  /** No task is cancelled or aborted unless the server asked for it under the task's own request id, or the loop
      stopped. */
  lemma {:induction false} DisturbedOnlyWhenAsked(
      states: seq<Connection>, actions: seq<Action>, j: nat, k: nat, t: nat, request: RequestId, invoke: nat)
    requires IsRun(states, actions) && j <= k < |states| && Undisturbed(states[j], t, request, invoke)
    requires forall i :: j <= i < k ==> !Asks(actions[i], request)
    ensures Undisturbed(states[k], t, request, invoke)
  {
    if j < k {
      DisturbedOnlyWhenAsked(states, actions, j, k - 1, t, request, invoke);
      StaysUndisturbed(states, actions, k - 1, t, request, invoke);
    }
  }

  lemma StaysUndisturbed(states: seq<Connection>, actions: seq<Action>, k: nat, t: nat, request: RequestId, invoke: nat)
    requires IsRun(states, actions) && k < |actions| && Undisturbed(states[k], t, request, invoke)
    requires !Asks(actions[k], request)
    ensures Undisturbed(states[k + 1], t, request, invoke)
  {
    RunKeepsInv(states, actions, k);
    StepDisturbsByCause(states[k], actions[k], states[k + 1], t, request, invoke);
  }

  /** So an invocation that got a task at step `j`, and was not asked to stop since, is answered when its task has
      come to its end, as long as the connection lives. */
  lemma AdmittedIsAnswered(states: seq<Connection>, actions: seq<Action>, j: nat, k: nat)
    requires IsRun(states, actions) && j < k < |states| && !states[k].Gone()
    requires actions[j].Invoke? && |states[j].tasks| < |states[j + 1].tasks|
    requires forall i :: j + 1 <= i < k ==> !Asks(actions[i], actions[j].id)
    ensures |states[j].tasks| < |states[k].tasks|
    ensures Past(states[k].tasks[|states[j].tasks|].phase) ==> HasAnswer(states[k], states[j].invokes)
  {
    var t := |states[j].tasks|;
    StartIsUndisturbed(states[j], actions[j], states[j + 1]);
    DisturbedOnlyWhenAsked(states, actions, j + 1, k, t, actions[j].id, states[j].invokes);
    if Past(states[k].tasks[t].phase) { AnsweredUnlessCancelled(states, actions, k, t); }
  }

  // --- The loop keeps its word ------------------------------------------------------------------

  lemma StopReachesAll(s: Connection)
    requires TableSound(s) && Enabled(s, Stop)
    ensures var r := Step(s, Stop); |r.tasks| == |s.tasks| && forall t :: 0 <= t < |r.tasks| && Live(r.tasks[t]) ==>
      if r.tasks[t].kind == ProviderCall then r.tasks[t].cancelled else r.tasks[t].aborted
  {
    forall t | 0 <= t < |s.tasks| && Live(s.tasks[t]) && !s.tasks[t].aborted
      ensures StoppedTask(s, t) == if s.tasks[t].kind == ProviderCall then s.tasks[t].(cancelled := true)
                                   else s.tasks[t].(aborted := true)
    {
      assert Entered(s, t);
    }
  }

  /** When the loop stops in order, every provider call that still runs is cancelled, and every other task aborted. */
  lemma StoppingReachesAllTasks(states: seq<Connection>, actions: seq<Action>, k: nat, t: nat)
    requires IsRun(states, actions) && k < |actions| && actions[k] == Stop
    requires t < |states[k + 1].tasks| && Live(states[k + 1].tasks[t])
    ensures if states[k + 1].tasks[t].kind == ProviderCall then states[k + 1].tasks[t].cancelled
            else states[k + 1].tasks[t].aborted
  {
    RunKeepsInv(states, actions, k);
    StopReachesAll(states[k]);
  }

  /** Looking at the table first forgets the calls that are over, so a request id is free again once its task has
      finished. */
  lemma FinishedIdsAreFree(states: seq<Connection>, actions: seq<Action>, k: nat, id: RequestId)
    requires IsRun(states, actions) && k < |actions| && actions[k] == Reap
    ensures id in states[k].calls ==> states[k].calls[id] < |states[k].tasks|
    ensures id in states[k + 1].calls
      <==> id in states[k].calls && states[k].tasks[states[k].calls[id]].phase != Finished
  {
    RunKeepsInv(states, actions, k);
  }

  // --- The outbound queue and the uploads -------------------------------------------------------

  predicate QueueFits(s: Connection) {
    s.delivered <= |s.responses| && |s.responses| - s.delivered + s.activities <= 128
  }

  lemma StepKeepsQueue(s: Connection, a: Action, r: Connection)
    requires Enabled(s, a) && r == Step(s, a) && QueueFits(s)
    ensures QueueFits(r)
  {
    ResponsesGrow(s, a, r);
    if OfTask(a) { OneTaskMoves(s, a); }
  }

  lemma OneStepKeepsQueue(states: seq<Connection>, actions: seq<Action>, k: nat)
    requires IsRun(states, actions) && k < |actions| && QueueFits(states[k])
    ensures QueueFits(states[k + 1])
  {
    StepKeepsQueue(states[k], actions[k], states[k + 1]);
  }

  /** At most 128 messages wait for the socket, responses and notices together. */
  lemma {:induction false} QueueIsBounded(states: seq<Connection>, actions: seq<Action>, k: nat)
    requires IsRun(states, actions) && k < |states|
    ensures QueueFits(states[k])
  {
    if k > 0 {
      QueueIsBounded(states, actions, k - 1);
      OneStepKeepsQueue(states, actions, k - 1);
    }
  }

  /** A notice of a running call is dropped exactly when the queue is full. */
  lemma NoticesAreQueued(states: seq<Connection>, actions: seq<Action>, k: nat)
    requires IsRun(states, actions) && k < |actions| && actions[k].Notify?
    ensures var s, r := states[k], states[k + 1];
      && r == s.(activities := r.activities)
      && r.activities == s.activities + (if |s.responses| - s.delivered + s.activities < 128 then 1 else 0)
  {
  }

  /** A task that is done uploads its telemetry itself exactly if an upload permit is free at that moment. */
  lemma TelemetryGoesOut(states: seq<Connection>, actions: seq<Action>, k: nat)
    requires IsRun(states, actions) && k < |actions| && actions[k].TryUpload?
    ensures var s, r, t := states[k], states[k + 1], actions[k].t;
      && t < |s.tasks| && |r.tasks| == |s.tasks|
      && (r.tasks[t].phase == Uploading <==> s.uploads > 0)
      && r.uploads == (if s.uploads > 0 then s.uploads - 1 else 0)
  {
    OneTaskMoves(states[k], actions[k]);
  }
}

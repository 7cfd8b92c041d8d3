/** What every run of a connection guarantees to the server and to the providers. */
module AdmissionTheorems {
  import opened Outcomes
  import opened Sums
  import opened Admission
  import opened AdmissionSafety
  import TelemetryPipeline

  /** No two provider calls run for one request id. */
  lemma OneProviderCall(states: seq<Connection>, actions: seq<Action>, k: nat, t: nat, u: nat)
    requires IsRun(states, actions) && k < |states|
    requires t < |states[k].tasks| && u < |states[k].tasks|
    requires LiveCall(states[k].tasks[t]) && LiveCall(states[k].tasks[u])
    requires states[k].tasks[t].request == states[k].tasks[u].request
    ensures t == u
  {
    RunKeepsInv(states, actions, k);
  }

  // --- Bounds -----------------------------------------------------------------------------------

  function Suspends(task: Task): nat {
    One(Suspended(task.phase))
  }

  function Holdings(task: Task): nat {
    Permits(task) + Slots(task) + Uploads(task)
  }

  lemma {:induction false} HoldingsAddUp(tasks: seq<Task>)
    ensures Sum(tasks, Holdings) == Sum(tasks, Permits) + Sum(tasks, Slots) + Sum(tasks, Uploads)
  {
    if tasks != [] { HoldingsAddUp(tasks[..|tasks| - 1]); }
  }

  /** However many invocations arrive, the tasks that wait for something are at most these. */
  lemma SuspendedIsBounded(states: seq<Connection>, actions: seq<Action>, k: nat)
    requires IsRun(states, actions) && k < |states|
    ensures Sum(states[k].tasks, Suspends) <= MAX_CALLS + MAX_REJECTIONS + TelemetryPipeline.MAX_UPLOADS
  {
    RunKeepsInv(states, actions, k);
    var tasks := states[k].tasks;
    assert forall t :: 0 <= t < |tasks| ==> TaskSound(tasks[t], states[k].Gone());
    SumBelow(tasks, Suspends, Holdings);
    HoldingsAddUp(tasks);
  }

  /** When no task is left, every permit is back. */
  lemma NothingLeaks(states: seq<Connection>, actions: seq<Action>, k: nat)
    requires IsRun(states, actions) && k < |states|
    requires forall t :: 0 <= t < |states[k].tasks| ==> !Live(states[k].tasks[t])
    ensures states[k].permits == MAX_CALLS && states[k].slots == MAX_REJECTIONS
    ensures states[k].uploads + states[k].elsewhere == TelemetryPipeline.MAX_UPLOADS
  {
    RunKeepsInv(states, actions, k);
    SumZero(states[k].tasks, Permits);
    SumZero(states[k].tasks, Slots);
    SumZero(states[k].tasks, Uploads);
  }

  /** An invocation under a free request id is turned away without a task exactly when tasks hold every
      call permit and every rejection slot. */
  lemma ShedOnlyAtCapacity(states: seq<Connection>, actions: seq<Action>, k: nat)
    requires IsRun(states, actions) && k < |actions| && actions[k].Invoke? && actions[k].id !in states[k].calls
    ensures states[k + 1].tasks == states[k].tasks
      <==> Sum(states[k].tasks, Permits) == MAX_CALLS && Sum(states[k].tasks, Slots) == MAX_REJECTIONS
  {
    RunKeepsInv(states, actions, k);
    assert states[k + 1] == Admit(states[k], actions[k].id, actions[k].connected);
    assert |states[k].tasks + [NewTask(0, 0, Rejected, Ended)]| != |states[k].tasks|;
    assert states[k + 1].tasks != states[k].tasks <== |states[k + 1].tasks| == |states[k].tasks| + 1;
  }

  // --- Responses --------------------------------------------------------------------------------

  /** An invocation never has two responses, queued or sent. */
  lemma OneResponse(states: seq<Connection>, actions: seq<Action>, k: nat, i: nat, j: nat)
    requires IsRun(states, actions) && k < |states|
    requires i < |states[k].responses| && j < |states[k].responses|
    requires states[k].responses[i].invoke == states[k].responses[j].invoke
    ensures i == j
  {
    RunKeepsInv(states, actions, k);
  }

  ghost predicate HasAnswer(s: Connection, invoke: nat) {
    exists i :: 0 <= i < |s.responses| && s.responses[i].invoke == invoke
  }

  lemma AnswersAreResponses(s: Connection, t: nat)
    requires Inv(s) && t < |s.tasks|
    ensures HasAnswer(s, s.tasks[t].invoke) <==> s.tasks[t].responded
  {
    if s.tasks[t].responded {
      assert HasResponse(s, t);
      var i :| 0 <= i < |s.responses| && s.responses[i].task == Some(t);
      assert OfTaskResponse(s, i, t);
    } else {
      NoResponseYet(s, t);
    }
  }

  /** While the connection lives, a task that came to its end without being aborted has answered its
      invocation, unless it saw the call cancelled. */
  lemma AnsweredUnlessCancelled(states: seq<Connection>, actions: seq<Action>, k: nat, t: nat)
    requires IsRun(states, actions) && k < |states| && !states[k].Gone() && t < |states[k].tasks|
    requires Past(states[k].tasks[t].phase) && !states[k].tasks[t].aborted
    ensures HasAnswer(states[k], states[k].tasks[t].invoke) <==> states[k].tasks[t].verdict != Cancelled
    ensures states[k].tasks[t].verdict == Cancelled ==> states[k].tasks[t].cancelled
  {
    RunKeepsInv(states, actions, k);
    assert TaskSound(states[k].tasks[t], false);
    AnswersAreResponses(states[k], t);
  }

  /** A task is told that its response was delivered exactly when the socket took it. */
  lemma ReportsAreTrue(states: seq<Connection>, actions: seq<Action>, k: nat, t: nat)
    requires IsRun(states, actions) && k < |states| && t < |states[k].tasks|
    ensures states[k].tasks[t].report == Some(true)
      <==> exists i :: 0 <= i < states[k].delivered <= |states[k].responses| && states[k].responses[i].task == Some(t)
  {
    RunKeepsInv(states, actions, k);
    var s := states[k];
    assert TaskSound(s.tasks[t], s.Gone());
    if s.tasks[t].report == Some(true) {
      assert HasResponse(s, t);
      var i :| 0 <= i < |s.responses| && s.responses[i].task == Some(t);
      assert OfTaskResponse(s, i, t);
    }
    forall i | 0 <= i < s.delivered && s.responses[i].task == Some(t)
      ensures s.tasks[t].report == Some(true)
    {
      assert OfTaskResponse(s, i, t);
    }
  }

  // --- Cancellation -----------------------------------------------------------------------------

  /** The cancellation is there before the task has looked at it for the last time. */
  predicate CancelledInTime(task: Task) {
    task.kind == ProviderCall && task.cancelled && (task.phase == Calling || task.phase == Grace || task.phase.HasResult?)
  }

  predicate Silent(task: Task) {
    !task.responded && (CancelledInTime(task) || Past(task.phase))
  }

  lemma TaskStaysSilent(s: Connection, task: Task, a: Action)
    requires OfTask(a) && TaskEnabled(s, task, a) && TaskSound(task, s.Gone()) && Silent(task)
    ensures Silent(MovedTask(s, task, a))
  {
  }

  /** What may happen to a task without a step of its own. */
  predicate Untouched(x: Task, y: Task) {
    y == x.(cancelled := y.cancelled, aborted := y.aborted, report := y.report) && (x.cancelled ==> y.cancelled)
  }

  lemma LoopLeavesTask(s: Connection, a: Action, t: nat)
    requires Inv(s) && Enabled(s, a) && OfLoop(a) && t < |s.tasks|
    ensures t < |Step(s, a).tasks| && Untouched(s.tasks[t], Step(s, a).tasks[t])
  {
    if a.Transmit? {
      TransmitInforms(s, a.ok);
      assert Informed(s.tasks[t], Step(s, a).tasks[t]);
    } else if a.Invoke? {
      assert Step(s, a).tasks[t] == s.tasks[t];
    } else {
      if a.Cancel? { CancelFlags(s, a.id); }
      else if a.Reap? { ReapKeepsTable(s); }
      else if a.Stop? { StopKeepsTable(s); }
      else { PlainLoopKeepsTable(s, a); }
      assert Flagged(s.tasks[t], Step(s, a).tasks[t]);
    }
  }

  lemma SilenceIsKept(s: Connection, a: Action, t: nat)
    requires Inv(s) && Enabled(s, a) && t < |s.tasks| && Silent(s.tasks[t])
    ensures t < |Step(s, a).tasks| && Silent(Step(s, a).tasks[t])
    ensures Step(s, a).tasks[t].invoke == s.tasks[t].invoke
  {
    if OfTask(a) {
      OneTaskMoves(s, a);
      TaskMoves(s, s.tasks[a.t], a);
      if a.t == t { TaskStaysSilent(s, s.tasks[t], a); }
    } else if OfLoop(a) {
      LoopLeavesTask(s, a, t);
    }
  }

  lemma SilenceGoesOn(states: seq<Connection>, actions: seq<Action>, k: nat, t: nat)
    requires IsRun(states, actions) && k < |actions| && t < |states[k].tasks| && Silent(states[k].tasks[t])
    ensures t < |states[k + 1].tasks| && Silent(states[k + 1].tasks[t])
    ensures states[k + 1].tasks[t].invoke == states[k].tasks[t].invoke
  {
    RunKeepsInv(states, actions, k);
    SilenceIsKept(states[k], actions[k], t);
  }

  lemma {:induction false} SilenceLasts(states: seq<Connection>, actions: seq<Action>, k: nat, l: nat, t: nat)
    requires IsRun(states, actions) && k <= l < |states| && t < |states[k].tasks| && Silent(states[k].tasks[t])
    ensures t < |states[l].tasks| && Silent(states[l].tasks[t]) && states[l].tasks[t].invoke == states[k].tasks[t].invoke
  {
    if k < l {
      SilenceLasts(states, actions, k, l - 1, t);
      SilenceGoesOn(states, actions, l - 1, t);
    }
  }

  /** A call that is cancelled before its result was accepted never answers. */
  lemma CancelledCallStaysSilent(states: seq<Connection>, actions: seq<Action>, k: nat, l: nat, t: nat)
    requires IsRun(states, actions) && k <= l < |states| && t < |states[k].tasks| && CancelledInTime(states[k].tasks[t])
    ensures !HasAnswer(states[l], states[k].tasks[t].invoke)
  {
    RunKeepsInv(states, actions, k);
    assert TaskSound(states[k].tasks[t], states[k].Gone());
    SilenceLasts(states, actions, k, l, t);
    RunKeepsInv(states, actions, l);
    AnswersAreResponses(states[l], t);
  }

  /** So a cancel message reaches the call that runs under its request id, and silences it if the result
      was not accepted yet. */
  lemma CancelSilencesItsCall(states: seq<Connection>, actions: seq<Action>, k: nat, l: nat, t: nat)
    requires IsRun(states, actions) && k < l < |states| && t < |states[k].tasks|
    requires actions[k] == Cancel(states[k].tasks[t].request)
    requires states[k].tasks[t].kind == ProviderCall
    requires states[k].tasks[t].phase == Calling || states[k].tasks[t].phase.HasResult?
    ensures !HasAnswer(states[l], states[k].tasks[t].invoke)
  {
    RunKeepsInv(states, actions, k);
    assert Entered(states[k], t);
    assert CancelledInTime(states[k + 1].tasks[t]);
    CancelledCallStaysSilent(states, actions, k + 1, l, t);
  }

  // --- The end of a connection ------------------------------------------------------------------

  /** After an orderly end, whatever still runs has been aborted. */
  lemma OrderlyEndAbortsTheRest(states: seq<Connection>, actions: seq<Action>, k: nat, t: nat)
    requires IsRun(states, actions) && k < |states| && states[k].status == Closed
    requires t < |states[k].tasks| && Live(states[k].tasks[t])
    ensures states[k].tasks[t].aborted
  {
    RunKeepsInv(states, actions, k);
  }

  /** After a failed one, a provider call may still run: nothing has cancelled or aborted it. */
  lemma BrokenEndLeavesACall() returns (states: seq<Connection>, actions: seq<Action>)
    ensures IsRun(states, actions) && states[|actions|].status == Broken
    ensures |states[|actions|].tasks| == 1 && LiveCall(states[|actions|].tasks[0])
    ensures !states[|actions|].tasks[0].cancelled && !states[|actions|].tasks[0].aborted
  {
    var s0 := Connected(0);
    var s1 := Step(s0, Reap);
    var s2 := Step(s1, Invoke(7, true));
    var s3 := Step(s2, Reap);
    var s4 := Step(s3, Fail);
    states := [s0, s1, s2, s3, s4];
    actions := [Reap, Invoke(7, true), Reap, Fail];
  }

  /** Something has been done to end the task. */
  predicate Touched(task: Task) {
    task.cancelled || task.aborted
  }

  predicate SameFlags(s: Connection, r: Connection) {
    |r.tasks| == |s.tasks|
    && forall t :: 0 <= t < |s.tasks| ==>
         r.tasks[t].cancelled == s.tasks[t].cancelled && r.tasks[t].aborted == s.tasks[t].aborted
  }

  /** Neither the end of a connection nor anything after it touches a task. */
  lemma EndTouchesNothing(s: Connection, a: Action)
    requires Enabled(s, a) && (s.Gone() || Step(s, a).Gone())
    ensures SameFlags(s, Step(s, a)) && (s.Gone() ==> Step(s, a).status == s.status)
  {
    if OfTask(a) {
      OneTaskMoves(s, a);
      FlagsOfMove(s, s.tasks[a.t], a);
    }
  }

  lemma FlagsOfMove(s: Connection, task: Task, a: Action)
    requires OfTask(a) && TaskEnabled(s, task, a)
    ensures MovedTask(s, task, a).cancelled == task.cancelled && MovedTask(s, task, a).aborted == task.aborted
  {
  }

  lemma {:induction false} NothingIsTouched(states: seq<Connection>, actions: seq<Action>, k: nat, l: nat)
    requires IsRun(states, actions) && k < l < |states| && states[k + 1].Gone()
    ensures SameFlags(states[k], states[l]) && states[l].status == states[k + 1].status
  {
    if l == k + 1 {
      EndTouchesNothing(states[k], actions[k]);
    } else {
      NothingIsTouched(states, actions, k, l - 1);
      EndTouchesNothing(states[l - 1], actions[l - 1]);
    }
  }

  /** A connection ends at step `k`. At that point and ever after, everything that still runs has been cancelled
      or aborted exactly if the end was orderly, or if it had been already before the end. */
  lemma EndLeavesNothingUntouched(states: seq<Connection>, actions: seq<Action>, k: nat, l: nat)
    requires IsRun(states, actions) && k < l < |states| && !states[k].Gone() && states[k + 1].Gone()
    ensures |states[l].tasks| == |states[k].tasks|
    ensures (forall t :: 0 <= t < |states[l].tasks| && Live(states[l].tasks[t]) ==> Touched(states[l].tasks[t]))
      <==> || states[k + 1].status == Closed
           || (forall t :: 0 <= t < |states[l].tasks| && Live(states[l].tasks[t]) ==> Touched(states[k].tasks[t]))
  {
    NothingIsTouched(states, actions, k, l);
    RunKeepsInv(states, actions, l);
    assert forall t :: 0 <= t < |states[l].tasks| ==> Touched(states[l].tasks[t]) == Touched(states[k].tasks[t]);
  }
}

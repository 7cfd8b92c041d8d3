/** What the monitor of an embedded runtime guarantees over any mix of events, summaries, losses and
    expiries. */
module MonitorRuns {
  import opened Outcomes
  import opened TraceIo
  import opened TelemetryEvents
  import opened EmbeddedMonitor

  datatype Op =
    | Deploy(deployment: Deployment)
    | Lose
    | Receive(event: MonitorEvent, now: nat, newId: Uuid)
    | RecordIo(id: TraceId, input: Option<TraceIoSummary>, output: Option<TraceIoSummary>, now: nat)
    | Expire(walk: seq<TraceId>, now: nat, clock: Option<nat>)
    | Reconnect

  type Models = map<(string, string), string>

  predicate Enabled(s: State, op: Op) {
    op.Expire? ==> s.IsWalk(op.walk)
  }

  function Apply(s: State, op: Op): State {
    match op
    case Deploy(d) => s.(deployment := Some(d))
    case Lose => s.(dropped := s.dropped + 1)
    case Receive(event, now, newId) => s.After(event, now, newId)
    case RecordIo(id, input, output, now) => s.Record(id, input, output, now)
    case Expire(walk, now, clock) => s.AfterExpiry(walk, now, clock)
    case Reconnect => s.(traces := map[])
  }

  function Emits(models: Models, s: State, op: Op): seq<RuntimeBatch> {
    match op
    case Receive(event, now, newId) =>
      (match s.Command(models, event, now, newId)
       case Some(batch) => [batch]
       case None => [])
    case Expire(walk, now, clock) => s.ExpiryCommands(walk, now, clock)
    case _ => []
  }

  /** How many losses an operation finds in the counter when it takes it. */
  function Takes(s: State, op: Op): Option<nat> {
    if (op.Receive? && s.Sends(op.event)) || (op.Expire? && s.Expires(op.walk, op.now, op.clock)) then Some(s.dropped)
    else None
  }

  function Initial(): State {
    State(map[], 0, None)
  }

  function Run(ops: seq<Op>): State {
    if ops == [] then Initial() else Apply(Run(ops[..|ops| - 1]), ops[|ops| - 1])
  }

  predicate IsRun(ops: seq<Op>) {
    ops == [] || (IsRun(ops[..|ops| - 1]) && Enabled(Run(ops[..|ops| - 1]), ops[|ops| - 1]))
  }

  /** Everything that was sent. */
  function Sent(models: Models, ops: seq<Op>): seq<RuntimeBatch> {
    if ops == [] then [] else Sent(models, ops[..|ops| - 1]) + Emits(models, Run(ops[..|ops| - 1]), ops[|ops| - 1])
  }

  // --- The life of a trace ----------------------------------------------------------------------

  predicate IsStart(b: RuntimeBatch) {
    |b.events| == 1 && b.events[0].InvocationStarted? && b.terminal.None?
  }

  predicate IsTerminal(b: RuntimeBatch) {
    b.terminal.Some?
  }

  /** The last batch of the trace is not a terminal one. */
  predicate Running(sent: seq<RuntimeBatch>, id: TraceId) {
    sent != []
    && var last := sent[|sent| - 1];
       if last.traceId == id then !IsTerminal(last) else Running(sent[..|sent| - 1], id)
  }

  /** Every batch starts a trace or belongs to one that runs. */
  predicate IsStream(sent: seq<RuntimeBatch>) {
    forall k :: 0 <= k < |sent| ==> IsStart(sent[k]) || Running(sent[..k], sent[k].traceId)
  }

  /** Every trace is filed under its own id, and what is in the table runs. A new connection forgets traces
      that run. */
  ghost predicate Tracks(s: State, sent: seq<RuntimeBatch>) {
    && (forall id :: id in s.traces ==> s.traces[id].traceId == id)
    && (forall id :: id in s.traces ==> Running(sent, id))
  }

  lemma RunningAfter(sent: seq<RuntimeBatch>, b: RuntimeBatch, id: TraceId)
    ensures Running(sent + [b], id) <==> if b.traceId == id then !IsTerminal(b) else Running(sent, id)
  {
    assert (sent + [b])[..|sent|] == sent;
  }

  lemma StreamAfter(sent: seq<RuntimeBatch>, b: RuntimeBatch)
    requires IsStream(sent) && (IsStart(b) || Running(sent, b.traceId))
    ensures IsStream(sent + [b])
  {
    var r := sent + [b];
    forall k | 0 <= k < |r|
      ensures IsStart(r[k]) || Running(r[..k], r[k].traceId)
    {
      assert r[..k] == if k < |sent| then sent[..k] else sent;
    }
  }

  lemma ReceiveTracks(models: Models, s: State, sent: seq<RuntimeBatch>, event: MonitorEvent, now: nat, newId: Uuid)
    requires Tracks(s, sent) && IsStream(sent)
    ensures var op := Receive(event, now, newId);
      Tracks(Apply(s, op), sent + Emits(models, s, op)) && IsStream(sent + Emits(models, s, op))
  {
    if s.Sends(event) {
      var b := s.Command(models, event, now, newId).value;
      StreamAfter(sent, b);
      forall id | id in s.After(event, now, newId).traces
        ensures Running(sent + [b], id)
      {
        RunningAfter(sent, b, id);
      }
    } else {
      assert sent + Emits(models, s, Receive(event, now, newId)) == sent;
    }
  }

  /** A terminal batch ends its trace. */
  lemma TerminalTracks(s: State, r: State, sent: seq<RuntimeBatch>, b: RuntimeBatch)
    requires Tracks(s, sent) && IsStream(sent) && b.traceId in s.traces && IsTerminal(b)
    requires forall id :: id in r.traces <==> id in s.traces && id != b.traceId
    requires forall id :: id in r.traces ==> r.traces[id] == s.traces[id]
    ensures Tracks(r, sent + [b]) && IsStream(sent + [b])
  {
    StreamAfter(sent, b);
    forall id | id in r.traces
      ensures Running(sent + [b], id)
    {
      RunningAfter(sent, b, id);
    }
  }

  lemma {:induction false} LastBatchesTrack(s: State, sent: seq<RuntimeBatch>, ids: seq<TraceId>, reported: nat, endedAt: nat)
    requires Tracks(s, sent) && IsStream(sent)
    requires Distinct(ids) && forall i :: 0 <= i < |ids| ==> ids[i] in s.traces
    ensures var r := sent + LastBatches(s.traces, ids, reported, endedAt);
      Tracks(s.(traces := Without(s.traces, ids)), r) && IsStream(r)
  {
    if ids == [] {
      assert sent + LastBatches(s.traces, ids, reported, endedAt) == sent;
    } else {
      var n := |ids| - 1;
      var front := sent + LastBatches(s.traces, ids[..n], reported, endedAt);
      var b := LastBatch(s.traces[ids[n]], if |ids| == 1 then reported else 0, endedAt);
      LastBatchesTrack(s, sent, ids[..n], reported, endedAt);
      assert ids[n] !in ids[..n];
      assert sent + LastBatches(s.traces, ids, reported, endedAt) == front + [b];
      TerminalTracks(s.(traces := Without(s.traces, ids[..n])), s.(traces := Without(s.traces, ids)), front, b);
    }
  }

  lemma {:induction false} RunTracks(models: Models, ops: seq<Op>)
    requires IsRun(ops)
    ensures Tracks(Run(ops), Sent(models, ops)) && IsStream(Sent(models, ops))
  {
    if ops != [] {
      var before, op := ops[..|ops| - 1], ops[|ops| - 1];
      var s, sent := Run(before), Sent(models, before);
      RunTracks(models, before);
      if op.Receive? {
        ReceiveTracks(models, s, sent, op.event, op.now, op.newId);
      } else if op.Expire? && s.Expires(op.walk, op.now, op.clock) {
        s.ExpiredIsDistinct(op.walk, op.now);
        LastBatchesTrack(s, sent, s.Expired(op.walk, op.now), s.Reported(), op.clock.value);
        assert Tracks(Apply(s, op), Sent(models, ops));
      } else {
        assert sent + Emits(models, s, op) == sent;
      }
    }
  }

  lemma {:induction false} StartsAgain(sent: seq<RuntimeBatch>, i: nat, id: TraceId)
    requires IsStream(sent) && i < |sent| && sent[i].traceId == id && IsTerminal(sent[i]) && Running(sent, id)
    ensures exists k :: i < k < |sent| && sent[k].traceId == id && IsStart(sent[k])
  {
    var n := |sent| - 1;
    if sent[n].traceId == id && IsStart(sent[n]) {
    } else {
      var front := sent[..n];
      assert forall k :: 0 <= k < n ==> front[k] == sent[k] && front[..k] == sent[..k];
      StartsAgain(front, i, id);
    }
  }

  /** After its terminal batch nothing more is sent for a trace, until it is started again. So a started
      trace has at most one terminal batch. */
  lemma NothingAfterTheTerminal(models: Models, ops: seq<Op>, i: nat, j: nat)
    requires IsRun(ops)
    requires i < j < |Sent(models, ops)|
    requires Sent(models, ops)[i].traceId == Sent(models, ops)[j].traceId && IsTerminal(Sent(models, ops)[i])
    ensures exists k :: i < k <= j && Sent(models, ops)[k].traceId == Sent(models, ops)[i].traceId && IsStart(Sent(models, ops)[k])
  {
    var sent := Sent(models, ops);
    RunTracks(models, ops);
    if !IsStart(sent[j]) {
      var front := sent[..j];
      assert forall k :: 0 <= k < j ==> front[k] == sent[k] && front[..k] == sent[..k];
      StartsAgain(front, i, sent[i].traceId);
      var k :| i < k < |front| && front[k].traceId == sent[i].traceId && IsStart(front[k]);
      assert IsStart(sent[k]);
    }
  }

  // --- Expiry -----------------------------------------------------------------------------------

  /** After an expiry no trace is left that was idle too long, and no other trace changed. */
  lemma ExpiryRemovesTheIdle(s: State, walk: seq<TraceId>, now: nat, endedAt: nat)
    requires s.IsWalk(walk)
    ensures var r := s.AfterExpiry(walk, now, Some(endedAt));
      && (forall id :: id in r.traces <==> id in s.traces && !IsExpired(s.traces[id], now))
      && (forall id :: id in r.traces ==> r.traces[id] == s.traces[id])
  {
  }

  /** Each expired trace has exactly one batch in an expiry, which ends it, and no other trace has one. */
  lemma ExpiryIsExact(ops: seq<Op>, walk: seq<TraceId>, now: nat, endedAt: nat)
    requires IsRun(ops) && Run(ops).IsWalk(walk)
    ensures var s := Run(ops); var batches := s.ExpiryCommands(walk, now, Some(endedAt));
      && (forall i :: 0 <= i < |batches| ==> IsTerminal(batches[i]))
      && (forall i, j :: 0 <= i < j < |batches| ==> batches[i].traceId != batches[j].traceId)
      && (forall id :: HasBatch(batches, id) <==> id in s.traces && IsExpired(s.traces[id], now))
  {
    var s := Run(ops);
    var ids, batches := s.Expired(walk, now), s.ExpiryCommands(walk, now, Some(endedAt));
    RunTracks(map[], ops);
    s.ExpiredIsDistinct(walk, now);
    LastBatchesFacts(s, ids, s.Reported(), endedAt);
    forall id
      ensures HasBatch(batches, id) <==> id in ids
    {
      if id in ids {
        var i :| 0 <= i < |ids| && ids[i] == id;
        assert batches[i].traceId == id;
      }
    }
  }

  predicate HasBatch(batches: seq<RuntimeBatch>, id: TraceId) {
    exists i :: 0 <= i < |batches| && batches[i].traceId == id
  }

  lemma {:induction false} LastBatchesFacts(s: State, ids: seq<TraceId>, reported: nat, endedAt: nat)
    requires forall id :: id in s.traces ==> s.traces[id].traceId == id
    requires forall i :: 0 <= i < |ids| ==> ids[i] in s.traces
    ensures var r := LastBatches(s.traces, ids, reported, endedAt);
      forall i :: 0 <= i < |r| ==> r[i].traceId == ids[i] && IsTerminal(r[i])
  {
    if ids != [] { LastBatchesFacts(s, ids[..|ids| - 1], reported, endedAt); }
  }
}

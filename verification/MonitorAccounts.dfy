/** What becomes of the summaries and the losses that the monitor of an embedded runtime hears of. */
module MonitorAccounts {
  import opened Outcomes
  import opened TraceIo
  import opened TelemetryEvents
  import opened EmbeddedMonitor
  import opened MonitorRuns

  // --- Losses -----------------------------------------------------------------------------------

  function Losses(ops: seq<Op>): nat {
    if ops == [] then 0 else Losses(ops[..|ops| - 1]) + (if ops[|ops| - 1].Lose? then 1 else 0)
  }

  function ReportedLosses(sent: seq<RuntimeBatch>): nat {
    if sent == [] then 0 else ReportedLosses(sent[..|sent| - 1]) + sent[|sent| - 1].dropped
  }

  function Excess(taken: Option<nat>): nat {
    if taken.Some? && taken.value > MAX_DROPPED then taken.value - MAX_DROPPED else 0
  }

  /** What was in the counter above the limit of a batch each time it was taken. */
  function Unreported(ops: seq<Op>): nat {
    if ops == [] then 0
    else Unreported(ops[..|ops| - 1]) + Excess(Takes(Run(ops[..|ops| - 1]), ops[|ops| - 1]))
  }

  lemma {:induction false} ReportedAppend(a: seq<RuntimeBatch>, b: seq<RuntimeBatch>)
    ensures ReportedLosses(a + b) == ReportedLosses(a) + ReportedLosses(b)
  {
    if b == [] {
      assert a + b == a;
    } else {
      ReportedAppend(a, b[..|b| - 1]);
      assert (a + b)[..|a + b| - 1] == a + b[..|b| - 1];
    }
  }

  lemma OneReport(sent: seq<RuntimeBatch>, b: RuntimeBatch)
    ensures ReportedLosses(sent + [b]) == ReportedLosses(sent) + b.dropped
  {
    assert (sent + [b])[..|sent|] == sent;
  }

  /** All but the last of these batches, and the last. */
  lemma LastBatchesSplit(traces: map<TraceId, Trace>, ids: seq<TraceId>, reported: nat, endedAt: nat)
    requires ids != [] && forall i :: 0 <= i < |ids| ==> ids[i] in traces
    ensures LastBatches(traces, ids, reported, endedAt)
         == LastBatches(traces, ids[..|ids| - 1], reported, endedAt)
          + [LastBatch(traces[ids[|ids| - 1]], if |ids| == 1 then reported else 0, endedAt)]
  {
  }

  lemma {:induction false} LastBatchesReport(traces: map<TraceId, Trace>, ids: seq<TraceId>, reported: nat, endedAt: nat)
    requires forall i :: 0 <= i < |ids| ==> ids[i] in traces
    ensures ReportedLosses(LastBatches(traces, ids, reported, endedAt)) == if ids == [] then 0 else reported
  {
    if ids != [] {
      var front, id := ids[..|ids| - 1], ids[|ids| - 1];
      var shown := if |ids| == 1 then reported else 0;
      LastBatchesReport(traces, front, reported, endedAt);
      LastBatchesSplit(traces, ids, reported, endedAt);
      OneReport(LastBatches(traces, front, reported, endedAt), LastBatch(traces[id], shown, endedAt));
      assert LastBatch(traces[id], shown, endedAt).dropped == shown;
    }
  }

  lemma OpIsCounted(models: Models, s: State, op: Op)
    requires Enabled(s, op)
    ensures ReportedLosses(Emits(models, s, op)) + Apply(s, op).dropped + Excess(Takes(s, op))
         == s.dropped + (if op.Lose? then 1 else 0)
  {
    if op.Receive? && s.Sends(op.event) {
      assert Emits(models, s, op)[..0] == [];
    } else if op.Expire? && s.Expires(op.walk, op.now, op.clock) {
      LastBatchesReport(s.traces, s.Expired(op.walk, op.now), s.Reported(), op.clock.value);
    }
  }

  /** Every loss is reported, still counted, or above the limit of the batch that took it. */
  lemma {:induction false} LossesAreConserved(models: Models, ops: seq<Op>)
    requires IsRun(ops)
    ensures ReportedLosses(Sent(models, ops)) + Run(ops).dropped + Unreported(ops) == Losses(ops)
  {
    if ops != [] {
      var before, op := ops[..|ops| - 1], ops[|ops| - 1];
      LossesAreConserved(models, before);
      OpIsCounted(models, Run(before), op);
      ReportedAppend(Sent(models, before), Emits(models, Run(before), op));
    }
  }

  predicate EveryTakeFits(ops: seq<Op>) {
    forall k :: 0 <= k < |ops| ==> Excess(Takes(Run(ops[..k]), ops[k])) == 0
  }

  lemma FitsToTheEnd(ops: seq<Op>)
    requires ops != []
    ensures var n := |ops| - 1;
      EveryTakeFits(ops) <==> EveryTakeFits(ops[..n]) && Excess(Takes(Run(ops[..n]), ops[n])) == 0
  {
    var n := |ops| - 1;
    var front := ops[..n];
    assert forall k :: 0 <= k < n ==> front[..k] == ops[..k] && front[k] == ops[k];
    if EveryTakeFits(front) && Excess(Takes(Run(front), ops[n])) == 0 {
      forall k | 0 <= k < |ops|
        ensures Excess(Takes(Run(ops[..k]), ops[k])) == 0
      {
        assert k < n ==> Excess(Takes(Run(front[..k]), front[k])) == 0;
      }
    }
  }

  lemma {:induction false} UnreportedIsZero(ops: seq<Op>)
    ensures Unreported(ops) == 0 <==> EveryTakeFits(ops)
  {
    if ops != [] {
      UnreportedIsZero(ops[..|ops| - 1]);
      FitsToTheEnd(ops);
    }
  }

  /** No loss goes unreported exactly while no batch finds more than ten thousand of them. */
  lemma LossesAreReported(models: Models, ops: seq<Op>)
    requires IsRun(ops)
    ensures ReportedLosses(Sent(models, ops)) + Run(ops).dropped <= Losses(ops)
    ensures ReportedLosses(Sent(models, ops)) + Run(ops).dropped == Losses(ops) <==> EveryTakeFits(ops)
  {
    LossesAreConserved(models, ops);
    UnreportedIsZero(ops);
  }

  // --- Summaries --------------------------------------------------------------------------------

  datatype Root = Input | Output

  predicate IsSubsequence<T(==)>(a: seq<T>, b: seq<T>) {
    a == []
    || (b != []
        && ((a[|a| - 1] == b[|b| - 1] && IsSubsequence(a[..|a| - 1], b[..|b| - 1])) || IsSubsequence(a, b[..|b| - 1])))
  }

  lemma Longer<T>(a: seq<T>, b: seq<T>, x: T)
    requires IsSubsequence(a, b)
    ensures IsSubsequence(a, b + [x]) && IsSubsequence(a + [x], b + [x])
  {
    assert (b + [x])[..|b|] == b && (a + [x])[..|a|] == a;
  }

  lemma {:induction false} Shorter<T>(a: seq<T>, x: T, b: seq<T>)
    requires IsSubsequence(a + [x], b)
    ensures IsSubsequence(a, b)
  {
    if a != [] {
      var front := b[..|b| - 1];
      assert (a + [x])[..|a|] == a;
      if !IsSubsequence(a, front) {
        Shorter(a, x, front);
      }
      Longer(a, front, b[|b| - 1]);
      assert front + [b[|b| - 1]] == b;
    }
  }

  function AsSeq<T>(value: Option<T>): seq<T> {
    match value case Some(v) => [v] case None => []
  }

  function RootOf(input: Option<TraceIoSummary>, output: Option<TraceIoSummary>, root: Root): seq<TraceIoSummary> {
    AsSeq(if root == Input then input else output)
  }

  /** The summaries that were recorded for a trace, in order. */
  function Recorded(ops: seq<Op>, id: TraceId, root: Root): seq<TraceIoSummary> {
    if ops == [] then []
    else
      var op := ops[|ops| - 1];
      Recorded(ops[..|ops| - 1], id, root)
      + (if op.RecordIo? && op.id == id then RootOf(op.input, op.output, root) else [])
  }

  /** The summaries that were sent for a trace, in order. */
  function SentRoots(sent: seq<RuntimeBatch>, id: TraceId, root: Root): seq<TraceIoSummary> {
    if sent == [] then []
    else
      var b := sent[|sent| - 1];
      SentRoots(sent[..|sent| - 1], id, root) + (if b.traceId == id then RootOf(b.input, b.output, root) else [])
  }

  function Kept(s: State, id: TraceId, root: Root): seq<TraceIoSummary> {
    if id in s.traces then RootOf(s.traces[id].input, s.traces[id].output, root) else []
  }

  lemma {:induction false} RootsAppend(a: seq<RuntimeBatch>, b: seq<RuntimeBatch>, id: TraceId, root: Root)
    ensures SentRoots(a + b, id, root) == SentRoots(a, id, root) + SentRoots(b, id, root)
  {
    if b == [] {
      assert a + b == a;
    } else {
      RootsAppend(a, b[..|b| - 1], id, root);
      assert (a + b)[..|a + b| - 1] == a + b[..|b| - 1];
    }
  }

  lemma OneRoot(b: RuntimeBatch, id: TraceId, root: Root)
    ensures SentRoots([b], id, root) == if b.traceId == id then RootOf(b.input, b.output, root) else []
  {
    assert [b][..0] == [];
  }

  lemma LastMember(ids: seq<TraceId>, id: TraceId)
    requires Distinct(ids) && ids != []
    ensures id in ids <==> id in ids[..|ids| - 1] || id == ids[|ids| - 1]
    ensures ids[|ids| - 1] !in ids[..|ids| - 1]
  {
    assert ids == ids[..|ids| - 1] + [ids[|ids| - 1]];
  }

  lemma KeptIsSent(s: State, t: TraceId, reported: nat, endedAt: nat, id: TraceId, root: Root)
    requires t in s.traces && s.traces[t].traceId == t
    ensures SentRoots([LastBatch(s.traces[t], reported, endedAt)], id, root) == if id == t then Kept(s, id, root) else []
  {
    OneRoot(LastBatch(s.traces[t], reported, endedAt), id, root);
  }

  lemma LastRootsStep(s: State, ids: seq<TraceId>, front: seq<RuntimeBatch>, last: RuntimeBatch, id: TraceId, root: Root)
    requires Distinct(ids) && ids != [] && forall i :: 0 <= i < |ids| ==> ids[i] in s.traces
    requires SentRoots(front, id, root) == if id in ids[..|ids| - 1] then Kept(s, id, root) else []
    requires SentRoots([last], id, root) == if id == ids[|ids| - 1] then Kept(s, id, root) else []
    ensures SentRoots(front + [last], id, root) == if id in ids then Kept(s, id, root) else []
  {
    RootsAppend(front, [last], id, root);
    LastMember(ids, id);
  }

  lemma {:induction false} LastRoots(s: State, ids: seq<TraceId>, reported: nat, endedAt: nat, id: TraceId, root: Root)
    requires Distinct(ids) && (forall i :: 0 <= i < |ids| ==> ids[i] in s.traces)
    requires forall t :: t in s.traces ==> s.traces[t].traceId == t
    ensures SentRoots(LastBatches(s.traces, ids, reported, endedAt), id, root) == if id in ids then Kept(s, id, root) else []
  {
    if ids != [] {
      var n := |ids| - 1;
      var front, shown := LastBatches(s.traces, ids[..n], reported, endedAt), if n == 0 then reported else 0;
      LastBatchesSplit(s.traces, ids, reported, endedAt);
      LastRoots(s, ids[..n], reported, endedAt, id, root);
      KeptIsSent(s, ids[n], shown, endedAt, id, root);
      LastRootsStep(s, ids, front, LastBatch(s.traces[ids[n]], shown, endedAt), id, root);
    }
  }

  /** What an event sends for a trace, and what it leaves: the summaries that waited are sent, except that
      starting the trace anew forgets them. */
  lemma EventMovesRoots(models: Models, s: State, op: Op, id: TraceId, root: Root)
    requires op.Receive? && forall t :: t in s.traces ==> s.traces[t].traceId == t
    ensures var sent := SentRoots(Emits(models, s, op), id, root); var kept := Kept(Apply(s, op), id, root);
      sent + kept == Kept(s, id, root) || sent + kept == []
  {
    if s.Sends(op.event) {
      OneRoot(s.Command(models, op.event, op.now, op.newId).value, id, root);
    }
  }

  lemma ExpiryMovesRoots(models: Models, s: State, op: Op, id: TraceId, root: Root)
    requires op.Expire? && Enabled(s, op) && forall t :: t in s.traces ==> s.traces[t].traceId == t
    ensures SentRoots(Emits(models, s, op), id, root) + Kept(Apply(s, op), id, root) == Kept(s, id, root)
  {
    if s.Expires(op.walk, op.now, op.clock) {
      s.ExpiredIsDistinct(op.walk, op.now);
      LastRoots(s, s.Expired(op.walk, op.now), s.Reported(), op.clock.value, id, root);
    }
  }

  lemma KeptAreLast(sent: seq<TraceIoSummary>, kept: seq<TraceIoSummary>, recorded: seq<TraceIoSummary>)
    requires |kept| <= 1 && IsSubsequence(sent + kept, recorded)
    ensures IsSubsequence(sent, recorded)
  {
    if kept == [] {
      assert sent + kept == sent;
    } else {
      assert sent + kept == sent + [kept[0]];
      Shorter(sent, kept[0], recorded);
    }
  }

  lemma RecordKeeps(s: State, op: Op, id: TraceId, root: Root)
    requires op.RecordIo?
    ensures var added := if op.id == id then RootOf(op.input, op.output, root) else [];
      Kept(Apply(s, op), id, root) == if added == [] then Kept(s, id, root) else if id in s.traces then added else []
  {
  }

  /** A new recording takes the place of the one that waits. */
  lemma RecordMovesRoots(
      sent: seq<TraceIoSummary>, kept: seq<TraceIoSummary>, added: seq<TraceIoSummary>, next: seq<TraceIoSummary>,
      recorded: seq<TraceIoSummary>)
    requires |kept| <= 1 && |added| <= 1 && IsSubsequence(sent + kept, recorded)
    requires if added == [] then next == kept else next == added || next == []
    ensures IsSubsequence(sent + next, recorded + added)
  {
    if added == [] {
      assert recorded + added == recorded;
    } else {
      KeptAreLast(sent, kept, recorded);
      Longer(sent, recorded, added[0]);
      assert added == [added[0]] && sent + [] == sent;
    }
  }

  /** A batch takes the recording that waits, or nothing. */
  lemma SendMovesRoots(
      sent: seq<TraceIoSummary>, kept: seq<TraceIoSummary>, emitted: seq<TraceIoSummary>, next: seq<TraceIoSummary>,
      recorded: seq<TraceIoSummary>)
    requires |kept| <= 1 && IsSubsequence(sent + kept, recorded)
    requires emitted + next == kept || emitted + next == []
    ensures IsSubsequence((sent + emitted) + next, recorded)
  {
    KeptAreLast(sent, kept, recorded);
    assert (sent + emitted) + next == sent + (emitted + next);
    assert sent + [] == sent;
  }

  lemma OpMovesRoots(models: Models, s: State, op: Op, id: TraceId, root: Root)
    requires Enabled(s, op) && !op.RecordIo? && forall t :: t in s.traces ==> s.traces[t].traceId == t
    ensures var emitted := SentRoots(Emits(models, s, op), id, root); var next := Kept(Apply(s, op), id, root);
      emitted + next == Kept(s, id, root) || emitted + next == []
  {
    if op.Receive? { EventMovesRoots(models, s, op, id, root); }
    if op.Expire? { ExpiryMovesRoots(models, s, op, id, root); }
  }

  lemma {:induction false} RootsAreRecorded(models: Models, ops: seq<Op>, id: TraceId, root: Root)
    requires IsRun(ops)
    ensures IsSubsequence(SentRoots(Sent(models, ops), id, root) + Kept(Run(ops), id, root), Recorded(ops, id, root))
  {
    if ops != [] {
      var before, op := ops[..|ops| - 1], ops[|ops| - 1];
      var s, sent, recorded := Run(before), SentRoots(Sent(models, before), id, root), Recorded(before, id, root);
      var kept, next := Kept(s, id, root), Kept(Apply(s, op), id, root);
      RootsAreRecorded(models, before, id, root);
      if op.RecordIo? {
        RecordKeeps(s, op, id, root);
        assert Sent(models, ops) == Sent(models, before);
        RecordMovesRoots(sent, kept, if op.id == id then RootOf(op.input, op.output, root) else [], next, recorded);
      } else {
        RunTracks(models, before);
        OpMovesRoots(models, s, op, id, root);
        RootsAppend(Sent(models, before), Emits(models, s, op), id, root);
        SendMovesRoots(sent, kept, SentRoots(Emits(models, s, op), id, root), next, recorded);
        assert recorded + [] == recorded;
      }
    }
  }

  /** Each summary that is sent for a trace was recorded for that trace, in the same order, and each
      recording is sent at most once. */
  lemma SummariesAreSentOnce(models: Models, ops: seq<Op>, id: TraceId, root: Root)
    requires IsRun(ops)
    ensures IsSubsequence(SentRoots(Sent(models, ops), id, root), Recorded(ops, id, root))
  {
    RootsAreRecorded(models, ops, id, root);
    KeptAreLast(SentRoots(Sent(models, ops), id, root), Kept(Run(ops), id, root), Recorded(ops, id, root));
  }

  /** Not every recording is sent: in any run, starting a trace that runs already sends a batch without
      summaries, and what the trace kept is gone. */
  lemma RestartForgets(models: Models, ops: seq<Op>, event: MonitorEvent, now: nat, newId: Uuid, root: Root)
    requires IsRun(ops) && event.RunStarted? && event.traceId in Run(ops).traces && Run(ops).deployment.Some?
    ensures var next := ops + [Receive(event, now, newId)];
      && IsRun(next) && |Sent(models, next)| == |Sent(models, ops)| + 1
      && SentRoots(Sent(models, next), event.traceId, root) == SentRoots(Sent(models, ops), event.traceId, root)
      && Kept(Run(next), event.traceId, root) == []
  {
    var op := Receive(event, now, newId);
    var batch := Run(ops).Command(models, event, now, newId).value;
    assert (ops + [op])[..|ops|] == ops;
    RootsAppend(Sent(models, ops), [batch], event.traceId, root);
    OneRoot(batch, event.traceId, root);
  }
}

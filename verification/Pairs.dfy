/** Which Started record a terminal record belongs to, over every run of a recorder in which ids are drawn
    afresh; the offsets may come in any order. */
module Pairs {
  import opened Outcomes
  import opened TraceIo
  import opened TelemetryEvents
  import opened Recorder
  import opened RecorderRuns

  // --- What a run reports -----------------------------------------------------------------------

  function Emits(s: State, op: Op): seq<TraceTelemetry> {
    match op
    case Provider(event, offset, newId) =>
      var record := s.Observed(event, offset, newId);
      if record.Some? then [record.value] else []
    case FailOpen(end, error) => FailedRecords(s.active, end, PublicError(error))
    case _ => []
  }

  function FailedRecords(open: seq<Observation>, end: nat, error: Option<string>): seq<TraceTelemetry> {
    if open == [] then [] else [FailedRecord(open[0], end, error)] + FailedRecords(open[1..], end, error)
  }

  /** Every record reported by the run, kept in the buffer or not. */
  function History(begin: State, ops: seq<Op>): seq<TraceTelemetry> {
    if ops == [] then []
    else History(begin, ops[..|ops| - 1]) + Emits(Run(begin, ops[..|ops| - 1]), ops[|ops| - 1])
  }

  /** The ids handed to a run. */
  function Used(ops: seq<Op>): set<Uuid> {
    if ops == [] then {}
    else Used(ops[..|ops| - 1]) + (if ops[|ops| - 1].Provider? then {ops[|ops| - 1].newId} else {})
  }

  /** Ids are drawn afresh. */
  predicate Fresh(ops: seq<Op>) {
    ops == [] ||
    var before := ops[..|ops| - 1];
    Fresh(before) && (ops[|ops| - 1].Provider? ==> ops[|ops| - 1].newId !in Used(before))
  }

  // --- Paired records ---------------------------------------------------------------------------

  predicate AllStages(hist: seq<TraceTelemetry>) {
    forall i :: 0 <= i < |hist| ==> hist[i].ProviderStage? && (hist[i].Closes() ==> hist[i].end.Some?)
  }

  predicate Announced(hist: seq<TraceTelemetry>, id: Uuid) {
    exists i :: 0 <= i < |hist| && hist[i].Opens() && hist[i].id == id
  }

  /** Record `i` opens an observation that no record has closed. */
  predicate OpenAt(hist: seq<TraceTelemetry>, i: nat) {
    i < |hist| && hist[i].Opens() && forall j :: i < j < |hist| && hist[j].Closes() ==> hist[j].id != hist[i].id
  }

  predicate SameSpan(s: TraceTelemetry, t: TraceTelemetry) {
    s.ProviderStage? && t.ProviderStage? && t.id == s.id && t.stage == s.stage && t.start == s.start
  }

  /** Records under the id of a Started record are of its stage and have its start; a closed id is not used
      again; and while a stage is open, a terminal record of the stage is that of the open observation. */
  predicate ArePaired(hist: seq<TraceTelemetry>)
    requires AllStages(hist)
  {
    && (forall i, k :: 0 <= i < k < |hist| && hist[i].Opens() && hist[k].id == hist[i].id ==> SameSpan(hist[i], hist[k]))
    && (forall i, k :: 0 <= i < k < |hist| && hist[i].Closes() ==> hist[k].id != hist[i].id)
    && (forall i, k :: 0 <= i < k < |hist| && OpenAt(hist[..k], i) && hist[k].Closes() && hist[k].stage == hist[i].stage ==>
          SameSpan(hist[i], hist[k]))
  }

  predicate Matches(t: TraceTelemetry, o: Observation) {
    t.ProviderStage? && t.id == o.id && t.stage == o.stage && t.start == o.start
  }

  predicate HasId(active: seq<Observation>, id: Uuid) {
    exists j :: 0 <= j < |active| && active[j].id == id
  }

  /** Every open observation was announced, under an id that no terminal record has. */
  predicate Identified(hist: seq<TraceTelemetry>, active: seq<Observation>, used: set<Uuid>) {
    && AllStages(hist)
    && ArePaired(hist)
    && OnePerStage(active)
    && (forall i :: 0 <= i < |hist| ==> hist[i].id in used)
    && (forall j :: 0 <= j < |active| ==> active[j].id in used)
    && (forall i, j :: 0 <= i < j < |active| ==> active[i].id != active[j].id)
    && (forall j :: 0 <= j < |active| ==> Announced(hist, active[j].id))
    && (forall i, j :: 0 <= i < |hist| && 0 <= j < |active| && hist[i].id == active[j].id ==>
          hist[i].Opens() && Matches(hist[i], active[j]))
  }

  /** What was opened and not closed is still among the open observations. */
  predicate Complete(hist: seq<TraceTelemetry>, active: seq<Observation>) {
    forall i :: 0 <= i < |hist| && OpenAt(hist, i) ==> HasId(active, hist[i].id)
  }

  lemma MoreIds(hist: seq<TraceTelemetry>, active: seq<Observation>, used: set<Uuid>, more: set<Uuid>)
    requires Identified(hist, active, used) && used <= more
    ensures Identified(hist, active, more)
  {
  }

  // --- One more record --------------------------------------------------------------------------

  /** The demands on one new record. */
  lemma PairedExtension(hist: seq<TraceTelemetry>, t: TraceTelemetry)
    requires AllStages(hist) && ArePaired(hist)
    requires t.ProviderStage? && (t.Closes() ==> t.end.Some?)
    requires forall i :: 0 <= i < |hist| && hist[i].id == t.id ==> hist[i].Opens() && SameSpan(hist[i], t)
    requires t.Closes() ==> forall i :: 0 <= i < |hist| && OpenAt(hist, i) && hist[i].stage == t.stage ==> hist[i].id == t.id
    ensures AllStages(hist + [t]) && ArePaired(hist + [t])
  {
    var h := hist + [t];
    assert h[..|hist|] == hist;
    assert forall k :: 0 <= k < |hist| ==> h[..k] == hist[..k] && h[k] == hist[k];
  }

  lemma AnnouncedStays(hist: seq<TraceTelemetry>, active: seq<Observation>, t: TraceTelemetry)
    ensures forall j :: 0 <= j < |active| && Announced(hist, active[j].id) ==> Announced(hist + [t], active[j].id)
  {
    forall j | 0 <= j < |active| && Announced(hist, active[j].id)
      ensures Announced(hist + [t], active[j].id)
    {
      var i :| 0 <= i < |hist| && hist[i].Opens() && hist[i].id == active[j].id;
      assert (hist + [t])[i] == hist[i];
    }
  }

  lemma OpenBefore(hist: seq<TraceTelemetry>, t: TraceTelemetry, i: nat)
    requires i < |hist| && OpenAt(hist + [t], i)
    ensures OpenAt(hist, i) && (t.Closes() ==> t.id != hist[i].id)
  {
    var h := hist + [t];
    assert h[|hist|] == t;
    assert forall j :: 0 <= j < |hist| ==> h[j] == hist[j];
  }

  /** An open observation of the history, and the entry that stands for it. */
  lemma OpenEntry(hist: seq<TraceTelemetry>, active: seq<Observation>, used: set<Uuid>, i: nat) returns (j: nat)
    requires Identified(hist, active, used) && Complete(hist, active) && OpenAt(hist, i)
    ensures j < |active| && active[j].id == hist[i].id && Matches(hist[i], active[j])
  {
    j :| 0 <= j < |active| && active[j].id == hist[i].id;
  }

  lemma OpenNew(hist: seq<TraceTelemetry>, active: seq<Observation>, used: set<Uuid>, t: TraceTelemetry, o: Observation)
    requires Identified(hist, active, used)
    requires t.Opens() && Matches(t, o) && o.id !in used
    requires forall j :: 0 <= j < |active| ==> active[j].stage != o.stage
    ensures Identified(hist + [t], active + [o], used + {o.id})
  {
    PairedExtension(hist, t);
    AnnouncedStays(hist, active, t);
    assert (hist + [t])[|hist|] == t;
  }

  lemma OpenAgain(hist: seq<TraceTelemetry>, active: seq<Observation>, used: set<Uuid>, t: TraceTelemetry, index: nat)
    requires Identified(hist, active, used)
    requires index < |active| && t.Opens() && Matches(t, active[index])
    ensures Identified(hist + [t], active, used)
  {
    PairedExtension(hist, t);
    AnnouncedStays(hist, active, t);
  }

  /** Opening keeps what is open among the observations. */
  lemma OpeningIsComplete(hist: seq<TraceTelemetry>, active: seq<Observation>, next: seq<Observation>, t: TraceTelemetry)
    requires t.ProviderStage? && Complete(hist, active) && HasId(next, t.id)
    requires forall id :: HasId(active, id) ==> HasId(next, id)
    ensures Complete(hist + [t], next)
  {
    forall i | 0 <= i < |hist + [t]| && OpenAt(hist + [t], i)
      ensures HasId(next, (hist + [t])[i].id)
    {
      if i < |hist| { OpenBefore(hist, t, i); }
    }
  }

  function Without(active: seq<Observation>, index: nat): seq<Observation>
    requires index < |active|
  {
    active[..index] + active[index + 1..]
  }

  lemma WithoutEntries(active: seq<Observation>, index: nat)
    requires index < |active|
    ensures forall j :: 0 <= j < |Without(active, index)| ==> Without(active, index)[j] == active[if j < index then j else j + 1]
    ensures forall id :: HasId(active, id) && id != active[index].id ==> HasId(Without(active, index), id)
  {
    forall id | HasId(active, id) && id != active[index].id
      ensures HasId(Without(active, index), id)
    {
      var j :| 0 <= j < |active| && active[j].id == id;
      assert Without(active, index)[if j < index then j else j - 1] == active[j];
    }
  }

  /** A terminal record of an open observation is the one that the open Started record waits for. */
  lemma ClosesItsOwn(hist: seq<TraceTelemetry>, active: seq<Observation>, used: set<Uuid>, t: TraceTelemetry, index: nat)
    requires Identified(hist, active, used) && Complete(hist, active)
    requires index < |active| && Matches(t, active[index])
    ensures forall i :: 0 <= i < |hist| && OpenAt(hist, i) && hist[i].stage == t.stage ==> hist[i].id == t.id
  {
    forall i | 0 <= i < |hist| && OpenAt(hist, i) && hist[i].stage == t.stage
      ensures hist[i].id == t.id
    {
      var j := OpenEntry(hist, active, used, i);
      assert active[j].stage == active[index].stage;
    }
  }

  lemma CloseOne(hist: seq<TraceTelemetry>, active: seq<Observation>, used: set<Uuid>, t: TraceTelemetry, index: nat)
    requires Identified(hist, active, used) && Complete(hist, active)
    requires index < |active| && t.Closes() && t.end.Some? && Matches(t, active[index])
    ensures Identified(hist + [t], Without(active, index), used)
  {
    ClosesItsOwn(hist, active, used, t, index);
    PairedExtension(hist, t);
    WithoutEntries(active, index);
    AnnouncedStays(hist, Without(active, index), t);
  }

  lemma ClosingIsComplete(hist: seq<TraceTelemetry>, active: seq<Observation>, t: TraceTelemetry, index: nat)
    requires Complete(hist, active) && index < |active| && t.Closes() && t.id == active[index].id
    ensures Complete(hist + [t], Without(active, index))
  {
    WithoutEntries(active, index);
    forall i | 0 <= i < |hist + [t]| && OpenAt(hist + [t], i)
      ensures HasId(Without(active, index), (hist + [t])[i].id)
    {
      if i < |hist| { OpenBefore(hist, t, i); }
    }
  }

  lemma CloseUnopened(hist: seq<TraceTelemetry>, active: seq<Observation>, used: set<Uuid>, t: TraceTelemetry)
    requires Identified(hist, active, used) && Complete(hist, active)
    requires t.Closes() && t.end.Some? && t.id !in used
    requires forall j :: 0 <= j < |active| ==> active[j].stage != t.stage
    ensures Identified(hist + [t], active, used + {t.id})
  {
    NothingToClose(hist, active, used, t);
    PairedExtension(hist, t);
    AnnouncedStays(hist, active, t);
  }

  lemma NothingToClose(hist: seq<TraceTelemetry>, active: seq<Observation>, used: set<Uuid>, t: TraceTelemetry)
    requires Identified(hist, active, used) && Complete(hist, active)
    requires t.ProviderStage? && forall j :: 0 <= j < |active| ==> active[j].stage != t.stage
    ensures forall i :: 0 <= i < |hist| && OpenAt(hist, i) ==> hist[i].stage != t.stage
  {
    forall i | 0 <= i < |hist| && OpenAt(hist, i)
      ensures hist[i].stage != t.stage
    {
      var j := OpenEntry(hist, active, used, i);
    }
  }

  lemma UnopenedIsComplete(hist: seq<TraceTelemetry>, active: seq<Observation>, t: TraceTelemetry)
    requires Complete(hist, active) && t.Closes()
    ensures Complete(hist + [t], active)
  {
    forall i | 0 <= i < |hist + [t]| && OpenAt(hist + [t], i)
      ensures HasId(active, (hist + [t])[i].id)
    {
      if i < |hist| { OpenBefore(hist, t, i); }
    }
  }

  lemma Regroup(hist: seq<TraceTelemetry>, t: TraceTelemetry, rest: seq<TraceTelemetry>)
    ensures hist + [t] + rest == hist + ([t] + rest)
  {
  }

  lemma {:induction false} CloseAll(
      hist: seq<TraceTelemetry>, active: seq<Observation>, used: set<Uuid>, end: nat, error: Option<string>)
    requires Identified(hist, active, used) && Complete(hist, active)
    ensures Identified(hist + FailedRecords(active, end, error), [], used)
    ensures Complete(hist + FailedRecords(active, end, error), [])
    decreases active
  {
    if active == [] {
      assert hist + [] == hist;
    } else {
      var t := FailedRecord(active[0], end, error);
      CloseOne(hist, active, used, t, 0);
      ClosingIsComplete(hist, active, t, 0);
      assert Without(active, 0) == active[1..];
      CloseAll(hist + [t], active[1..], used, end, error);
      Regroup(hist, t, FailedRecords(active[1..], end, error));
    }
  }

  // --- Over a run -------------------------------------------------------------------------------

  /** A terminal record, which closes the open observation of its stage if there is one. */
  lemma TerminalKeepsPairs(hist: seq<TraceTelemetry>, active: seq<Observation>, used: set<Uuid>, t: TraceTelemetry, newId: Uuid)
    requires Identified(hist, active, used) && Complete(hist, active) && newId !in used
    requires t.Closes() && t.end.Some?
    requires var i := OpenIndex(active, t.stage);
      if i < |active| then t.id == active[i].id && t.start == active[i].start else t.id == newId
    ensures var i := OpenIndex(active, t.stage); var after := if i < |active| then Without(active, i) else active;
      Identified(hist + [t], after, used + {newId}) && Complete(hist + [t], after)
  {
    var i := OpenIndex(active, t.stage);
    if i < |active| {
      CloseOne(hist, active, used, t, i);
      MoreIds(hist + [t], Without(active, i), used, used + {newId});
      ClosingIsComplete(hist, active, t, i);
    } else {
      CloseUnopened(hist, active, used, t);
      UnopenedIsComplete(hist, active, t);
    }
  }

  /** A Started record, of an observation that is open or of a new one. */
  lemma StartKeepsPairs(hist: seq<TraceTelemetry>, active: seq<Observation>, used: set<Uuid>, t: TraceTelemetry, o: Observation, newId: Uuid)
    requires Identified(hist, active, used) && Complete(hist, active) && t.Opens() && Matches(t, o) && newId !in used
    requires var i := OpenIndex(active, t.stage); if i < |active| then o == active[i] else o.id == newId
    ensures var after := if OpenIndex(active, t.stage) < |active| then active else active + [o];
      Identified(hist + [t], after, used + {newId}) && Complete(hist + [t], after)
  {
    var i := OpenIndex(active, t.stage);
    if i < |active| {
      OpenAgain(hist, active, used, t, i);
      MoreIds(hist + [t], active, used, used + {newId});
      OpeningIsComplete(hist, active, active, t);
    } else {
      OpenNew(hist, active, used, t, o);
      EntriesStay(active, o);
      OpeningIsComplete(hist, active, active + [o], t);
    }
  }

  lemma ProviderKeepsPairs(hist: seq<TraceTelemetry>, s: State, used: set<Uuid>, event: ProviderEvent, offset: nat, newId: Uuid)
    requires Identified(hist, s.active, used) && Complete(hist, s.active)
    requires newId !in used && s.Observed(event, offset, newId).Some?
    ensures var h := hist + [s.Observed(event, offset, newId).value]; var active := s.ActiveAfter(event, offset, newId);
      Identified(h, active, used + {newId}) && Complete(h, active)
  {
    var t, i := s.Observed(event, offset, newId).value, OpenIndex(s.active, event.stage);
    if event.StageStarted? {
      var o := if i < |s.active| then s.active[i] else Observation(event.stage, newId, offset);
      StartKeepsPairs(hist, s.active, used, t, o, newId);
    } else {
      TerminalKeepsPairs(hist, s.active, used, t, newId);
    }
  }

  lemma EntriesStay(active: seq<Observation>, o: Observation)
    ensures HasId(active + [o], o.id) && forall id :: HasId(active, id) ==> HasId(active + [o], id)
  {
    assert (active + [o])[|active|] == o;
    forall id | HasId(active, id)
      ensures HasId(active + [o], id)
    {
      var j :| 0 <= j < |active| && active[j].id == id;
      assert (active + [o])[j] == active[j];
    }
  }

  lemma {:induction false} RunKeepsPairs(begin: State, ops: seq<Op>)
    requires begin.active == [] && Fresh(ops)
    ensures Identified(History(begin, ops), Run(begin, ops).active, Used(ops))
    ensures !Run(begin, ops).isSealed ==> Complete(History(begin, ops), Run(begin, ops).active)
    ensures Run(begin, ops).isSealed ==> Run(begin, ops).active == []
  {
    if ops != [] {
      var before, op := ops[..|ops| - 1], ops[|ops| - 1];
      RunKeepsPairs(begin, before);
      OpKeepsPairs(History(begin, before), Run(begin, before), Used(before), op);
      assert Used(ops) == Used(before) + (if op.Provider? then {op.newId} else {});
    }
  }

  lemma OpKeepsPairs(hist: seq<TraceTelemetry>, s: State, used: set<Uuid>, op: Op)
    requires Identified(hist, s.active, used) && (op.Provider? ==> op.newId !in used)
    requires if s.isSealed then s.active == [] else Complete(hist, s.active)
    ensures var h, r := hist + Emits(s, op), Apply(s, op);
      && Identified(h, r.active, used + (if op.Provider? then {op.newId} else {}))
      && (if r.isSealed then r.active == [] else Complete(h, r.active))
  {
    assert hist + [] == hist && used + {} == used;
    if op.Provider? {
      if s.Observed(op.event, op.offset, op.newId).Some? {
        ProviderKeepsPairs(hist, s, used, op.event, op.offset, op.newId);
      } else {
        MoreIds(hist, s.active, used, used + {op.newId});
      }
    } else if op.FailOpen? {
      if !s.isSealed { CloseAll(hist, s.active, used, op.failEnd, PublicError(op.failError)); }
      PushFailedKeeps(s.(active := []), s.active, op.failEnd, PublicError(op.failError));
    }
  }

  /** In every run a terminal record carries the id, stage and start of the Started record that is open for
      its stage, and a reopened stage has an id of its own. */
  lemma ReportedRecordsArePaired(providerKey: string, capability: string, model: Option<string>, ops: seq<Op>)
    requires Fresh(ops)
    ensures var hist := History(Begin(providerKey, capability, model), ops); AllStages(hist) && ArePaired(hist)
  {
    RunKeepsPairs(Begin(providerKey, capability, model), ops);
  }
}

/** Failed records over whole runs of a recorder: the open observations always have ids of their own, so
    the condition for their records to be kept applies in every state that a run reaches. */
module TerminalRuns {
  import opened Outcomes
  import opened TraceIo
  import opened TelemetryEvents
  import opened Recorder
  import opened RecorderRuns
  import opened TerminalSurvival
  import opened Pairs

  /** The terminal records in the buffer have ids of their own, apart from the open observations. */
  predicate Distinct(s: State, used: set<Uuid>) {
    && FreshlyOpen(s.events, s.active)
    && (forall i :: 0 <= i < |s.events| && s.events[i].Closes() ==> s.events[i].id in used)
    && (forall j :: 0 <= j < |s.active| ==> s.active[j].id in used)
  }

  lemma PushTerminalIsDistinct(s: State, open: seq<Observation>, used: set<Uuid>, end: nat, error: Option<string>)
    requires open != [] && FreshlyOpen(s.events, open) && open[0].id in used
    requires forall i :: 0 <= i < |s.events| && s.events[i].Closes() ==> s.events[i].id in used
    ensures var r := s.PushTerminal(FailedRecord(open[0], end, error)).events;
      && FreshlyOpen(r, open[1..])
      && forall i :: 0 <= i < |r| && r[i].Closes() ==> r[i].id in used
  {
  }

  lemma {:induction false} PushFailedIsDistinct(s: State, open: seq<Observation>, used: set<Uuid>, end: nat,
                                                error: Option<string>)
    requires FreshlyOpen(s.events, open)
    requires forall j :: 0 <= j < |open| ==> open[j].id in used
    requires forall i :: 0 <= i < |s.events| && s.events[i].Closes() ==> s.events[i].id in used
    ensures var r := s.PushFailed(open, end, error).events;
      FreshlyOpen(r, []) && forall i :: 0 <= i < |r| && r[i].Closes() ==> r[i].id in used
    decreases open
  {
    if open != [] {
      PushTerminalIsDistinct(s, open, used, end, error);
      PushFailedIsDistinct(s.PushTerminal(FailedRecord(open[0], end, error)), open[1..], used, end, error);
    }
  }

  lemma RecordIsDistinct(s: State, used: set<Uuid>, event: ProviderEvent, offset: nat, newId: Uuid)
    requires Distinct(s, used) && newId !in used
    ensures Distinct(s.Record(event, offset, newId), used + {newId})
  {
    if s.Observed(event, offset, newId).Some? {
      RecordKeepsOpen(s, used, event, offset, newId);
      var t := s.Observed(event, offset, newId).value;
      var next := s.(active := s.ActiveAfter(event, offset, newId));
      var r := next.Push(t);
      assert forall i :: 0 <= i < |r.events| ==> r.events[i] == if i < |s.events| then s.events[i] else t;
    }
  }

  /** The open observations keep ids apart from each other, from the terminal records in the buffer and
      from the new record, if it is terminal. */
  lemma RecordKeepsOpen(s: State, used: set<Uuid>, event: ProviderEvent, offset: nat, newId: Uuid)
    requires Distinct(s, used) && newId !in used && s.Observed(event, offset, newId).Some?
    ensures var active := s.ActiveAfter(event, offset, newId); var t := s.Observed(event, offset, newId).value;
      && FreshlyOpen(s.events, active)
      && (forall j :: 0 <= j < |active| ==> active[j].id in used + {newId})
      && (t.Closes() ==> t.id in used + {newId} && forall j :: 0 <= j < |active| ==> active[j].id != t.id)
  {
    var i := OpenIndex(s.active, event.stage);
    if event.StageStarted? {
      if i >= |s.active| { NewIdIsDistinct(s, used, Observation(event.stage, newId, offset)); }
    } else {
      if i < |s.active| {
        ClosedIdIsGone(s, used, i);
        assert s.ActiveAfter(event, offset, newId) == Without(s.active, i);
      } else {
        assert s.ActiveAfter(event, offset, newId) == s.active;
      }
    }
  }

  lemma NewIdIsDistinct(s: State, used: set<Uuid>, o: Observation)
    requires Distinct(s, used) && o.id !in used
    ensures FreshlyOpen(s.events, s.active + [o])
    ensures forall j :: 0 <= j < |s.active + [o]| ==> (s.active + [o])[j].id in used + {o.id}
  {
  }

  lemma ClosedIdIsGone(s: State, used: set<Uuid>, index: nat)
    requires Distinct(s, used) && index < |s.active|
    ensures FreshlyOpen(s.events, Without(s.active, index)) && s.active[index].id in used
    ensures forall j :: 0 <= j < |Without(s.active, index)| ==>
      Without(s.active, index)[j].id in used && Without(s.active, index)[j].id != s.active[index].id
  {
    WithoutEntries(s.active, index);
  }

  lemma {:induction false} RunIsDistinct(begin: State, ops: seq<Op>)
    requires Distinct(begin, {}) && Fresh(ops)
    ensures Distinct(Run(begin, ops), Used(ops))
  {
    if ops != [] {
      var before, op := ops[..|ops| - 1], ops[|ops| - 1];
      RunIsDistinct(begin, before);
      var s := Run(begin, before);
      match op
      case Provider(event, offset, newId) =>
        RecordIsDistinct(s, Used(before), event, offset, newId);
      case FailOpen(end, error) =>
        assert Used(ops) == Used(before);
        PushFailedIsDistinct(s.(active := []), s.active, Used(before), end, PublicError(error));
        PushFailedKeeps(s.(active := []), s.active, end, PublicError(error));
      case _ =>
        assert Used(ops) == Used(before);
    }
  }

  /** Whenever a run fails its open observations, every one of them leaves its Failed record in the
      buffer exactly when the Failed records fit. */
  lemma RunTerminalsSurvive(
      providerKey: string, capability: string, model: Option<string>, ops: seq<Op>, end: nat, error: Option<string>)
    requires Fresh(ops) && !Run(Begin(providerKey, capability, model), ops).isSealed
    ensures var s := Run(Begin(providerKey, capability, model), ops);
      && |s.events| <= MAX_EVENTS
      && |s.FailActive(end, error).events| <= MAX_EVENTS
      && (AllSurvive(s.FailActive(end, error).events, s.active, end, PublicError(error))
          <==> FailedRecordsFit(s.events, |s.active|))
  {
    RunIsDistinct(Begin(providerKey, capability, model), ops);
    RunIsAccounted(providerKey, capability, model, ops);
    TerminalsSurvive(Run(Begin(providerKey, capability, model), ops), end, error);
  }
}

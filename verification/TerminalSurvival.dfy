/** When an invocation fails, every open observation should leave a Failed record although the buffer
    is bounded. Here is exactly when it does. */
module TerminalSurvival {
  import opened Outcomes
  import opened TelemetryEvents
  import opened Recorder

  function StartedCount(events: seq<TraceTelemetry>): nat {
    if events == [] then 0
    else StartedCount(events[..|events| - 1]) + (if events[|events| - 1].Opens() then 1 else 0)
  }

  /** The free slots, and the Started records that may give way. */
  function Room(events: seq<TraceTelemetry>): nat
    requires |events| <= MAX_EVENTS
  {
    MAX_EVENTS - |events| + StartedCount(events)
  }

  predicate IsBuffer(events: seq<TraceTelemetry>) {
    1 <= |events| <= MAX_EVENTS && events[0].InvocationStarted?
  }

  /** The observations have ids of their own, none has a terminal record yet, and no id has two. */
  predicate FreshlyOpen(events: seq<TraceTelemetry>, open: seq<Observation>) {
    && (forall i, j :: 0 <= i < j < |open| ==> open[i].id != open[j].id)
    && (forall i, j :: 0 <= i < |events| && events[i].Closes() && 0 <= j < |open| ==> events[i].id != open[j].id)
    && (forall i, j :: 0 <= i < j < |events| && events[i].Closes() && events[j].Closes() ==> events[i].id != events[j].id)
  }

  predicate AllSurvive(events: seq<TraceTelemetry>, open: seq<Observation>, end: nat, error: Option<string>) {
    forall i :: 0 <= i < |open| ==> FailedRecord(open[i], end, error) in events
  }

  // --- Counting Started records -----------------------------------------------------------------

  lemma {:induction false} ReplaceStarted(events: seq<TraceTelemetry>, v: nat, event: TraceTelemetry)
    requires v < |events| && !event.Opens()
    ensures StartedCount(events[v := event]) == StartedCount(events) - (if events[v].Opens() then 1 else 0)
  {
    var n := |events| - 1;
    if v == n {
      assert events[v := event][..n] == events[..n];
    } else {
      ReplaceStarted(events[..n], v, event);
      assert events[v := event][..n] == events[..n][v := event];
    }
  }

  lemma {:induction false} NoStarted(events: seq<TraceTelemetry>)
    ensures StartedCount(events) == 0 <==> forall i :: 0 <= i < |events| ==> !events[i].Opens()
  {
    if events != [] {
      NoStarted(events[..|events| - 1]);
    }
  }

  // --- One terminal record ----------------------------------------------------------------------

  lemma PushWithRoom(s: State, event: TraceTelemetry)
    requires IsBuffer(s.events) && event.Closes() && Room(s.events) > 0
    ensures var r := s.PushTerminal(event).events;
      && IsBuffer(r) && Room(r) == Room(s.events) - 1
      && |s.events| <= |r|
      && event in r
      && (forall i :: 0 <= i < |s.events| && !s.events[i].Opens() ==> r[i] == s.events[i])
      && (forall i :: 0 <= i < |r| ==> r[i] == event || (i < |s.events| && r[i] == s.events[i]))
      && (|s.events| < MAX_EVENTS ==> r == s.events + [event])
  {
    var r := s.PushTerminal(event).events;
    if |s.events| < MAX_EVENTS {
      assert r[..|s.events|] == s.events;
      assert r[|s.events|] == event;
    } else {
      NoStarted(s.events);
      var v := Victim(s.events, event);
      ReplaceStarted(s.events, v, event);
      assert r[v] == event;
    }
  }

  lemma PushWithoutRoom(s: State, event: TraceTelemetry)
    requires IsBuffer(s.events) && event.Closes() && Room(s.events) == 0
    ensures s.PushTerminal(event).events == s.events[1 := event]
    ensures IsBuffer(s.events[1 := event]) && Room(s.events[1 := event]) == 0
  {
    NoStarted(s.events);
    ReplaceStarted(s.events, 1, event);
  }

  lemma FreshStaysFresh(events: seq<TraceTelemetry>, r: seq<TraceTelemetry>, open: seq<Observation>, end: nat,
                        error: Option<string>)
    requires open != [] && FreshlyOpen(events, open) && IsBuffer(events) && Room(events) > 0
    requires r == State(events, [], 0, None, None, false).PushTerminal(FailedRecord(open[0], end, error)).events
    ensures FreshlyOpen(r, open[1..])
  {
    PushWithRoom(State(events, [], 0, None, None, false), FailedRecord(open[0], end, error));
  }

  // --- All of them ------------------------------------------------------------------------------

  /** With room for all, every terminal record is kept, and no other record but Started ones gives way. */
  lemma {:induction false} AllFit(s: State, open: seq<Observation>, end: nat, error: Option<string>)
    requires IsBuffer(s.events) && |open| <= Room(s.events)
    ensures var r := s.PushFailed(open, end, error).events;
      && IsBuffer(r) && Room(r) == Room(s.events) - |open|
      && |s.events| <= |r|
      && AllSurvive(r, open, end, error)
      && (forall i :: 0 <= i < |s.events| && !s.events[i].Opens() ==> r[i] == s.events[i])
      && (|s.events| == 1 && |open| > 0 ==> r[1] == FailedRecord(open[0], end, error))
    decreases open
  {
    if open != [] {
      var event := FailedRecord(open[0], end, error);
      var next := s.PushTerminal(event);
      PushWithRoom(s, event);
      AllFit(next, open[1..], end, error);
      var r := s.PushFailed(open, end, error).events;
      var i :| 0 <= i < |next.events| && next.events[i] == event;
      assert r[i] == event;
      forall j | 0 <= j < |open|
        ensures FailedRecord(open[j], end, error) in r
      {
        if j > 0 { assert open[1..][j - 1] == open[j]; }
      }
    }
  }

  predicate IsFailedOf(t: TraceTelemetry, open: seq<Observation>, end: nat, error: Option<string>) {
    exists j :: 0 <= j < |open| && t == FailedRecord(open[j], end, error)
  }

  lemma FailedOfTail(t: TraceTelemetry, open: seq<Observation>, end: nat, error: Option<string>)
    requires open != [] && IsFailedOf(t, open[1..], end, error)
    ensures IsFailedOf(t, open, end, error)
  {
    var j :| 0 <= j < |open[1..]| && t == FailedRecord(open[1..][j], end, error);
    assert open[1..][j] == open[j + 1];
  }

  /** Where the records of the result come from, and that each terminal record is there once. */
  lemma {:induction false} Sources(s: State, open: seq<Observation>, end: nat, error: Option<string>)
    requires IsBuffer(s.events) && |open| <= Room(s.events) && FreshlyOpen(s.events, open)
    ensures FreshlyOpen(s.PushFailed(open, end, error).events, [])
    ensures ComesFrom(s.events, s.PushFailed(open, end, error).events, open, end, error)
    decreases open
  {
    if open != [] {
      var event := FailedRecord(open[0], end, error);
      var next := s.PushTerminal(event);
      PushWithRoom(s, event);
      FreshStaysFresh(s.events, next.events, open, end, error);
      Sources(next, open[1..], end, error);
      ComesFromFirst(s.events, next.events, s.PushFailed(open, end, error).events, open, end, error);
    }
  }

  lemma ComesFromFirst(
      events: seq<TraceTelemetry>, next: seq<TraceTelemetry>, r: seq<TraceTelemetry>, open: seq<Observation>, end: nat,
      error: Option<string>)
    requires open != [] && ComesFrom(next, r, open[1..], end, error)
    requires forall i :: 0 <= i < |next| ==>
      (i < |events| && next[i] == events[i]) || next[i] == FailedRecord(open[0], end, error)
    ensures ComesFrom(events, r, open, end, error)
  {
    forall i | 0 <= i < |r| && !(i < |events| && r[i] == events[i])
      ensures IsFailedOf(r[i], open, end, error)
    {
      if !(i < |next| && r[i] == next[i]) { FailedOfTail(r[i], open, end, error); }
    }
  }

  /** Without room, all the terminal records go to the one slot after the first record. */
  lemma {:induction false} AllInOneSlot(s: State, open: seq<Observation>, end: nat, error: Option<string>)
    requires IsBuffer(s.events) && Room(s.events) == 0 && open != []
    ensures s.PushFailed(open, end, error).events
         == s.events[1 := FailedRecord(open[|open| - 1], end, error)]
    decreases open
  {
    var event := FailedRecord(open[0], end, error);
    PushWithoutRoom(s, event);
    if |open| > 1 {
      AllInOneSlot(s.PushTerminal(event), open[1..], end, error);
    } else {
      assert open[1..] == [];
    }
  }

  lemma {:induction false} PushFailedSplit(
      s: State, a: seq<Observation>, b: seq<Observation>, end: nat, error: Option<string>)
    ensures s.PushFailed(a + b, end, error) == s.PushFailed(a, end, error).PushFailed(b, end, error)
    decreases a
  {
    if a == [] {
      assert a + b == b;
    } else {
      PushFailedSplit(s.PushTerminal(FailedRecord(a[0], end, error)), a[1..], b, end, error);
      assert (a + b)[1..] == a[1..] + b;
    }
  }

  predicate ComesFrom(events: seq<TraceTelemetry>, r: seq<TraceTelemetry>, open: seq<Observation>, end: nat,
                      error: Option<string>) {
    forall i :: 0 <= i < |r| ==>
      (i < |events| && r[i] == events[i]) || IsFailedOf(r[i], open, end, error)
  }

  /** The buffer once as many observations as there was room for have left their records. */
  predicate Filled(events: seq<TraceTelemetry>, full: seq<TraceTelemetry>, open: seq<Observation>, end: nat,
                   error: Option<string>) {
    && IsBuffer(full) && |events| <= |full| == MAX_EVENTS && StartedCount(full) == 0
    && FreshlyOpen(full, [])
    && ComesFrom(events, full, open, end, error)
    && AllSurvive(full, open, end, error)
    && (forall i :: 0 <= i < |events| && !events[i].Opens() ==> full[i] == events[i])
  }

  lemma Filling(s: State, open: seq<Observation>, end: nat, error: Option<string>)
    requires IsBuffer(s.events) && FreshlyOpen(s.events, open) && |open| == Room(s.events)
    ensures Filled(s.events, s.PushFailed(open, end, error).events, open, end, error)
    ensures |s.events| == 1 ==>
      open != [] && s.PushFailed(open, end, error).events[1] == FailedRecord(open[0], end, error)
  {
    AllFit(s, open, end, error);
    Sources(s, open, end, error);
    if |s.events| == 1 { assert s.events == [s.events[0]] && s.events[..0] == []; }
  }

  lemma Overflow(s: State, open: seq<Observation>, end: nat, error: Option<string>) returns (full: seq<TraceTelemetry>)
    requires IsBuffer(s.events) && FreshlyOpen(s.events, open) && |open| > Room(s.events)
    ensures Filled(s.events, full, open[..Room(s.events)], end, error)
    ensures |s.events| == 1 ==> full[1] == FailedRecord(open[0], end, error)
    ensures s.PushFailed(open, end, error).events == full[1 := FailedRecord(open[|open| - 1], end, error)]
  {
    var n := Room(s.events);
    full := s.PushFailed(open[..n], end, error).events;
    FreshPrefix(s.events, open, n);
    Filling(s, open[..n], end, error);
    FullThenSlot(s, open, n, end, error);
  }

  lemma FullThenSlot(s: State, open: seq<Observation>, n: nat, end: nat, error: Option<string>)
    requires n < |open|
    requires IsBuffer(s.PushFailed(open[..n], end, error).events) && Room(s.PushFailed(open[..n], end, error).events) == 0
    ensures s.PushFailed(open, end, error).events
         == s.PushFailed(open[..n], end, error).events[1 := FailedRecord(open[|open| - 1], end, error)]
  {
    assert open == open[..n] + open[n..];
    PushFailedSplit(s, open[..n], open[n..], end, error);
    AllInOneSlot(s.PushFailed(open[..n], end, error), open[n..], end, error);
  }

  lemma FreshPrefix(events: seq<TraceTelemetry>, open: seq<Observation>, n: nat)
    requires FreshlyOpen(events, open) && n <= |open|
    ensures FreshlyOpen(events, open[..n])
  {
  }

  /** The first record that finds no room is overwritten by the next one. */
  lemma FirstOverflowIsLost(events: seq<TraceTelemetry>, full: seq<TraceTelemetry>, open: seq<Observation>, room: nat,
                            end: nat, error: Option<string>)
    requires |full| == MAX_EVENTS && room + 1 < |open| && FreshlyOpen(events, open)
    requires ComesFrom(events, full, open[..room], end, error)
    ensures FailedRecord(open[room], end, error) !in full[1 := FailedRecord(open[|open| - 1], end, error)]
  {
    var lost := FailedRecord(open[room], end, error);
    forall i | 0 <= i < |full|
      ensures full[i] != lost
    {
    }
  }

  /** With one record too many, what matters is whether its slot holds one of the others. */
  lemma LastSlot(events: seq<TraceTelemetry>, full: seq<TraceTelemetry>, open: seq<Observation>, end: nat,
                 error: Option<string>)
    requires IsBuffer(events) && FreshlyOpen(events, open) && |open| == Room(events) + 1
    requires Filled(events, full, open[..Room(events)], end, error)
    requires |events| == 1 ==> full[1] == FailedRecord(open[0], end, error)
    ensures AllSurvive(full[1 := FailedRecord(open[|open| - 1], end, error)], open, end, error)
        <==> |events| > 1 && !events[1].Opens()
  {
    var room := Room(events);
    var event := FailedRecord(open[room], end, error);
    var last := full[1 := event];
    assert last[1] == event;
    if |events| > 1 && !events[1].Opens() {
      forall i | 0 <= i < |open|
        ensures FailedRecord(open[i], end, error) in last
      {
        if i < room {
          assert open[..room][i] == open[i];
          var k :| 0 <= k < |full| && full[k] == FailedRecord(open[i], end, error);
          assert last[k] == full[k];
        }
      }
    } else {
      SlotIsLost(events, full, open, end, error);
    }
  }

  lemma SlotIsLost(events: seq<TraceTelemetry>, full: seq<TraceTelemetry>, open: seq<Observation>, end: nat,
                   error: Option<string>)
    requires IsBuffer(events) && FreshlyOpen(events, open) && |open| == Room(events) + 1
    requires Filled(events, full, open[..Room(events)], end, error)
    requires |events| == 1 ==> full[1] == FailedRecord(open[0], end, error)
    requires |events| == 1 || events[1].Opens()
    ensures !AllSurvive(full[1 := FailedRecord(open[|open| - 1], end, error)], open, end, error)
  {
    NoStarted(full);
    assert exists j :: 0 <= j < Room(events) && full[1] == FailedRecord(open[j], end, error) by {
      if |events| == 1 {
        NoStarted(events);
        assert full[1] == FailedRecord(open[0], end, error);
      }
    }
    var j :| 0 <= j < Room(events) && full[1] == FailedRecord(open[j], end, error);
    var last := full[1 := FailedRecord(open[|open| - 1], end, error)];
    forall i | 0 <= i < |last|
      ensures last[i] != FailedRecord(open[j], end, error)
    {
      if i != 1 { assert last[i] == full[i] && full[1].Closes(); }
    }
    assert FailedRecord(open[j], end, error) !in last;
  }

  /** There is room for every terminal record, or for all but one and the slot that the last one takes
      holds neither a Started record nor one of the new terminal records. */
  predicate FailedRecordsFit(events: seq<TraceTelemetry>, count: nat)
    requires |events| <= MAX_EVENTS
  {
    count <= Room(events) || (count == Room(events) + 1 && |events| > 1 && !events[1].Opens())
  }

  /** The buffer stays within its limit, and every open observation leaves its Failed record, with its
      own id and start, exactly when the Failed records fit. */
  lemma TerminalsSurvive(s: State, end: nat, error: Option<string>)
    requires IsBuffer(s.events) && FreshlyOpen(s.events, s.active)
    ensures IsBuffer(s.FailActive(end, error).events)
    ensures AllSurvive(s.FailActive(end, error).events, s.active, end, PublicError(error))
        <==> FailedRecordsFit(s.events, |s.active|)
  {
    var bare, public := s.(active := []), PublicError(error);
    if |s.active| <= Room(s.events) {
      AllFit(bare, s.active, end, public);
    } else {
      var full := Overflow(bare, s.active, end, public);
      if |s.active| > Room(s.events) + 1 {
        FirstOverflowIsLost(s.events, full, s.active, Room(s.events), end, public);
        assert FailedRecord(s.active[Room(s.events)], end, public) !in bare.PushFailed(s.active, end, public).events;
      } else {
        LastSlot(s.events, full, s.active, end, public);
      }
    }
  }
}

/** Benchmark results as the route planner indexes them: per agent the passing candidates, one per
    provider, and the selection of the best one. */
module RouteCandidates {
  import opened Outcomes

  const U64_MAX: nat := 0xFFFF_FFFF_FFFF_FFFF

  datatype Outcome = Passed(median: nat, rss: Option<nat>) | Excluded

  datatype Evaluation = Evaluation(agent: string, provider: string, outcome: Outcome)

  datatype AgentCase = AgentCase(agent: string, current: string)

  /** Passing evaluations of one agent, one per provider. */
  type Candidates = seq<Evaluation>

  type Index = map<string, Candidates>

  predicate PassingFor(e: Evaluation, agent: string) {
    e.agent == agent && e.outcome.Passed?
  }

  ghost predicate GoodCandidates(c: Candidates, agent: string) {
    && (forall i :: 0 <= i < |c| ==> PassingFor(c[i], agent))
    && (forall i, j :: 0 <= i < j < |c| ==> c[i].provider != c[j].provider)
  }

  ghost predicate GoodIndex(index: Index) {
    forall agent :: agent in index ==> index[agent] != [] && GoodCandidates(index[agent], agent)
  }

  /** Where a provider's candidate is, or the length. */
  function ProviderIndex(c: Candidates, provider: string): (i: nat)
    ensures i <= |c|
    ensures i < |c| ==> c[i].provider == provider
    ensures forall j :: 0 <= j < i ==> c[j].provider != provider
  {
    if c == [] || c[0].provider == provider then 0 else 1 + ProviderIndex(c[1..], provider)
  }

  function EvaluationFor(index: Index, agent: string, provider: string): Option<Evaluation> {
    if agent !in index then None
    else
      var i := ProviderIndex(index[agent], provider);
      if i < |index[agent]| then Some(index[agent][i]) else None
  }

  // --- Building the index -----------------------------------------------------------------------

  /** Keep the lower median of two evaluations of one provider, and the earlier one of equals. */
  function Upsert(c: Candidates, e: Evaluation): Candidates
    requires e.outcome.Passed? && forall i :: 0 <= i < |c| ==> c[i].outcome.Passed?
  {
    var i := ProviderIndex(c, e.provider);
    if i == |c| then c + [e]
    else if e.outcome.median < c[i].outcome.median then c[i := e]
    else c
  }

  function CandidatesIn(index: Index, agent: string): Candidates {
    if agent in index then index[agent] else []
  }

  /** The passing evaluations by agent, taken in order. */
  function PassedIndex(evaluations: seq<Evaluation>): (index: Index)
    ensures GoodIndex(index)
  {
    if evaluations == [] then map[]
    else
      var index, e := PassedIndex(evaluations[..|evaluations| - 1]), evaluations[|evaluations| - 1];
      if e.outcome.Passed? then
        UpsertIsGood(CandidatesIn(index, e.agent), e);
        index[e.agent := Upsert(CandidatesIn(index, e.agent), e)]
      else index
  }

  method PassedByAgent(evaluations: seq<Evaluation>) returns (index: Index)
    ensures index == PassedIndex(evaluations)
  {
    index := map[];
    for n := 0 to |evaluations|
      invariant index == PassedIndex(evaluations[..n])
    {
      var e := evaluations[n];
      assert evaluations[..n + 1][..n] == evaluations[..n];
      if e.outcome.Passed? {
        var candidates := if e.agent in index then index[e.agent] else [];
        index := index[e.agent := Upsert(candidates, e)];
      }
    }
    assert evaluations[..|evaluations|] == evaluations;
  }

  /** The index holds, for exactly the agents with a passing evaluation, passing evaluations only, one
      per provider, and none with a higher median than a passing evaluation of the same pair. */
  ghost predicate IsIndexOf(index: Index, evaluations: seq<Evaluation>) {
    && GoodIndex(index)
    && (forall agent :: agent in index ==> forall i :: 0 <= i < |index[agent]| ==> index[agent][i] in evaluations)
    && (forall e :: e in evaluations && e.outcome.Passed? ==> Represented(index, e))
  }

  ghost predicate Represented(index: Index, e: Evaluation)
    requires e.outcome.Passed? && GoodIndex(index)
  {
    var best := EvaluationFor(index, e.agent, e.provider);
    best.Some? && best.value.outcome.median <= e.outcome.median
  }

  lemma ProviderAt(c: Candidates, agent: string, i: nat)
    requires GoodCandidates(c, agent) && i < |c|
    ensures ProviderIndex(c, c[i].provider) == i
  {
  }

  lemma UpsertIsGood(c: Candidates, e: Evaluation)
    requires e.outcome.Passed? && GoodCandidates(c, e.agent)
    ensures var r := Upsert(c, e);
      && r != [] && GoodCandidates(r, e.agent)
      && (forall i :: 0 <= i < |r| ==> r[i] == e || r[i] in c)
      && ProviderIndex(r, e.provider) < |r|
      && r[ProviderIndex(r, e.provider)].outcome.median <= e.outcome.median
      && (forall i :: 0 <= i < |c| ==> i < |r| && r[i].provider == c[i].provider && r[i].outcome.median <= c[i].outcome.median)
  {
    var r := Upsert(c, e);
    var i := ProviderIndex(c, e.provider);
    assert r[i].provider == e.provider;
    ProviderAt(r, e.agent, i);
  }

  lemma UpsertIndexes(index: Index, evaluations: seq<Evaluation>, e: Evaluation)
    requires IsIndexOf(index, evaluations) && e.outcome.Passed?
    ensures IsIndexOf(index[e.agent := Upsert(CandidatesIn(index, e.agent), e)], evaluations + [e])
  {
    var c := CandidatesIn(index, e.agent);
    var r := index[e.agent := Upsert(c, e)];
    UpsertIsGood(c, e);
    assert GoodIndex(r);
    forall agent, i | agent in r && 0 <= i < |r[agent]|
      ensures r[agent][i] in evaluations + [e]
    {
      if agent == e.agent && r[agent][i] != e { assert r[agent][i] in c; }
    }
    forall d | d in evaluations + [e] && d.outcome.Passed?
      ensures Represented(r, d)
    {
      StaysRepresented(index, evaluations, e, d);
    }
  }

  lemma StaysRepresented(index: Index, evaluations: seq<Evaluation>, e: Evaluation, d: Evaluation)
    requires IsIndexOf(index, evaluations) && e.outcome.Passed?
    requires d.outcome.Passed? && (d in evaluations || d == e)
    ensures var r := index[e.agent := Upsert(CandidatesIn(index, e.agent), e)];
      GoodIndex(r) && Represented(r, d)
  {
    var c := CandidatesIn(index, e.agent);
    var r := index[e.agent := Upsert(c, e)];
    UpsertIsGood(c, e);
    if d != e {
      assert Represented(index, d);
      if d.agent == e.agent { ProviderAt(r[e.agent], e.agent, ProviderIndex(c, d.provider)); }
    }
  }

  lemma SkipIndexes(index: Index, evaluations: seq<Evaluation>, e: Evaluation)
    requires IsIndexOf(index, evaluations) && !e.outcome.Passed?
    ensures IsIndexOf(index, evaluations + [e])
  {
    forall d | d in evaluations + [e] && d.outcome.Passed?
      ensures Represented(index, d)
    {
      assert d in evaluations;
    }
  }

  lemma {:induction false} PassedIndexIsIndex(evaluations: seq<Evaluation>)
    ensures IsIndexOf(PassedIndex(evaluations), evaluations)
  {
    if evaluations != [] {
      var front, e := evaluations[..|evaluations| - 1], evaluations[|evaluations| - 1];
      PassedIndexIsIndex(front);
      assert front + [e] == evaluations;
      if e.outcome.Passed? { UpsertIndexes(PassedIndex(front), front, e); } else { SkipIndexes(PassedIndex(front), front, e); }
    }
  }

  // --- Ties -------------------------------------------------------------------------------------

  predicate SamePair(a: Evaluation, b: Evaluation) {
    a.outcome.Passed? && b.outcome.Passed? && a.agent == b.agent && a.provider == b.provider
  }

  /** Evaluation `k` has the lowest median of its pair, and is the first that has it. */
  ghost predicate IsEarliestLowest(evaluations: seq<Evaluation>, k: nat)
    requires k < |evaluations|
  {
    evaluations[k].outcome.Passed? && forall j :: 0 <= j < |evaluations| && SamePair(evaluations[k], evaluations[j]) ==>
      || evaluations[k].outcome.median < evaluations[j].outcome.median
      || (evaluations[k].outcome.median == evaluations[j].outcome.median && k <= j)
  }

  ghost predicate IsEntry(evaluations: seq<Evaluation>, e: Evaluation) {
    exists k :: 0 <= k < |evaluations| && evaluations[k] == e && IsEarliestLowest(evaluations, k)
  }

  /** Where the first passing evaluation of a pair is, or the length. */
  function FirstOf(evaluations: seq<Evaluation>, agent: string, provider: string): (i: nat)
    ensures i <= |evaluations|
    ensures i < |evaluations| ==> PassingFor(evaluations[i], agent) && evaluations[i].provider == provider
    ensures forall j :: 0 <= j < i ==> !(PassingFor(evaluations[j], agent) && evaluations[j].provider == provider)
  {
    if evaluations == [] || (PassingFor(evaluations[0], agent) && evaluations[0].provider == provider) then 0
    else 1 + FirstOf(evaluations[1..], agent, provider)
  }

  lemma FirstOfStays(front: seq<Evaluation>, e: Evaluation, agent: string, provider: string)
    ensures FirstOf(front, agent, provider) < |front| ==> FirstOf(front + [e], agent, provider) == FirstOf(front, agent, provider)
    ensures FirstOf(front, agent, provider) == |front| && PassingFor(e, agent) && e.provider == provider ==>
      FirstOf(front + [e], agent, provider) == |front|
  {
    var i, k := FirstOf(front, agent, provider), FirstOf(front + [e], agent, provider);
    assert (front + [e])[..|front|] == front && (front + [e])[|front|] == e;
    assert i < |front| ==> (front + [e])[i] == front[i];
    assert forall j :: 0 <= j < |front| ==> (front + [e])[j] == front[j];
  }

  lemma EntryStays(front: seq<Evaluation>, e: Evaluation, old_: Evaluation)
    requires IsEntry(front, old_) && (SamePair(old_, e) ==> old_.outcome.median <= e.outcome.median)
    ensures IsEntry(front + [e], old_)
  {
    var k :| 0 <= k < |front| && front[k] == old_ && IsEarliestLowest(front, k);
    var all := front + [e];
    forall j | 0 <= j < |all| && SamePair(all[k], all[j])
      ensures || all[k].outcome.median < all[j].outcome.median
              || (all[k].outcome.median == all[j].outcome.median && k <= j)
    {
      if j < |front| { assert all[j] == front[j]; }
    }
    assert all[k] == old_ && IsEarliestLowest(all, k);
  }

  lemma NewEntry(front: seq<Evaluation>, e: Evaluation)
    requires e.outcome.Passed?
    requires forall j :: 0 <= j < |front| && SamePair(e, front[j]) ==> e.outcome.median < front[j].outcome.median
    ensures IsEntry(front + [e], e)
  {
    var all := front + [e];
    assert all[|front|] == e && forall j :: 0 <= j < |front| ==> all[j] == front[j];
    assert IsEarliestLowest(all, |front|);
  }

  /** The candidates of an agent: entries, and in the order in which their providers first passed. */
  ghost predicate InOrder(evaluations: seq<Evaluation>, agent: string, c: Candidates) {
    (forall i :: 0 <= i < |c| ==> c[i].agent == agent && IsEntry(evaluations, c[i])) && ByFirst(evaluations, agent, c)
  }

  function First(evaluations: seq<Evaluation>, agent: string): Evaluation -> int {
    (e: Evaluation) => FirstOf(evaluations, agent, e.provider)
  }

  predicate ByFirst(evaluations: seq<Evaluation>, agent: string, c: Candidates) {
    Increasing(c, First(evaluations, agent), |evaluations|)
  }

  lemma OthersStayInOrder(front: seq<Evaluation>, e: Evaluation, agent: string, c: Candidates)
    requires InOrder(front, agent, c) && forall i :: 0 <= i < |c| && SamePair(c[i], e) ==> c[i].outcome.median <= e.outcome.median
    ensures InOrder(front + [e], agent, c)
    ensures forall i :: 0 <= i < |c| ==> FirstOf(front + [e], agent, c[i].provider) < |front|
  {
    forall i | 0 <= i < |c|
      ensures IsEntry(front + [e], c[i])
      ensures FirstOf(front + [e], agent, c[i].provider) == FirstOf(front, agent, c[i].provider)
    {
      EntryStays(front, e, c[i]);
      FirstOfStays(front, e, agent, c[i].provider);
    }
  }

  lemma NoneBefore(front: seq<Evaluation>, e: Evaluation, c: Candidates)
    requires e.outcome.Passed? && ProviderIndex(c, e.provider) == |c|
    requires forall d :: d in front && d.outcome.Passed? && d.agent == e.agent ==> ProviderIndex(c, d.provider) < |c|
    ensures forall j :: 0 <= j < |front| ==> !SamePair(e, front[j])
    ensures FirstOf(front, e.agent, e.provider) == |front|
  {
    forall j | 0 <= j < |front|
      ensures !SamePair(e, front[j])
    {
      assert front[j] in front;
    }
  }

  lemma UpsertStaysInOrder(front: seq<Evaluation>, e: Evaluation, c: Candidates)
    requires e.outcome.Passed? && GoodCandidates(c, e.agent) && InOrder(front, e.agent, c)
    requires forall d :: d in front && d.outcome.Passed? && d.agent == e.agent ==> ProviderIndex(c, d.provider) < |c|
    ensures InOrder(front + [e], e.agent, Upsert(c, e))
  {
    var i := ProviderIndex(c, e.provider);
    if i == |c| {
      NoneBefore(front, e, c);
      AppendedInOrder(front, e, c);
    } else if e.outcome.median < c[i].outcome.median {
      LowerEntry(front, e, c[i]);
      ReplacedInOrder(front, e, c, i);
    } else {
      OthersStayInOrder(front, e, e.agent, c);
    }
  }

  lemma AppendedInOrder(front: seq<Evaluation>, e: Evaluation, c: Candidates)
    requires e.outcome.Passed? && InOrder(front, e.agent, c) && FirstOf(front, e.agent, e.provider) == |front|
    requires forall j :: 0 <= j < |front| ==> !SamePair(e, front[j])
    requires forall i :: 0 <= i < |c| ==> c[i].provider != e.provider
    ensures InOrder(front + [e], e.agent, c + [e])
  {
    NewEntry(front, e);
    OthersStayInOrder(front, e, e.agent, c);
    FirstOfStays(front, e, e.agent, e.provider);
    OneMoreByFirst(front + [e], c, e);
    forall i | 0 <= i < |c + [e]|
      ensures (c + [e])[i].agent == e.agent && IsEntry(front + [e], (c + [e])[i])
    {
      if i < |c| { assert (c + [e])[i] == c[i]; }
    }
  }

  lemma OneMoreByFirst(evaluations: seq<Evaluation>, c: Candidates, e: Evaluation)
    requires ByFirst(evaluations, e.agent, c)
    requires FirstOf(evaluations, e.agent, e.provider) < |evaluations|
    requires forall i :: 0 <= i < |c| ==>
      FirstOf(evaluations, e.agent, c[i].provider) < FirstOf(evaluations, e.agent, e.provider)
    ensures ByFirst(evaluations, e.agent, c + [e])
  {
    IncreasingAppend(c, e, First(evaluations, e.agent), |evaluations|);
  }

  predicate Increasing<T>(s: seq<T>, f: T -> int, limit: int) {
    (forall i :: 0 <= i < |s| ==> f(s[i]) < limit) && forall i, j :: 0 <= i < j < |s| ==> f(s[i]) < f(s[j])
  }

  lemma IncreasingAppend<T>(s: seq<T>, x: T, f: T -> int, limit: int)
    requires Increasing(s, f, limit) && f(x) < limit && forall i :: 0 <= i < |s| ==> f(s[i]) < f(x)
    ensures Increasing(s + [x], f, limit)
  {
  }

  lemma LowerEntry(front: seq<Evaluation>, e: Evaluation, old_: Evaluation)
    requires IsEntry(front, old_) && SamePair(old_, e) && e.outcome.median < old_.outcome.median
    ensures IsEntry(front + [e], e)
  {
    var k :| 0 <= k < |front| && front[k] == old_ && IsEarliestLowest(front, k);
    NewEntry(front, e);
  }

  lemma ReplacedInOrder(front: seq<Evaluation>, e: Evaluation, c: Candidates, at: nat)
    requires GoodCandidates(c, e.agent) && InOrder(front, e.agent, c) && at < |c| && SamePair(c[at], e)
    requires IsEntry(front + [e], e)
    ensures InOrder(front + [e], e.agent, c[at := e])
  {
    var r := c[at := e];
    forall i | 0 <= i < |r|
      ensures IsEntry(front + [e], r[i]) && r[i].provider == c[i].provider
      ensures FirstOf(front + [e], e.agent, r[i].provider) == FirstOf(front, e.agent, c[i].provider)
    {
      if i != at { EntryStays(front, e, c[i]); }
      FirstOfStays(front, e, e.agent, c[i].provider);
    }
  }

  /** Of equal evaluations of a pair the index keeps the first one, and it lists providers in the order in which
      they first passed. */
  lemma {:induction false} PassedIndexIsInOrder(evaluations: seq<Evaluation>)
    ensures forall agent :: agent in PassedIndex(evaluations) ==> InOrder(evaluations, agent, PassedIndex(evaluations)[agent])
  {
    if evaluations != [] {
      var front, e := evaluations[..|evaluations| - 1], evaluations[|evaluations| - 1];
      assert front + [e] == evaluations;
      PassedIndexIsInOrder(front);
      PassedIndexIsIndex(front);
      forall agent | agent in PassedIndex(evaluations)
        ensures InOrder(evaluations, agent, PassedIndex(evaluations)[agent])
      {
        StaysInOrder(front, e, PassedIndex(front), agent);
      }
    }
  }

  lemma StaysInOrder(front: seq<Evaluation>, e: Evaluation, index: Index, agent: string)
    requires IsIndexOf(index, front) && forall a :: a in index ==> InOrder(front, a, index[a])
    requires agent in index || (e.outcome.Passed? && agent == e.agent)
    ensures e.outcome.Passed? && agent == e.agent ==>
      GoodCandidates(CandidatesIn(index, agent), agent)
      && InOrder(front + [e], agent, Upsert(CandidatesIn(index, agent), e))
    ensures !(e.outcome.Passed? && agent == e.agent) ==> InOrder(front + [e], agent, index[agent])
  {
    if e.outcome.Passed? && agent == e.agent {
      forall d | d in front && d.outcome.Passed? && d.agent == e.agent
        ensures ProviderIndex(CandidatesIn(index, agent), d.provider) < |CandidatesIn(index, agent)|
      {
        assert Represented(index, d);
      }
      UpsertStaysInOrder(front, e, CandidatesIn(index, agent));
    } else {
      OthersStayInOrder(front, e, agent, index[agent]);
    }
  }

  // --- Selection --------------------------------------------------------------------------------

  datatype Order = Latency | Memory

  function Rss(e: Evaluation): nat
    requires e.outcome.Passed?
  {
    if e.outcome.rss.Some? then e.outcome.rss.value else U64_MAX
  }

  /** The strict order of candidates: lower latency, or lower memory and then lower latency. */
  predicate Precedes(order: Order, a: Evaluation, b: Evaluation)
    requires a.outcome.Passed? && b.outcome.Passed?
  {
    match order
    case Latency => a.outcome.median < b.outcome.median
    case Memory => Rss(a) < Rss(b) || (Rss(a) == Rss(b) && a.outcome.median < b.outcome.median)
  }

  predicate AllPassed(c: Candidates) {
    forall i :: 0 <= i < |c| ==> c[i].outcome.Passed?
  }

  /** The first of the best candidates. */
  function SelectIndex(c: Candidates, order: Order): (i: nat)
    requires c != [] && AllPassed(c)
    ensures i < |c|
    ensures forall j :: 0 <= j < |c| ==> !Precedes(order, c[j], c[i])
    ensures forall j :: 0 <= j < i ==> Precedes(order, c[i], c[j])
  {
    var n := |c| - 1;
    if n == 0 then 0
    else
      var best := SelectIndex(c[..n], order);
      if Precedes(order, c[n], c[best]) then n else best
  }

  function Select(c: Candidates, order: Order): Evaluation
    requires c != [] && AllPassed(c)
  {
    c[SelectIndex(c, order)]
  }

  /** What is selected: the least median, or the least memory and then the least median, where unknown memory counts
      as the most there can be; and the first of equals. */
  lemma SelectionIsFirstBest(c: Candidates, order: Order, j: nat)
    requires c != [] && AllPassed(c) && j < |c|
    ensures var i := SelectIndex(c, order); var median, rss := c[i].outcome.median, c[i].outcome.rss;
      && Select(c, order) == c[i]
      && (order == Latency ==> median <= c[j].outcome.median && (median == c[j].outcome.median ==> i <= j))
      && (order == Memory && c[j].outcome.rss == rss ==>
            median <= c[j].outcome.median && (median == c[j].outcome.median ==> i <= j))
      && (order == Memory && c[j].outcome.rss.Some? && c[j].outcome.rss.value < U64_MAX ==>
            rss.Some? && rss.value <= c[j].outcome.rss.value)
  {
    var i := SelectIndex(c, order);
    assert !Precedes(order, c[j], c[i]) && (j < i ==> Precedes(order, c[i], c[j]));
  }

  type Routes = map<string, string>

  function Agents(cases: seq<AgentCase>): set<string> {
    set c | c in cases :: c.agent
  }

  function SelectRoutes(cases: seq<AgentCase>, index: Index, order: Order): Routes
    requires GoodIndex(index)
  {
    map agent | agent in Agents(cases) && agent in index :: Select(index[agent], order).provider
  }

  // --- Optimality -------------------------------------------------------------------------------

  function Cost(order: Order, e: Evaluation): nat
    requires e.outcome.Passed?
  {
    if order == Latency then e.outcome.median else Rss(e)
  }

  /** The routes send every case's agent to a provider that passed for it. */
  ghost predicate Complete(cases: seq<AgentCase>, index: Index, routes: Routes) {
    forall i :: 0 <= i < |cases| ==>
      cases[i].agent in routes && EvaluationFor(index, cases[i].agent, routes[cases[i].agent]).Some?
  }

  function TotalCost(cases: seq<AgentCase>, index: Index, routes: Routes, order: Order): nat
    requires GoodIndex(index) && Complete(cases, index, routes)
  {
    if cases == [] then 0
    else
      var agent := cases[0].agent;
      Cost(order, EvaluationFor(index, agent, routes[agent]).value) + TotalCost(cases[1..], index, routes, order)
  }

  lemma SelectedIsFound(index: Index, agent: string, order: Order)
    requires GoodIndex(index) && agent in index
    ensures EvaluationFor(index, agent, Select(index[agent], order).provider) == Some(Select(index[agent], order))
  {
    ProviderAt(index[agent], agent, SelectIndex(index[agent], order));
  }

  lemma SelectedRoutesAreComplete(cases: seq<AgentCase>, index: Index, order: Order)
    requires GoodIndex(index) && Agents(cases) <= index.Keys
    ensures Complete(cases, index, SelectRoutes(cases, index, order))
  {
    forall i | 0 <= i < |cases|
      ensures cases[i].agent in SelectRoutes(cases, index, order)
      ensures EvaluationFor(index, cases[i].agent, SelectRoutes(cases, index, order)[cases[i].agent]).Some?
    {
      assert cases[i].agent in Agents(cases);
      SelectedIsFound(index, cases[i].agent, order);
    }
  }

  /** No complete choice of passing providers beats the selected routes: not in summed median latency for
      the fastest ones, not in summed memory for the leanest ones. */
  lemma {:induction false} SelectedRoutesAreOptimal(
      cases: seq<AgentCase>, all: seq<AgentCase>, index: Index, order: Order, routes: Routes)
    requires GoodIndex(index) && Agents(all) <= index.Keys
    requires forall c :: c in cases ==> c in all
    requires Complete(cases, index, routes) && Complete(cases, index, SelectRoutes(all, index, order))
    ensures TotalCost(cases, index, SelectRoutes(all, index, order), order) <= TotalCost(cases, index, routes, order)
  {
    if cases != [] {
      var agent := cases[0].agent;
      assert cases[0] in all && agent in Agents(all);
      SelectedIsFound(index, agent, order);
      var i := ProviderIndex(index[agent], routes[agent]);
      assert !Precedes(order, index[agent][i], Select(index[agent], order));
      assert forall j :: 0 <= j < |cases[1..]| ==> cases[1..][j] == cases[j + 1];
      SelectedRoutesAreOptimal(cases[1..], all, index, order, routes);
    }
  }

  /** The map of selected routes has as many entries as there are cases exactly when every case's agent
      has a passing candidate and no agent has two cases. */
  lemma FullWhenEveryAgentPasses(cases: seq<AgentCase>, index: Index, order: Order)
    requires GoodIndex(index)
    ensures |SelectRoutes(cases, index, order)| == |cases|
        <==> Agents(cases) <= index.Keys && DistinctAgents(cases)
  {
    var routes := SelectRoutes(cases, index, order);
    assert routes.Keys == Agents(cases) * index.Keys;
    AgentCount(cases);
    if Agents(cases) <= index.Keys {
      assert routes.Keys == Agents(cases);
    } else {
      var missing :| missing in Agents(cases) && missing !in index;
      assert routes.Keys <= Agents(cases) - {missing};
      SubsetSize(routes.Keys, Agents(cases) - {missing});
    }
  }

  predicate DistinctAgents(cases: seq<AgentCase>) {
    forall i, j :: 0 <= i < j < |cases| ==> cases[i].agent != cases[j].agent
  }

  lemma {:induction false} AgentCount(cases: seq<AgentCase>)
    ensures |Agents(cases)| <= |cases|
    ensures |Agents(cases)| == |cases| <==> DistinctAgents(cases)
  {
    if cases == [] {
      assert Agents(cases) == {};
    } else {
      var n := |cases| - 1;
      var front, last := cases[..n], cases[n].agent;
      assert cases == front + [cases[n]];
      AgentCount(front);
      assert Agents(cases) == Agents(front) + {last};
      LastIsDistinct(front, cases[n]);
      if last in Agents(front) { assert Agents(cases) == Agents(front); }
    }
  }

  lemma LastIsDistinct(front: seq<AgentCase>, last: AgentCase)
    ensures DistinctAgents(front + [last]) <==> DistinctAgents(front) && last.agent !in Agents(front)
  {
    var cases := front + [last];
    if last.agent in Agents(front) {
      var c :| c in front && c.agent == last.agent;
      var i :| 0 <= i < |front| && front[i] == c;
      assert cases[i].agent == cases[|front|].agent;
    } else {
      forall i | 0 <= i < |front|
        ensures front[i].agent != last.agent
      {
        assert front[i] in front && front[i].agent in Agents(front);
      }
    }
    assert forall i :: 0 <= i < |front| ==> cases[i] == front[i];
  }

  lemma SubsetSize(a: set<string>, b: set<string>)
    requires a <= b
    ensures |a| <= |b|
  {
    assert b == a + (b - a);
  }
}

/** The bounded set of route combinations that the planner proposes. */
module RoutePlanner {
  import opened Outcomes
  import opened RouteCandidates
  import opened SharedProvider

  const MAX_COMBINATIONS := 8
  const MAX_SUBSTITUTIONS := 4

  datatype Kind = Current | FastestLocal | LowestMemory | SharedModel | Substitution(agent: string)

  datatype Combination = Combination(kind: Kind, routes: Routes)

  // --- Sorting ----------------------------------------------------------------------------------

  function Median(e: Evaluation): nat {
    if e.outcome.Passed? then e.outcome.median else 0
  }

  /** Insert behind everything that is not slower. */
  function InsertStable(s: Candidates, e: Evaluation): (r: Candidates)
    ensures |r| == |s| + 1
    ensures forall x :: x in r <==> x == e || x in s
  {
    if s == [] || Median(e) < Median(s[0]) then [e] + s
    else
      assert s == [s[0]] + s[1..];
      [s[0]] + InsertStable(s[1..], e)
  }

  /** The stable sort by median latency. */
  function SortByLatency(c: Candidates): (r: Candidates)
    ensures |r| == |c|
    ensures forall x :: x in r <==> x in c
  {
    if c == [] then []
    else
      assert c == c[..|c| - 1] + [c[|c| - 1]];
      InsertStable(SortByLatency(c[..|c| - 1]), c[|c| - 1])
  }

  predicate SortedByLatency(s: Candidates) {
    forall i, j :: 0 <= i < j < |s| ==> Median(s[i]) <= Median(s[j])
  }

  lemma {:induction false} InsertKeepsOrder(s: Candidates, e: Evaluation)
    requires SortedByLatency(s)
    ensures SortedByLatency(InsertStable(s, e))
  {
    if s != [] && Median(e) >= Median(s[0]) {
      InsertKeepsOrder(s[1..], e);
      var rest := InsertStable(s[1..], e);
      forall i | 0 <= i < |rest|
        ensures Median(s[0]) <= Median(rest[i])
      {
        assert rest[i] in rest;
      }
    }
  }

  lemma {:induction false} InsertKeepsGood(s: Candidates, e: Evaluation, agent: string)
    requires GoodCandidates(s, agent) && PassingFor(e, agent)
    requires forall x :: x in s ==> x.provider != e.provider
    ensures GoodCandidates(InsertStable(s, e), agent)
  {
    if s != [] && Median(e) >= Median(s[0]) {
      InsertKeepsGood(s[1..], e, agent);
      var rest := InsertStable(s[1..], e);
      forall i | 0 <= i < |rest|
        ensures rest[i].provider != s[0].provider
      {
        assert rest[i] in rest;
      }
    }
  }

  lemma {:induction false} SortIsSorted(c: Candidates, agent: string)
    requires GoodCandidates(c, agent)
    ensures SortedByLatency(SortByLatency(c)) && GoodCandidates(SortByLatency(c), agent)
  {
    if c != [] {
      SortIsSorted(c[..|c| - 1], agent);
      InsertKeepsOrder(SortByLatency(c[..|c| - 1]), c[|c| - 1]);
      InsertKeepsGood(SortByLatency(c[..|c| - 1]), c[|c| - 1], agent);
    }
  }

  /** The sort is stable, so its head is the candidate that the selection finds. */
  lemma {:induction false} SortHead(c: Candidates)
    requires c != [] && AllPassed(c)
    ensures SortByLatency(c)[0] == Select(c, Latency)
  {
    var n := |c| - 1;
    if n > 0 {
      SortHead(c[..n]);
      assert SortByLatency(c[..n]) != [];
    } else {
      assert SortByLatency(c[..0]) == [];
    }
  }

  function NextBest(c: Candidates): Evaluation
    requires |c| > 1
  {
    SortByLatency(c)[1]
  }

  /** The next best candidate is another provider's, and nobody but the best one is faster. */
  lemma NextBestIsNext(c: Candidates, agent: string)
    requires GoodCandidates(c, agent) && |c| > 1
    ensures NextBest(c) in c && NextBest(c).provider != Select(c, Latency).provider
    ensures forall x :: x in c && x != Select(c, Latency) ==> Median(NextBest(c)) <= Median(x)
  {
    SortIsSorted(c, agent);
    SortHead(c);
    var s := SortByLatency(c);
    forall x | x in c && x != s[0]
      ensures Median(s[1]) <= Median(x)
    {
      var i :| 0 <= i < |s| && s[i] == x;
    }
  }

  // --- Slow agents ------------------------------------------------------------------------------

  datatype Timed = Timed(agent: string, median: nat)

  predicate SlowestFirst(s: seq<Timed>) {
    forall i, j :: 0 <= i < j < |s| ==> s[i].median >= s[j].median
  }

  /** Entries for these agents of the routes, slowest first; equals come in any order. */
  ghost predicate Listed(index: Index, fastest: Routes, agents: set<string>, s: seq<Timed>)
    requires GoodIndex(index)
  {
    && SlowestFirst(s)
    && (forall i, j :: 0 <= i < j < |s| ==> s[i].agent != s[j].agent)
    && (forall i :: 0 <= i < |s| ==> s[i].agent in agents && s[i].agent in fastest)
    && (forall i :: 0 <= i < |s| ==> s[i].median == MedianOf(index, s[i].agent, fastest[s[i].agent]))
  }

  ghost predicate IsSlowOrder(index: Index, fastest: Routes, s: seq<Timed>)
    requires GoodIndex(index)
  {
    |s| == |fastest| && Listed(index, fastest, fastest.Keys, s)
  }

  /** How many entries at the front are slower. */
  function SlowerThan(s: seq<Timed>, median: nat): (i: nat)
    ensures i <= |s|
    ensures forall j :: 0 <= j < i ==> s[j].median > median
    ensures i < |s| ==> s[i].median <= median
  {
    if s == [] || s[0].median <= median then 0 else 1 + SlowerThan(s[1..], median)
  }

  function Place(s: seq<Timed>, item: Timed): seq<Timed> {
    s[..SlowerThan(s, item.median)] + [item] + s[SlowerThan(s, item.median)..]
  }

  lemma PlaceAt(s: seq<Timed>, item: Timed)
    ensures |Place(s, item)| == |s| + 1
    ensures var at := SlowerThan(s, item.median); forall i :: 0 <= i <= |s| ==>
      Place(s, item)[i] == if i < at then s[i] else if i == at then item else s[i - 1]
  {
  }

  lemma PlaceKeepsOrder(s: seq<Timed>, item: Timed)
    requires SlowestFirst(s)
    ensures SlowestFirst(Place(s, item))
  {
    PlaceAt(s, item);
  }

  lemma PlaceIsDistinct(s: seq<Timed>, item: Timed)
    requires forall i, j :: 0 <= i < j < |s| ==> s[i].agent != s[j].agent
    requires forall i :: 0 <= i < |s| ==> s[i].agent != item.agent
    ensures forall i, j :: 0 <= i < j < |Place(s, item)| ==> Place(s, item)[i].agent != Place(s, item)[j].agent
  {
    PlaceAt(s, item);
  }

  lemma PlaceIsListed(index: Index, fastest: Routes, agents: set<string>, s: seq<Timed>, item: Timed)
    requires GoodIndex(index) && Listed(index, fastest, agents, s)
    requires item.agent in fastest && item.agent !in agents
    requires item.median == MedianOf(index, item.agent, fastest[item.agent])
    ensures |Place(s, item)| == |s| + 1
    ensures Listed(index, fastest, agents + {item.agent}, Place(s, item))
  {
    PlaceKeepsOrder(s, item);
    PlaceIsDistinct(s, item);
    PlaceAt(s, item);
  }

  method SlowAgents(index: Index, fastest: Routes) returns (s: seq<Timed>)
    requires GoodIndex(index)
    requires forall agent :: agent in fastest ==> EvaluationFor(index, agent, fastest[agent]).Some?
    ensures IsSlowOrder(index, fastest, s)
  {
    s := [];
    var todo := fastest.Keys;
    ghost var done: set<string> := {};
    while todo != {}
      invariant todo <= fastest.Keys && SlowSoFar(index, fastest, todo, done, s)
      decreases todo
    {
      var agent :| agent in todo;
      var item := Timed(agent, MedianOf(index, agent, fastest[agent]));
      SlowStep(index, fastest, todo, done, s, item);
      s := Place(s, item);
      todo, done := todo - {agent}, done + {agent};
    }
    SlowEnd(index, fastest, done, s);
  }

  lemma SlowEnd(index: Index, fastest: Routes, done: set<string>, s: seq<Timed>)
    requires GoodIndex(index) && SlowSoFar(index, fastest, {}, done, s)
    ensures IsSlowOrder(index, fastest, s)
  {
    assert {} + done == done;
  }

  ghost predicate SlowSoFar(index: Index, fastest: Routes, todo: set<string>, done: set<string>, s: seq<Timed>)
    requires GoodIndex(index)
  {
    todo !! done && todo + done == fastest.Keys && |s| + |todo| == |fastest| && Listed(index, fastest, done, s)
  }

  lemma SlowStep(index: Index, fastest: Routes, todo: set<string>, done: set<string>, s: seq<Timed>, item: Timed)
    requires GoodIndex(index) && SlowSoFar(index, fastest, todo, done, s) && item.agent in todo
    requires item.median == MedianOf(index, item.agent, fastest[item.agent])
    ensures SlowSoFar(index, fastest, todo - {item.agent}, done + {item.agent}, Place(s, item))
  {
    PlaceIsListed(index, fastest, done, s, item);
  }

  // --- The proposals ----------------------------------------------------------------------------

  predicate Offers(combinations: seq<Combination>, routes: Routes) {
    exists k :: 0 <= k < |combinations| && combinations[k].routes == routes
  }

  function PushUnique(combinations: seq<Combination>, c: Combination): seq<Combination> {
    if |combinations| < MAX_COMBINATIONS && !Offers(combinations, c.routes) then combinations + [c] else combinations
  }

  predicate DistinctRoutes(combinations: seq<Combination>) {
    forall k, l :: 0 <= k < l < |combinations| ==> combinations[k].routes != combinations[l].routes
  }

  lemma PushUniqueOffers(combinations: seq<Combination>, c: Combination)
    requires DistinctRoutes(combinations) && |combinations| < MAX_COMBINATIONS
    ensures var r := PushUnique(combinations, c);
      && DistinctRoutes(r) && Offers(r, c.routes)
      && |combinations| <= |r| <= |combinations| + 1
      && r[..|combinations|] == combinations
      && (forall k :: |combinations| <= k < |r| ==> r[k] == c)
  {
    var r := PushUnique(combinations, c);
    if !Offers(combinations, c.routes) { assert r[|combinations|].routes == c.routes; }
  }

  function CurrentRoutes(cases: seq<AgentCase>): Routes {
    if cases == [] then map[]
    else CurrentRoutes(cases[..|cases| - 1])[cases[|cases| - 1].agent := cases[|cases| - 1].current]
  }

  /** Every case's agent, and nobody else, goes to the current provider of its last case. */
  predicate AreCurrent(cases: seq<AgentCase>, routes: Routes) {
    && routes.Keys == Agents(cases)
    && forall i :: 0 <= i < |cases| && IsLastOfAgent(cases, i) ==>
         cases[i].agent in routes && routes[cases[i].agent] == cases[i].current
  }

  lemma {:induction false} CurrentRoutesAreCurrent(cases: seq<AgentCase>)
    ensures AreCurrent(cases, CurrentRoutes(cases))
  {
    if cases != [] {
      var front, last := cases[..|cases| - 1], cases[|cases| - 1];
      assert cases == front + [last];
      CurrentRoutesAreCurrent(front);
      OneMoreCase(front, last, CurrentRoutes(front));
    }
  }

  predicate IsLastOfAgent(cases: seq<AgentCase>, i: nat)
    requires i < |cases|
  {
    forall j :: i < j < |cases| ==> cases[j].agent != cases[i].agent
  }

  lemma OneMoreCase(front: seq<AgentCase>, last: AgentCase, routes: Routes)
    requires AreCurrent(front, routes)
    ensures AreCurrent(front + [last], routes[last.agent := last.current])
  {
    var cases, all := front + [last], routes[last.agent := last.current];
    assert all.Keys == Agents(front) + {last.agent} == Agents(cases);
    forall i | 0 <= i < |cases| && IsLastOfAgent(cases, i)
      ensures cases[i].agent in all && all[cases[i].agent] == cases[i].current
    {
      if i < |front| {
        assert cases[|front|] == last;
        assert forall j :: i < j < |front| ==> front[j] == cases[j];
        assert IsLastOfAgent(front, i);
      }
    }
  }

  /** So with one case for each agent the current routes are what the cases say. */
  lemma CurrentRoutesOfCases(cases: seq<AgentCase>, routes: Routes, c: AgentCase)
    requires AreCurrent(cases, routes) && DistinctAgents(cases) && c in cases
    ensures c.agent in routes && routes[c.agent] == c.current
  {
    var i :| 0 <= i < |cases| && cases[i] == c;
    assert IsLastOfAgent(cases, i);
  }

  /** Where an agent is in the order, or the length. */
  function SlowPosition(order: seq<Timed>, agent: string): (i: nat)
    ensures i <= |order|
    ensures i < |order| ==> order[i].agent == agent
    ensures forall j :: 0 <= j < i ==> order[j].agent != agent
  {
    if order == [] || order[0].agent == agent then 0 else 1 + SlowPosition(order[1..], agent)
  }

  lemma SlowPositionAt(order: seq<Timed>, n: nat)
    requires n < |order| && forall i, j :: 0 <= i < j < |order| ==> order[i].agent != order[j].agent
    ensures Rank(order, Substitution(order[n].agent)) == 4 + n
  {
    var i := SlowPosition(order, order[n].agent);
    assert i >= n;
  }

  /** The order in which proposals are made: the four kinds, and then the substitutions, slowest agent first. */
  function Rank(order: seq<Timed>, kind: Kind): nat {
    match kind
    case Current => 0
    case FastestLocal => 1
    case LowestMemory => 2
    case SharedModel => 3
    case Substitution(agent) => 4 + SlowPosition(order, agent)
  }

  predicate Ranked(order: seq<Timed>, combinations: seq<Combination>) {
    forall k, l :: 0 <= k < l < |combinations| ==>
      Rank(order, combinations[k].kind) < Rank(order, combinations[l].kind)
  }

  predicate RankedBelow(order: seq<Timed>, combinations: seq<Combination>, rank: nat) {
    Ranked(order, combinations) && forall k :: 0 <= k < |combinations| ==> Rank(order, combinations[k].kind) < rank
  }

  lemma PushKeepsRanks(order: seq<Timed>, combinations: seq<Combination>, c: Combination)
    requires RankedBelow(order, combinations, Rank(order, c.kind))
    ensures RankedBelow(order, PushUnique(combinations, c), Rank(order, c.kind) + 1)
  {
  }

  /** The fastest routes with one agent moved to its next best candidate. */
  function Substituted(index: Index, fastest: Routes, agent: string): Routes
    requires agent in index && |index[agent]| > 1
  {
    fastest[agent := NextBest(index[agent]).provider]
  }

  /** What a proposal of each kind is. */
  ghost predicate Justified(cases: seq<AgentCase>, index: Index, c: Combination)
    requires GoodIndex(index)
  {
    var fastest := SelectRoutes(cases, index, Latency);
    match c.kind
    case Current => c.routes == CurrentRoutes(cases)
    case FastestLocal => c.routes == fastest && |fastest| == |cases|
    case LowestMemory => c.routes == SelectRoutes(cases, index, Memory) && |c.routes| == |cases|
    case SharedModel => exists p :: IsSharedResult(cases, index, Some(c.routes), p)
    case Substitution(agent) =>
      agent in fastest && agent in index && |index[agent]| > 1 && c.routes == Substituted(index, fastest, agent)
  }

  ghost predicate Proposals(cases: seq<AgentCase>, index: Index, combinations: seq<Combination>)
    requires GoodIndex(index)
  {
    && combinations != []
    && combinations[0] == Combination(Current, CurrentRoutes(cases))
    && DistinctRoutes(combinations)
    && (forall k :: 0 <= k < |combinations| ==> Justified(cases, index, combinations[k]))
  }

  lemma PushKeepsProposals(cases: seq<AgentCase>, index: Index, combinations: seq<Combination>, c: Combination)
    requires GoodIndex(index) && Proposals(cases, index, combinations) && Justified(cases, index, c)
    requires |combinations| < MAX_COMBINATIONS
    ensures var r := PushUnique(combinations, c);
      && Proposals(cases, index, r) && Offers(r, c.routes) && |r| <= |combinations| + 1
      && forall routes :: Offers(combinations, routes) ==> Offers(r, routes)
  {
    PushUniqueOffers(combinations, c);
    var r := PushUnique(combinations, c);
    assert forall k :: 0 <= k < |combinations| ==> r[k] == combinations[k];
  }

  method CurrentOf(cases: seq<AgentCase>) returns (routes: Routes)
    ensures routes == CurrentRoutes(cases)
  {
    routes := map[];
    for n := 0 to |cases|
      invariant routes == CurrentRoutes(cases[..n])
    {
      assert cases[..n + 1][..n] == cases[..n];
      routes := routes[cases[n].agent := cases[n].current];
    }
    assert cases[..|cases|] == cases;
  }

  method Propose(cases: seq<AgentCase>, index: Index, combinations: seq<Combination>, c: Combination)
    returns (r: seq<Combination>)
    requires GoodIndex(index) && Proposals(cases, index, combinations) && Justified(cases, index, c)
    requires |combinations| < MAX_COMBINATIONS
    ensures Proposals(cases, index, r) && |r| <= |combinations| + 1
    ensures Offers(r, c.routes) && r == PushUnique(combinations, c)
    ensures forall routes :: Offers(combinations, routes) ==> Offers(r, routes)
  {
    PushKeepsProposals(cases, index, combinations, c);
    r := PushUnique(combinations, c);
  }

  ghost predicate OrderOffered(cases: seq<AgentCase>, index: Index, order: Order, combinations: seq<Combination>)
    requires GoodIndex(index)
  {
    var routes := SelectRoutes(cases, index, order);
    |routes| == |cases| ==> Offers(combinations, routes)
  }

  ghost predicate SharedOffered(cases: seq<AgentCase>, index: Index, combinations: seq<Combination>)
    requires GoodIndex(index)
  {
    forall p, routes :: IsSharedResult(cases, index, Some(routes), p) ==> Offers(combinations, routes)
  }

  /** The substitutions for the first `n` slow agents are there. */
  ghost predicate SubstitutionsOffered(
      cases: seq<AgentCase>, index: Index, slow: seq<Timed>, n: nat, combinations: seq<Combination>)
    requires GoodIndex(index) && n <= |slow|
  {
    forall k :: 0 <= k < n && slow[k].agent in index && |index[slow[k].agent]| > 1 ==>
      Offers(combinations, Substituted(index, SelectRoutes(cases, index, Latency), slow[k].agent))
  }

  method ProposeOrder(cases: seq<AgentCase>, index: Index, order: Order, combinations: seq<Combination>)
    returns (r: seq<Combination>)
    requires GoodIndex(index) && Proposals(cases, index, combinations) && |combinations| < MAX_COMBINATIONS
    requires RankedBelow([], combinations, if order == Latency then 1 else 2)
    ensures Proposals(cases, index, r) && |r| <= |combinations| + 1
    ensures RankedBelow([], r, if order == Latency then 2 else 3)
    ensures OrderOffered(cases, index, order, r)
    ensures forall routes :: Offers(combinations, routes) ==> Offers(r, routes)
  {
    r := combinations;
    var routes := SelectRoutes(cases, index, order);
    if |routes| == |cases| {
      var c := Combination(if order == Latency then FastestLocal else LowestMemory, routes);
      PushKeepsRanks([], r, c);
      r := Propose(cases, index, r, c);
    }
  }

  method ProposeShared(cases: seq<AgentCase>, index: Index, combinations: seq<Combination>)
    returns (r: seq<Combination>)
    requires GoodIndex(index) && Proposals(cases, index, combinations) && |combinations| < MAX_COMBINATIONS
    requires RankedBelow([], combinations, 3)
    ensures Proposals(cases, index, r) && |r| <= |combinations| + 1
    ensures RankedBelow([], r, 4)
    ensures SharedOffered(cases, index, r)
    ensures forall routes :: Offers(combinations, routes) ==> Offers(r, routes)
  {
    r := combinations;
    var shared := SharedRoutes(cases, index);
    if shared.Some? {
      PushKeepsRanks([], r, Combination(SharedModel, shared.value));
      r := Propose(cases, index, r, Combination(SharedModel, shared.value));
    }
    forall p, routes | IsSharedResult(cases, index, Some(routes), p)
      ensures shared == Some(routes)
    {
      SharedResultIsUnique(cases, index, p, routes, shared);
    }
  }

  lemma SharedResultIsUnique(cases: seq<AgentCase>, index: Index, p: string, routes: Routes, shared: Option<Routes>)
    requires GoodIndex(index) && IsSharedResult(cases, index, Some(routes), p)
    requires index != map[] ==> exists q :: IsSharedResult(cases, index, shared, q)
    ensures shared == Some(routes)
  {
    var agent :| agent in Served(index, index.Keys, p);
    var q :| IsSharedResult(cases, index, shared, q);
    SharedIsUnique(index, p, q);
  }

  /** The substitution for one agent, if it has another candidate. */
  method ProposeSubstitution(
      cases: seq<AgentCase>, index: Index, agent: string, ghost order: seq<Timed>, combinations: seq<Combination>)
    returns (r: seq<Combination>)
    requires GoodIndex(index) && Proposals(cases, index, combinations) && |combinations| < MAX_COMBINATIONS
    requires agent in SelectRoutes(cases, index, Latency)
    requires RankedBelow(order, combinations, Rank(order, Substitution(agent)))
    ensures Proposals(cases, index, r) && |r| <= |combinations| + 1
    ensures RankedBelow(order, r, Rank(order, Substitution(agent)) + 1)
    ensures |index[agent]| > 1 ==> Offers(r, Substituted(index, SelectRoutes(cases, index, Latency), agent))
    ensures forall routes :: Offers(combinations, routes) ==> Offers(r, routes)
  {
    r := combinations;
    var fastest := SelectRoutes(cases, index, Latency);
    var alternatives := SortByLatency(index[agent]);
    if |alternatives| > 1 {
      var c := Combination(Substitution(agent), fastest[agent := alternatives[1].provider]);
      PushKeepsRanks(order, r, c);
      r := Propose(cases, index, r, c);
    }
  }

  lemma SubstitutionsStep(
      cases: seq<AgentCase>, index: Index, slow: seq<Timed>, n: nat, before: seq<Combination>, r: seq<Combination>)
    requires GoodIndex(index) && n < |slow| && SubstitutionsOffered(cases, index, slow, n, before)
    requires forall routes :: Offers(before, routes) ==> Offers(r, routes)
    requires slow[n].agent in index && |index[slow[n].agent]| > 1 ==>
      Offers(r, Substituted(index, SelectRoutes(cases, index, Latency), slow[n].agent))
    ensures SubstitutionsOffered(cases, index, slow, n + 1, r)
  {
  }

  method ProposeSubstitutions(cases: seq<AgentCase>, index: Index, order: seq<Timed>, combinations: seq<Combination>)
    returns (r: seq<Combination>)
    requires GoodIndex(index) && Proposals(cases, index, combinations) && |combinations| <= MAX_SUBSTITUTIONS
    requires forall i :: 0 <= i < |order| ==> order[i].agent in SelectRoutes(cases, index, Latency)
    requires forall i, j :: 0 <= i < j < |order| ==> order[i].agent != order[j].agent
    requires RankedBelow(order, combinations, 4)
    ensures Proposals(cases, index, r) && |r| <= MAX_COMBINATIONS && Ranked(order, r)
    ensures SubstitutionsOffered(cases, index, order, Min(|order|, MAX_SUBSTITUTIONS), r)
    ensures forall routes :: Offers(combinations, routes) ==> Offers(r, routes)
  {
    r := combinations;
    for n := 0 to Min(|order|, MAX_SUBSTITUTIONS)
      invariant |r| <= MAX_SUBSTITUTIONS + n
      invariant Proposals(cases, index, r)
      invariant RankedBelow(order, r, 4 + n)
      invariant SubstitutionsOffered(cases, index, order, n, r)
      invariant forall routes :: Offers(combinations, routes) ==> Offers(r, routes)
    {
      ghost var before := r;
      SlowPositionAt(order, n);
      r := ProposeSubstitution(cases, index, order[n].agent, order, r);
      SubstitutionsStep(cases, index, order, n, before, r);
    }
  }

  /** Without substitutions the ranks do not depend on the order of the agents. */
  lemma RanksBeforeSubstitutions(order: seq<Timed>, combinations: seq<Combination>)
    requires RankedBelow([], combinations, 4)
    ensures RankedBelow(order, combinations, 4)
  {
    assert forall k :: 0 <= k < |combinations| ==>
      Rank([], combinations[k].kind) < 4 && Rank(order, combinations[k].kind) == Rank([], combinations[k].kind);
  }

  /** At most eight proposals with pairwise distinct routes, the current routes first. Whatever can be
      proposed is: the fastest and the leanest routes if they are complete, the shared routes, and a
      substitution for each of the four slowest agents that has another candidate. */
  method GenerateCombinations(cases: seq<AgentCase>, evaluations: seq<Evaluation>)
    returns (combinations: seq<Combination>, ghost slow: seq<Timed>)
    ensures |combinations| <= 8
    ensures Proposals(cases, PassedIndex(evaluations), combinations) && Ranked(slow, combinations)
    ensures combinations[0].kind == Current && AreCurrent(cases, combinations[0].routes)
    ensures OrderOffered(cases, PassedIndex(evaluations), Latency, combinations)
    ensures OrderOffered(cases, PassedIndex(evaluations), Memory, combinations)
    ensures SharedOffered(cases, PassedIndex(evaluations), combinations)
    ensures IsSlowOrder(PassedIndex(evaluations), SelectRoutes(cases, PassedIndex(evaluations), Latency), slow)
    ensures SubstitutionsOffered(cases, PassedIndex(evaluations), slow, Min(|slow|, 4), combinations)
  {
    CurrentRoutesAreCurrent(cases);
    var index := PassedByAgent(evaluations);
    var current := CurrentOf(cases);
    combinations := [Combination(Current, current)];
    combinations := ProposeOrder(cases, index, Latency, combinations);
    combinations := ProposeOrder(cases, index, Memory, combinations);
    combinations := ProposeShared(cases, index, combinations);
    var fastest := SelectRoutes(cases, index, Latency);
    forall agent | agent in fastest
      ensures EvaluationFor(index, agent, fastest[agent]).Some?
    {
      SelectedIsFound(index, agent, Latency);
    }
    var order := SlowAgents(index, fastest);
    slow := order;
    RanksBeforeSubstitutions(order, combinations);
    combinations := ProposeSubstitutions(cases, index, order, combinations);
  }

  // --- What the proposals are worth -------------------------------------------------------------

  /** A substitution differs from the fastest routes at its agent and nowhere else, moves it to the
      candidate that only the best one beats, and so never gets an agent a provider that failed. */
  lemma SubstitutionMovesOneAgent(cases: seq<AgentCase>, index: Index, c: Combination)
    requires GoodIndex(index) && c.kind.Substitution? && Justified(cases, index, c)
    ensures var fastest := SelectRoutes(cases, index, Latency); var agent := c.kind.agent;
      && c.routes.Keys == fastest.Keys
      && (forall a :: a in fastest ==> (c.routes[a] != fastest[a] <==> a == agent))
      && EvaluationFor(index, agent, c.routes[agent]) == Some(NextBest(index[agent]))
      && (forall x :: x in index[agent] && x != Select(index[agent], Latency) ==>
            Median(NextBest(index[agent])) <= Median(x))
  {
    var agent := c.kind.agent;
    NextBestIsNext(index[agent], agent);
    var i :| 0 <= i < |index[agent]| && index[agent][i] == NextBest(index[agent]);
    ProviderAt(index[agent], agent, i);
  }

  lemma {:induction false} FastestIsNotSlower(
      cases: seq<AgentCase>, all: seq<AgentCase>, evaluations: seq<Evaluation>, chosen: seq<Evaluation>)
    requires |chosen| == |cases| && forall c :: c in cases ==> c in all
    requires forall i :: 0 <= i < |cases| ==> chosen[i] in evaluations && PassingFor(chosen[i], cases[i].agent)
    requires Complete(cases, PassedIndex(evaluations), SelectRoutes(all, PassedIndex(evaluations), Latency))
    ensures TotalCost(cases, PassedIndex(evaluations), SelectRoutes(all, PassedIndex(evaluations), Latency), Latency)
         <= SummedLatency(chosen)
  {
    if cases != [] {
      var index, agent := PassedIndex(evaluations), cases[0].agent;
      PassedIndexIsIndex(evaluations);
      assert Represented(index, chosen[0]);
      assert cases[0] in all && agent in Agents(all);
      SelectedIsFound(index, agent, Latency);
      var i := ProviderIndex(index[agent], chosen[0].provider);
      assert !Precedes(Latency, index[agent][i], Select(index[agent], Latency));
      assert forall j :: 0 <= j < |cases[1..]| ==> cases[1..][j] == cases[j + 1] && chosen[1..][j] == chosen[j + 1];
      FastestIsNotSlower(cases[1..], all, evaluations, chosen[1..]);
    }
  }

  /** The fastest routes are globally optimal: if every case has a passing evaluation at all, they are
      complete, and no assignment of passing evaluations to the cases, duplicates and all, has a lower sum
      of median latencies. */
  lemma {:induction false} FastestIsOptimal(cases: seq<AgentCase>, evaluations: seq<Evaluation>, chosen: seq<Evaluation>)
    requires |chosen| == |cases|
    requires forall i :: 0 <= i < |cases| ==> chosen[i] in evaluations && PassingFor(chosen[i], cases[i].agent)
    ensures var index := PassedIndex(evaluations); var fastest := SelectRoutes(cases, index, Latency);
      Complete(cases, index, fastest) && TotalCost(cases, index, fastest, Latency) <= SummedLatency(chosen)
  {
    var index := PassedIndex(evaluations);
    PassedIndexIsIndex(evaluations);
    forall agent | agent in Agents(cases)
      ensures agent in index
    {
      var c :| c in cases && c.agent == agent;
      var i :| 0 <= i < |cases| && cases[i] == c;
      assert Represented(index, chosen[i]);
    }
    SelectedRoutesAreComplete(cases, index, Latency);
    FastestIsNotSlower(cases, cases, evaluations, chosen);
  }

  function SummedLatency(chosen: seq<Evaluation>): nat {
    if chosen == [] then 0 else Median(chosen[0]) + SummedLatency(chosen[1..])
  }
}

/** The provider that serves the most agents, found by walking hash maps in whatever order they yield. */
module SharedProvider {
  import opened Outcomes
  import opened Text
  import opened RouteCandidates

  datatype Coverage = Coverage(count: nat, total: nat)

  function SaturatingAdd(a: nat, b: nat): nat {
    Min(U64_MAX, a + b)
  }

  // --- What the walk should find ----------------------------------------------------------------

  predicate Serves(index: Index, agent: string, provider: string) {
    EvaluationFor(index, agent, provider).Some?
  }

  ghost function Served(index: Index, among: set<string>, provider: string): set<string> {
    set agent | agent in among && Serves(index, agent, provider)
  }

  function MedianOf(index: Index, agent: string, provider: string): nat
    requires GoodIndex(index)
  {
    var e := EvaluationFor(index, agent, provider);
    if e.Some? then e.value.outcome.median else 0
  }

  /** The provider's summed median latency over a set of agents. */
  ghost function SummedMedian(index: Index, agents: set<string>, provider: string): nat
    requires GoodIndex(index)
  {
    if agents == {} then 0
    else
      var agent :| agent in agents;
      MedianOf(index, agent, provider) + SummedMedian(index, agents - {agent}, provider)
  }

  lemma {:induction false} SumWithout(index: Index, agents: set<string>, provider: string, agent: string)
    requires GoodIndex(index) && agent in agents
    ensures SummedMedian(index, agents, provider)
         == MedianOf(index, agent, provider) + SummedMedian(index, agents - {agent}, provider)
    decreases agents
  {
    var first :| first in agents &&
      SummedMedian(index, agents, provider)
        == MedianOf(index, first, provider) + SummedMedian(index, agents - {first}, provider);
    if first != agent {
      SumWithout(index, agents - {first}, provider, agent);
      SumWithout(index, agents - {agent}, provider, first);
      assert agents - {first} - {agent} == agents - {agent} - {first};
    }
  }

  /** The coverage of a provider over the agents walked so far. */
  ghost function CoverageOf(index: Index, walked: set<string>, provider: string): Coverage
    requires GoodIndex(index)
  {
    Coverage(|Served(index, walked, provider)|,
             Min(U64_MAX, SummedMedian(index, Served(index, walked, provider), provider)))
  }

  ghost predicate IsCoverage(index: Index, walked: set<string>, coverage: map<string, Coverage>)
    requires GoodIndex(index)
  {
    && (forall p :: p in coverage <==> Served(index, walked, p) != {})
    && (forall p :: p in coverage ==> coverage[p] == CoverageOf(index, walked, p))
  }

  // --- The walk ---------------------------------------------------------------------------------

  function Recorded(coverage: map<string, Coverage>, provider: string): Coverage {
    if provider in coverage then coverage[provider] else Coverage(0, 0)
  }

  function AddMedian(c: Coverage, median: nat): Coverage {
    Coverage(c.count + 1, SaturatingAdd(c.total, median))
  }

  /** What the first `n` candidates of one agent make of a provider's coverage. */
  function Added(coverage: map<string, Coverage>, candidates: Candidates, n: nat, provider: string): Coverage
    requires n <= |candidates| && AllPassed(candidates)
  {
    var i := ProviderIndex(candidates, provider);
    if i < n then AddMedian(Recorded(coverage, provider), candidates[i].outcome.median) else Recorded(coverage, provider)
  }

  /** The first `n` candidates of one agent have been added. */
  ghost predicate AddedTo(
      coverage: map<string, Coverage>, candidates: Candidates, n: nat, r: map<string, Coverage>)
    requires n <= |candidates| && AllPassed(candidates)
  {
    && (forall p :: p in r <==> p in coverage || ProviderIndex(candidates, p) < n)
    && (forall p :: p in r ==> r[p] == Added(coverage, candidates, n, p))
  }

  lemma AddOne(coverage: map<string, Coverage>, candidates: Candidates, n: nat, r: map<string, Coverage>, agent: string)
    requires GoodCandidates(candidates, agent) && n < |candidates| && AddedTo(coverage, candidates, n, r)
    ensures var p := candidates[n].provider;
      AddedTo(coverage, candidates, n + 1, r[p := AddMedian(Recorded(r, p), candidates[n].outcome.median)])
  {
    ProviderAt(candidates, agent, n);
    assert forall p :: ProviderIndex(candidates, p) == n ==> p == candidates[n].provider;
  }

  /** The candidates of one agent. */
  method AddCandidates(coverage: map<string, Coverage>, candidates: Candidates, ghost agent: string)
    returns (r: map<string, Coverage>)
    requires GoodCandidates(candidates, agent)
    ensures AddedTo(coverage, candidates, |candidates|, r)
  {
    r := coverage;
    for n := 0 to |candidates|
      invariant AddedTo(coverage, candidates, n, r)
    {
      var provider := candidates[n].provider;
      AddOne(coverage, candidates, n, r, agent);
      r := r[provider := AddMedian(Recorded(r, provider), candidates[n].outcome.median)];
    }
  }

  lemma WalkOne(index: Index, walked: set<string>, agent: string, provider: string)
    requires GoodIndex(index) && agent !in walked
    ensures CoverageOf(index, walked + {agent}, provider)
         == if Serves(index, agent, provider)
            then AddMedian(CoverageOf(index, walked, provider), MedianOf(index, agent, provider))
            else CoverageOf(index, walked, provider)
    ensures Served(index, walked + {agent}, provider) != {}
        <==> Served(index, walked, provider) != {} || Serves(index, agent, provider)
  {
    var before, after := Served(index, walked, provider), Served(index, walked + {agent}, provider);
    if Serves(index, agent, provider) {
      assert after == before + {agent} && after - {agent} == before;
      SumWithout(index, after, provider, agent);
    } else {
      assert after == before;
    }
  }

  lemma AgentIsWalked(
      index: Index, walked: set<string>, agent: string, before: map<string, Coverage>, after: map<string, Coverage>)
    requires GoodIndex(index) && agent in index && agent !in walked
    requires IsCoverage(index, walked, before) && AddedTo(before, index[agent], |index[agent]|, after)
    ensures IsCoverage(index, walked + {agent}, after)
  {
    forall p
      ensures p in after <==> Served(index, walked + {agent}, p) != {}
      ensures p in after ==> after[p] == CoverageOf(index, walked + {agent}, p)
    {
      WalkOne(index, walked, agent, p);
      if Served(index, walked, p) == {} { assert CoverageOf(index, walked, p) == Coverage(0, 0); }
    }
  }

  /** Coverage does not depend on the order in which the index yields its agents. */
  method AccumulateCoverage(index: Index) returns (coverage: map<string, Coverage>)
    requires GoodIndex(index)
    ensures IsCoverage(index, index.Keys, coverage)
  {
    coverage := map[];
    var todo := index.Keys;
    ghost var walked: set<string> := {};
    forall p
      ensures Served(index, walked, p) == {}
    {
    }
    while todo != {}
      invariant todo !! walked && todo + walked == index.Keys
      invariant IsCoverage(index, walked, coverage)
      decreases todo
    {
      var agent :| agent in todo;
      ghost var before := coverage;
      coverage := AddCandidates(coverage, index[agent], agent);
      AgentIsWalked(index, walked, agent, before, coverage);
      todo, walked := todo - {agent}, walked + {agent};
    }
    assert walked == index.Keys;
  }

  // --- The choice -------------------------------------------------------------------------------

  /** More agents, then less summed latency, then the smaller name. */
  predicate Beats(p: string, cp: Coverage, q: string, cq: Coverage) {
    || cp.count > cq.count
    || (cp.count == cq.count && (cp.total < cq.total || (cp.total == cq.total && Less(p, q))))
  }

  lemma BeatsOneWay(p: string, cp: Coverage, q: string, cq: Coverage)
    requires p != q
    ensures Beats(p, cp, q, cq) <==> !Beats(q, cq, p, cp)
  {
    LessTotal(p, q);
    if Less(p, q) && Less(q, p) { LessTransitive(p, q, p); LessIrreflexive(p); }
  }

  lemma BeatsTransitive(p: string, cp: Coverage, q: string, cq: Coverage, r: string, cr: Coverage)
    requires Beats(p, cp, q, cq) && Beats(q, cq, r, cr)
    ensures Beats(p, cp, r, cr)
  {
    if Less(p, q) && Less(q, r) { LessTransitive(p, q, r); }
  }

  ghost predicate IsBest(coverage: map<string, Coverage>, best: string) {
    best in coverage && forall q :: q in coverage && q != best ==> Beats(best, coverage[best], q, coverage[q])
  }

  /** `max_by` over a map that yields its entries in any order. */
  method ChooseShared(coverage: map<string, Coverage>) returns (best: Option<string>)
    ensures best.None? <==> coverage == map[]
    ensures best.Some? ==> IsBest(coverage, best.value)
  {
    best := None;
    var todo := coverage.Keys;
    while todo != {}
      invariant todo <= coverage.Keys
      invariant best.None? ==> todo == coverage.Keys
      invariant best.Some? ==> best.value in coverage.Keys - todo
      invariant best.Some? ==> forall q :: q in coverage.Keys - todo && q != best.value ==>
        Beats(best.value, coverage[best.value], q, coverage[q])
      decreases todo
    {
      var p :| p in todo;
      if best.None? {
        best := Some(p);
      } else {
        var old_ := best.value;
        BeatsOneWay(p, coverage[p], old_, coverage[old_]);
        if !Beats(old_, coverage[old_], p, coverage[p]) {
          forall q | q in coverage.Keys - todo && q != p
            ensures Beats(p, coverage[p], q, coverage[q])
          {
            if q != old_ { BeatsTransitive(p, coverage[p], old_, coverage[old_], q, coverage[q]); }
          }
          best := Some(p);
        }
      }
      todo := todo - {p};
    }
  }

  /** The shared provider of an index: the walk is gone from this statement. */
  ghost predicate IsShared(index: Index, provider: string)
    requires GoodIndex(index)
  {
    && Served(index, index.Keys, provider) != {}
    && forall q :: Served(index, index.Keys, q) != {} && q != provider ==>
         Beats(provider, CoverageOf(index, index.Keys, provider), q, CoverageOf(index, index.Keys, q))
  }

  lemma SharedIsUnique(index: Index, p: string, q: string)
    requires GoodIndex(index) && IsShared(index, p) && IsShared(index, q)
    ensures p == q
  {
    if p != q { BeatsOneWay(p, CoverageOf(index, index.Keys, p), q, CoverageOf(index, index.Keys, q)); }
  }

  /** Among the providers that serve as many agents none has a lower summed latency than the shared one, as far as 64
      bits count it, and of those that tie the shared one has the smallest name. */
  lemma SharedIsLeast(index: Index, p: string, q: string)
    requires GoodIndex(index) && IsShared(index, p) && q != p && Served(index, index.Keys, q) != {}
    requires |Served(index, index.Keys, q)| == |Served(index, index.Keys, p)|
    ensures var mine, other := SummedMedian(index, Served(index, index.Keys, p), p),
                               SummedMedian(index, Served(index, index.Keys, q), q);
      && (mine <= other || other >= 0xFFFF_FFFF_FFFF_FFFF)
      && (mine == other ==> Less(p, q))
  {
    assert Beats(p, CoverageOf(index, index.Keys, p), q, CoverageOf(index, index.Keys, q));
  }

  /** No provider serves more agents than the shared one. */
  lemma {:induction false} SharedCoversMost(index: Index, p: string, q: string)
    requires GoodIndex(index) && IsShared(index, p)
    ensures |Served(index, index.Keys, q)| <= |Served(index, index.Keys, p)|
  {
    if q != p && Served(index, index.Keys, q) != {} {
      assert Beats(p, CoverageOf(index, index.Keys, p), q, CoverageOf(index, index.Keys, q));
    }
  }

  /** The shared provider wherever it passed, and the fastest one elsewhere. */
  function RoutesVia(cases: seq<AgentCase>, index: Index, provider: string): Routes
    requires GoodIndex(index)
  {
    map agent | agent in Agents(cases) && agent in index ::
      if Serves(index, agent, provider) then provider else Select(index[agent], Latency).provider
  }

  lemma RoutesStep(front: seq<AgentCase>, c: AgentCase, index: Index, provider: string)
    requires GoodIndex(index)
    ensures RoutesVia(front + [c], index, provider)
         == if c.agent in index
            then RoutesVia(front, index, provider)
                 [c.agent := if Serves(index, c.agent, provider) then provider else Select(index[c.agent], Latency).provider]
            else RoutesVia(front, index, provider)
  {
    assert Agents(front + [c]) == Agents(front) + {c.agent};
  }

  method RouteCases(cases: seq<AgentCase>, index: Index, provider: string) returns (routes: Routes)
    requires GoodIndex(index)
    ensures routes == RoutesVia(cases, index, provider)
  {
    var fastest := SelectRoutes(cases, index, Latency);
    routes := map[];
    for n := 0 to |cases|
      invariant routes == RoutesVia(cases[..n], index, provider)
    {
      var agent := cases[n].agent;
      assert cases[..n + 1] == cases[..n] + [cases[n]];
      RoutesStep(cases[..n], cases[n], index, provider);
      assert agent in Agents(cases);
      if EvaluationFor(index, agent, provider).Some? {
        routes := routes[agent := provider];
      } else if agent in fastest {
        routes := routes[agent := fastest[agent]];
      }
    }
    assert cases[..|cases|] == cases;
  }

  ghost predicate IsSharedResult(cases: seq<AgentCase>, index: Index, routes: Option<Routes>, provider: string)
    requires GoodIndex(index)
  {
    && IsShared(index, provider)
    && var via := RoutesVia(cases, index, provider); routes == if |via| == |cases| then Some(via) else None
  }

  method SharedRoutes(cases: seq<AgentCase>, index: Index) returns (routes: Option<Routes>)
    requires GoodIndex(index)
    ensures index == map[] ==> routes == None
    ensures index != map[] ==> exists p :: IsSharedResult(cases, index, routes, p)
  {
    var coverage := AccumulateCoverage(index);
    var shared := ChooseShared(coverage);
    AgentsAreCovered(index, coverage);
    if shared.None? {
      return None;
    }
    BestIsShared(index, coverage, shared.value);
    var chosen := RouteCases(cases, index, shared.value);
    routes := if |chosen| == |cases| then Some(chosen) else None;
    assert IsSharedResult(cases, index, routes, shared.value);
  }

  /** The shared routes: every case's agent goes to the shared provider if that passed for it, and else to a passing
      provider that no other is faster than. */
  lemma SharedRoutesServe(cases: seq<AgentCase>, index: Index, routes: Routes, provider: string, agent: string)
    requires GoodIndex(index) && IsSharedResult(cases, index, Some(routes), provider)
    ensures routes.Keys == Agents(cases) && DistinctAgents(cases)
    ensures agent in Agents(cases) ==> agent in index && EvaluationFor(index, agent, routes[agent]).Some?
    ensures agent in Agents(cases) && EvaluationFor(index, agent, provider).Some? ==> routes[agent] == provider
    ensures agent in Agents(cases) && EvaluationFor(index, agent, provider) == None ==>
      forall i :: 0 <= i < |index[agent]| ==> MedianOf(index, agent, routes[agent]) <= index[agent][i].outcome.median
  {
    AgentCount(cases);
    if routes.Keys != Agents(cases) {
      var missing :| missing in Agents(cases) && missing !in routes;
      SubsetSize(routes.Keys, Agents(cases) - {missing});
    }
    if agent in Agents(cases) && !Serves(index, agent, provider) {
      SelectedIsFound(index, agent, Latency);
    }
  }

  lemma BestIsShared(index: Index, coverage: map<string, Coverage>, best: string)
    requires GoodIndex(index) && IsCoverage(index, index.Keys, coverage) && IsBest(coverage, best)
    ensures IsShared(index, best)
  {
  }

  lemma AgentsAreCovered(index: Index, coverage: map<string, Coverage>)
    requires GoodIndex(index) && IsCoverage(index, index.Keys, coverage)
    ensures index != map[] <==> coverage != map[]
  {
    forall p | p in coverage
      ensures index != map[]
    {
      var agent :| agent in Served(index, index.Keys, p);
    }
    if index != map[] {
      var agent :| agent in index;
      ProviderAt(index[agent], agent, 0);
      assert agent in Served(index, index.Keys, index[agent][0].provider);
    }
  }
}

/** Every later sync lays the manifest that is active by then, an earlier overlay, over the same release.
    This settles after at most two rounds. */
module Resync {
  import opened Outcomes
  import opened Lists
  import opened ReleaseOverlay
  import opened OverlayTheorems
  import opened OverlayFixpoints

  // --- Agents -----------------------------------------------------------------------------------

  /** A Python agent of the source is one of the overlay. */
  lemma PythonAgentStays(r: Manifest, s: Manifest, id: string)
    requires UniqueIds(r) && UniqueIds(s) && PythonAgent(s, id)
    ensures PythonAgent(Overlay(r, s), id)
  {
    var m := Overlay(r, s);
    var k :| 0 <= k < |s.agents| && s.agents[k].id == id && PythonId(s, s.agents[k].provider);
    PythonIdStays(r, s, s.agents[k]);
    PythonAgentsAreKept(r, s, s.agents[k]);
    var a :| a in m.agents && a.id == id && a.provider == s.agents[k].provider;
    var j :| 0 <= j < |m.agents| && m.agents[j] == a;
  }

  lemma PythonIdStays(r: Manifest, s: Manifest, b: Agent)
    requires UniqueIds(r) && UniqueIds(s) && b in s.agents && PythonId(s, b.provider)
    ensures PythonId(Overlay(r, s), b.provider)
  {
    var m := Overlay(r, s);
    var i :| 0 <= i < |s.providers| && s.providers[i].id == b.provider && s.providers[i].kind == "python";
    PythonProvidersAreKept(r, s, b, s.providers[i]);
    var l :| 0 <= l < |m.providers| && m.providers[l] == s.providers[i];
  }

  /** Merging an agent of the overlay into the remote's agent gives it back. */
  lemma MergeBack(r: Manifest, s: Manifest, i: nat)
    requires UniqueIds(r) && UniqueIds(s) && i < |r.agents|
    ensures i < |OverlaidAgents(r, s)|
    ensures MergeAgent(r.agents[i], OverlaidAgents(r, s)[i]) == OverlaidAgents(r, s)[i]
  {
    OverlaidAgentFacts(r, s);
    PythonAgentFacts(s);
    var pythons := PythonAgents(s);
    if PythonAgent(s, r.agents[i].id) {
      var j :| 0 <= j < |pythons| && AgentId(pythons[j]) == r.agents[i].id;
      assert pythons[j] in pythons;
      MergingAgain(pythons[j].metadata, r.agents[i].metadata);
    } else {
      MergingAgain(r.agents[i].metadata, r.agents[i].metadata);
    }
  }

  lemma AgentHead(r: Manifest, s: Manifest, i: nat)
    requires UniqueIds(r) && UniqueIds(s) && i < |r.agents|
    ensures i < |OverlaidAgents(r, s)|
    ensures MergedWith(r.agents[i], PythonAgents(Overlay(r, s)), AgentId, MergeAgent) == OverlaidAgents(r, s)[i]
  {
    var m := Overlay(r, s);
    OverlayParts(r, s);
    OverlayHasUniqueIds(r, s);
    OverlaidAgentFacts(r, s);
    if PythonAgent(m, r.agents[i].id) {
      PickedAgent(m, i);
      MergeBack(r, s, i);
    } else {
      PythonAgentFacts(m);
      if PythonAgent(s, r.agents[i].id) { PythonAgentStays(r, s, r.agents[i].id); }
    }
  }

  lemma AgentHeads(r: Manifest, s: Manifest)
    requires UniqueIds(r) && UniqueIds(s)
    ensures |r.agents| <= |OverlaidAgents(r, s)|
    ensures Heads(r.agents, PythonAgents(Overlay(r, s)), AgentId, MergeAgent) == OverlaidAgents(r, s)[..|r.agents|]
  {
    OverlaidAgentFacts(r, s);
    forall i | 0 <= i < |r.agents|
      ensures MergedWith(r.agents[i], PythonAgents(Overlay(r, s)), AgentId, MergeAgent) == OverlaidAgents(r, s)[i]
    {
      AgentHead(r, s, i);
    }
  }

  lemma PickedAgent(m: Manifest, i: nat)
    requires UniqueIds(m) && i < |m.agents| && PythonAgent(m, m.agents[i].id)
    ensures var pythons := PythonAgents(m); var p := Position(pythons, AgentId, m.agents[i].id);
      p < |pythons| && pythons[p] == m.agents[i]
  {
    PythonAgentFacts(m);
    assert m.agents[i] in PythonAgents(m);
    UniqueItem(PythonAgents(m), AgentId, m.agents[i]);
  }

  lemma AgentTail(r: Manifest, s: Manifest)
    requires UniqueIds(r) && UniqueIds(s)
    ensures Filter(PythonAgents(Overlay(r, s)), Absent(r.agents, AgentId)) == Filter(PythonAgents(s), Absent(r.agents, AgentId))
  {
    OverlayParts(r, s);
    var head, tail := AgentSplit(r, s);
    forall a | a in tail
      ensures PythonAgent(Overlay(r, s), a.id)
    {
      PythonAgentStays(r, s, a.id);
    }
    AgentHeadsAreKnown(r, head);
    FilterToTail(head, tail, (a: Agent) => PythonAgent(Overlay(r, s), a.id), Absent(r.agents, AgentId));
  }

  lemma AgentHeadsAreKnown(r: Manifest, head: seq<Agent>)
    requires |head| == |r.agents| && forall i :: 0 <= i < |head| ==> head[i].id == r.agents[i].id
    ensures forall a :: a in head ==> HasKey(r.agents, AgentId, AgentId(a))
  {
    forall a | a in head
      ensures HasKey(r.agents, AgentId, AgentId(a))
    {
      var i :| 0 <= i < |head| && head[i] == a;
      assert AgentId(r.agents[i]) == AgentId(a);
    }
  }

  lemma AgentsSettle(r: Manifest, s: Manifest)
    requires UniqueIds(r) && UniqueIds(s)
    ensures OverlaidAgents(r, Overlay(r, s)) == OverlaidAgents(r, s)
  {
    AgentHeads(r, s);
    AgentTail(r, s);
    var head, tail := AgentSplit(r, s);
    assert OverlaidAgents(r, s)[..|r.agents|] == head;
  }

  // --- Providers --------------------------------------------------------------------------------

  lemma KeepingSettles(r: Manifest, s: Manifest, p: Provider)
    requires UniqueIds(r) && UniqueIds(s)
    ensures KeepsProvider(r, Overlay(r, s), p) == KeepsProvider(r, s, p)
  {
    var m := Overlay(r, s);
    AgentsSettle(r, s);
    if Displaced(r, s, p.id) {
      var i :| 0 <= i < |r.agents| && r.agents[i].provider == p.id && PythonAgent(s, r.agents[i].id);
      PythonAgentStays(r, s, r.agents[i].id);
      assert Displaced(r, m, p.id);
    } else if Displaced(r, m, p.id) {
      var i :| 0 <= i < |r.agents| && r.agents[i].provider == p.id && PythonAgent(m, r.agents[i].id);
      assert !PythonAgent(s, r.agents[i].id);
      OverlaidAgentFacts(r, s);
      assert OverlaidAgents(r, s)[i].provider == p.id;
    }
  }

  /** Whether an overlaid provider is Python decides what the next round puts in its place. */
  lemma ProviderHeadSettles(r: Manifest, s: Manifest, i: nat)
    requires UniqueIds(r) && UniqueIds(s) && i < |r.providers|
    ensures i < |OverlaidProviders(r, s)| && i < |OverlaidProviders(r, Overlay(r, s))|
    ensures OverlaidProviders(r, s)[i].id == r.providers[i].id
    ensures OverlaidProviders(r, Overlay(r, s))[i].id == r.providers[i].id
    ensures KeepsProvider(r, s, OverlaidProviders(r, s)[i]) ==>
      OverlaidProviders(r, Overlay(r, s))[i] == OverlaidProviders(r, s)[i]
  {
    var m, o := Overlay(r, s), OverlaidProviders(r, s);
    OverlayParts(r, s);
    OverlayHasUniqueIds(r, s);
    OverlaidProviderFacts(r, s);
    OverlaidProviderFacts(r, m);
    if KeepsProvider(r, s, o[i]) {
      assert o[i] in m.providers;
      KeptKind(m, o[i]);
      if PythonId(m, o[i].id) {
        SamePython(r, m, o[i], i);
      } else {
        PythonProviderFacts(s);
      }
    }
  }

  lemma KeptKind(m: Manifest, p: Provider)
    requires UniqueIds(m) && p in m.providers
    ensures PythonId(m, p.id) <==> p.kind == "python"
  {
    var i :| 0 <= i < |m.providers| && m.providers[i] == p;
    if PythonId(m, p.id) {
      var j :| 0 <= j < |m.providers| && m.providers[j].id == p.id && m.providers[j].kind == "python";
      assert ProviderId(m.providers[i]) == ProviderId(m.providers[j]);
    }
  }

  lemma SamePython(r: Manifest, m: Manifest, p: Provider, i: nat)
    requires UniqueIds(r) && UniqueIds(m) && p in m.providers && PythonId(m, p.id)
    requires i < |r.providers| && r.providers[i].id == p.id
    ensures i < |OverlaidProviders(r, m)| && OverlaidProviders(r, m)[i] == p
  {
    OverlaidProviderFacts(r, m);
    PythonProviderFacts(m);
    KeptKind(m, p);
    UniqueItem(PythonProviders(m), ProviderId, p);
    UniqueItem(PythonProviders(m), ProviderId, OverlaidProviders(r, m)[i]);
  }

  /** The remote's providers in their places, and then the Python providers that the remote lacks. */
  lemma ProviderSplit(r: Manifest, s: Manifest) returns (head: seq<Provider>, tail: seq<Provider>)
    requires UniqueIds(r) && UniqueIds(s)
    ensures OverlaidProviders(r, s) == head + tail && |head| == |r.providers|
    ensures tail == Filter(PythonProviders(s), Absent(r.providers, ProviderId))
    ensures forall i :: 0 <= i < |head| ==> head[i] == OverlaidProviders(r, s)[i]
  {
    KeysAreKept();
    UpsertedKeys(r.providers, PythonProviders(s), ProviderId, Replace);
    var o := OverlaidProviders(r, s);
    head, tail := o[..|r.providers|], o[|r.providers|..];
  }

  lemma DisplacedIsKnown(r: Manifest, s: Manifest, provider: string)
    requires Valid(r) && Displaced(r, s, provider)
    ensures HasKey(r.providers, ProviderId, provider)
  {
    var i :| 0 <= i < |r.agents| && r.agents[i].provider == provider && PythonAgent(s, r.agents[i].id);
  }

  /** What the remote lacks, no remote agent has as its provider. */
  lemma TailIsKept(r: Manifest, s: Manifest, p: Provider)
    requires Valid(r) && !HasKey(r.providers, ProviderId, p.id)
    ensures KeepsProvider(r, s, p)
  {
    if Displaced(r, s, p.id) { DisplacedIsKnown(r, s, p.id); }
  }

  lemma TailSettles(r: Manifest, s: Manifest)
    requires Valid(r) && UniqueIds(s)
    ensures Filter(PythonProviders(Overlay(r, s)), Absent(r.providers, ProviderId))
         == Filter(PythonProviders(s), Absent(r.providers, ProviderId))
  {
    var keeps := (p: Provider) => KeepsProvider(r, s, p);
    OverlayParts(r, s);
    var head, tail := ProviderSplit(r, s);
    TailIsPython(r, s, tail);
    FilterAppend(head, tail, keeps);
    FilterAll(tail, keeps);
    HeadsAreKnown(r, s, head);
    FilterToTail(Filter(head, keeps), tail, (p: Provider) => PythonId(Overlay(r, s), p.id), Absent(r.providers, ProviderId));
  }

  lemma HeadsAreKnown(r: Manifest, s: Manifest, head: seq<Provider>)
    requires UniqueIds(r) && UniqueIds(s)
    requires |head| == |r.providers| <= |OverlaidProviders(r, s)|
    requires forall i :: 0 <= i < |head| ==> head[i] == OverlaidProviders(r, s)[i]
    ensures forall p :: p in head ==> HasKey(r.providers, ProviderId, ProviderId(p))
  {
    OverlaidProviderFacts(r, s);
    forall p | p in head
      ensures HasKey(r.providers, ProviderId, ProviderId(p))
    {
      var i :| 0 <= i < |head| && head[i] == p;
      assert ProviderId(r.providers[i]) == ProviderId(p);
    }
  }

  lemma TailIsPython(r: Manifest, s: Manifest, tail: seq<Provider>)
    requires Valid(r) && UniqueIds(s)
    requires tail == Filter(PythonProviders(s), Absent(r.providers, ProviderId))
    ensures forall p :: p in tail ==> KeepsProvider(r, s, p) && PythonId(Overlay(r, s), p.id)
    ensures forall p :: p in tail ==> !HasKey(r.providers, ProviderId, p.id)
  {
    forall p | p in tail
      ensures KeepsProvider(r, s, p) && PythonId(Overlay(r, s), p.id)
    {
      TailIsKept(r, s, p);
      KeptIsPython(r, s, p);
    }
  }

  lemma KeptIsPython(r: Manifest, s: Manifest, p: Provider)
    requires UniqueIds(r) && UniqueIds(s) && p in PythonProviders(s) && KeepsProvider(r, s, p)
    ensures PythonId(Overlay(r, s), p.id)
  {
    OverlayParts(r, s);
    OverlaidProviderFacts(r, s);
    PythonProviderFacts(s);
    assert p in Overlay(r, s).providers;
    var i :| 0 <= i < |Overlay(r, s).providers| && Overlay(r, s).providers[i] == p;
  }

  lemma ProvidersSettle(r: Manifest, s: Manifest)
    requires Valid(r) && UniqueIds(s)
    ensures Overlay(r, Overlay(r, s)).providers == Overlay(r, s).providers
  {
    var m := Overlay(r, s);
    var f, g := (p: Provider) => KeepsProvider(r, s, p), (p: Provider) => KeepsProvider(r, m, p);
    OverlayParts(r, s);
    OverlayHasUniqueIds(r, s);
    OverlayParts(r, m);
    var head, tail := ProviderSplit(r, s);
    var head', tail' := ProviderSplit(r, m);
    TailSettles(r, s);
    FilterAppend(head, tail, f);
    FilterAppend(head', tail', g);
    forall i | 0 <= i < |head|
      ensures f(head[i]) == g(head'[i]) && (f(head[i]) ==> head[i] == head'[i])
    {
      ProviderHeadSettles(r, s, i);
      KeepingSettles(r, s, head[i]);
      assert head[i].id == head'[i].id;
    }
    FilterAligned(head, head', f, g);
    forall i | 0 <= i < |tail|
      ensures f(tail[i]) == g(tail[i])
    {
      KeepingSettles(r, s, tail[i]);
    }
    FilterAligned(tail, tail, f, g);
  }

  // --- Endpoints --------------------------------------------------------------------------------

  /** The endpoints that the first round leaves to the remote. */
  function Staying(r: Manifest, s: Manifest): seq<Endpoint> {
    Filter(r.endpoints, ServesOthers(s))
  }

  /** Among them, those of the remote's own Python agents come last. */
  predicate PythonEndpointsComeLast(r: Manifest, s: Manifest) {
    Sorted(r, s) == Staying(r, s)
  }

  function Sorted(r: Manifest, s: Manifest): seq<Endpoint> {
    var m := Overlay(r, s);
    Filter(Staying(r, s), ServesOthers(m)) + Filter(Staying(r, s), ServesPython(m))
  }

  lemma PythonAgentsStay(r: Manifest, s: Manifest)
    requires UniqueIds(r) && UniqueIds(s)
    ensures forall id :: PythonAgent(s, id) ==> PythonAgent(Overlay(r, s), id)
  {
    forall id | PythonAgent(s, id)
      ensures PythonAgent(Overlay(r, s), id)
    {
      PythonAgentStays(r, s, id);
    }
  }

  /** What the next round leaves to the remote, the first one had left already. */
  lemma StayingEndpoints(r: Manifest, s: Manifest)
    requires UniqueIds(r) && UniqueIds(s)
    ensures Filter(r.endpoints, ServesOthers(Overlay(r, s))) == Filter(Staying(r, s), ServesOthers(Overlay(r, s)))
  {
    var others := ServesOthers(Overlay(r, s));
    PythonAgentsStay(r, s);
    FilterTwice(r.endpoints, ServesOthers(s), others, others);
  }

  /** What the next round brings are the remote's own Python endpoints and those that the first round brought. */
  lemma ComingEndpoints(r: Manifest, s: Manifest)
    requires UniqueIds(r) && UniqueIds(s)
    ensures Filter(Overlay(r, s).endpoints, ServesPython(Overlay(r, s)))
         == Filter(Staying(r, s), ServesPython(Overlay(r, s))) + Filter(s.endpoints, ServesPython(s))
  {
    var pythons, come := ServesPython(Overlay(r, s)), Filter(s.endpoints, ServesPython(s));
    OverlayParts(r, s);
    PythonAgentsStay(r, s);
    FilterAppend(Staying(r, s), come, pythons);
    FilterAll(come, pythons);
  }

  lemma EndpointsAfter(r: Manifest, s: Manifest)
    requires UniqueIds(r) && UniqueIds(s)
    ensures OverlaidEndpoints(r, Overlay(r, s)) == Sorted(r, s) + Filter(s.endpoints, ServesPython(s))
  {
    StayingEndpoints(r, s);
    ComingEndpoints(r, s);
  }

  /** A later sync of the same release changes nothing, exactly when the endpoints of the remote's own
      Python agents come after those of its other agents. */
  lemma ResyncChangesNothing(r: Manifest, s: Manifest)
    requires Valid(r) && UniqueIds(s)
    ensures Overlay(r, Overlay(r, s)) == Overlay(r, s) <==> PythonEndpointsComeLast(r, s)
  {
    var m := Overlay(r, s);
    OverlayParts(r, s);
    OverlayHasUniqueIds(r, s);
    OverlayParts(r, m);
    AgentsSettle(r, s);
    ProvidersSettle(r, s);
    EndpointsAfter(r, s);
    var come := Filter(s.endpoints, ServesPython(s));
    assert m.endpoints == Staying(r, s) + come;
    SameFront(Sorted(r, s), Staying(r, s), come);
  }

  lemma SameFront<T>(a: seq<T>, b: seq<T>, c: seq<T>)
    ensures a + c == b + c <==> a == b
  {
    if a + c == b + c {
      assert |a| == |b|;
      assert (a + c)[..|a|] == a && (b + c)[..|b|] == b;
    }
  }

  /** After two rounds the manifest is settled, whatever the order of the endpoints. */
  lemma TwoRoundsSettle(r: Manifest, s: Manifest)
    requires Valid(r) && UniqueIds(s)
    ensures var m := Overlay(r, Overlay(r, s)); Overlay(r, m) == m
  {
    var one := Overlay(r, s);
    var two := Overlay(r, one);
    OverlayHasUniqueIds(r, s);
    SecondRoundAgents(r, s);
    var stay := Staying(r, one);
    FilterAll(stay, ServesOthers(two));
    FilterNone(stay, ServesPython(two));
    ResyncChangesNothing(r, one);
  }

  lemma SecondRoundAgents(r: Manifest, s: Manifest)
    requires Valid(r) && UniqueIds(s)
    ensures forall id :: PythonAgent(Overlay(r, Overlay(r, s)), id) == PythonAgent(Overlay(r, s), id)
  {
    OverlayHasUniqueIds(r, s);
    OverlayParts(r, s);
    OverlayParts(r, Overlay(r, s));
    AgentsSettle(r, s);
    ProvidersSettle(r, s);
    SamePythonAgents(Overlay(r, Overlay(r, s)), Overlay(r, s));
  }

  lemma SamePythonAgents(a: Manifest, b: Manifest)
    requires a.providers == b.providers && a.agents == b.agents
    ensures forall id :: PythonAgent(a, id) == PythonAgent(b, id)
  {
    assert forall id :: PythonId(a, id) == PythonId(b, id);
  }
}

/** What the overlay keeps, and what applying it again changes. */
module OverlayTheorems {
  import opened Outcomes
  import opened Lists
  import opened ReleaseOverlay

  // --- The parts of an overlay ------------------------------------------------------------------

  lemma PythonProviderFacts(m: Manifest)
    requires UniqueIds(m)
    ensures UniqueKeys(PythonProviders(m), ProviderId)
    ensures forall p :: p in PythonProviders(m) <==> p in m.providers && p.kind == "python"
    ensures forall id :: HasKey(PythonProviders(m), ProviderId, id) <==> PythonId(m, id)
  {
    PythonPartsAreUnique(m);
    var pythons := PythonProviders(m);
    forall p | p in m.providers
      ensures PythonId(m, p.id) <==> p.kind == "python"
    {
      var i :| 0 <= i < |m.providers| && m.providers[i] == p;
    }
    forall id | PythonId(m, id)
      ensures HasKey(pythons, ProviderId, id)
    {
      var i :| 0 <= i < |m.providers| && m.providers[i].id == id && m.providers[i].kind == "python";
      assert m.providers[i] in pythons;
      var j :| 0 <= j < |pythons| && pythons[j] == m.providers[i];
      assert ProviderId(pythons[j]) == id;
    }
    assert forall j :: 0 <= j < |pythons| ==> pythons[j] in pythons;
  }

  lemma PythonAgentFacts(m: Manifest)
    requires UniqueIds(m)
    ensures UniqueKeys(PythonAgents(m), AgentId)
    ensures forall a :: a in PythonAgents(m) <==> a in m.agents && PythonId(m, a.provider)
    ensures forall id :: HasKey(PythonAgents(m), AgentId, id) <==> PythonAgent(m, id)
  {
    PythonPartsAreUnique(m);
    PythonAgentsByProvider(m);
    forall id
      ensures HasKey(PythonAgents(m), AgentId, id) <==> PythonAgent(m, id)
    {
      PythonAgentIds(m, id);
    }
  }

  lemma PythonAgentsByProvider(m: Manifest)
    requires UniqueKeys(m.agents, AgentId)
    ensures forall a :: a in PythonAgents(m) <==> a in m.agents && PythonId(m, a.provider)
  {
    forall a | a in m.agents
      ensures PythonAgent(m, a.id) <==> PythonId(m, a.provider)
    {
      var i :| 0 <= i < |m.agents| && m.agents[i] == a;
      if PythonAgent(m, a.id) {
        var j :| 0 <= j < |m.agents| && m.agents[j].id == a.id && PythonId(m, m.agents[j].provider);
        assert AgentId(m.agents[i]) == AgentId(m.agents[j]);
      }
    }
  }

  lemma PythonAgentIds(m: Manifest, id: string)
    ensures HasKey(PythonAgents(m), AgentId, id) <==> PythonAgent(m, id)
  {
    var pythons := PythonAgents(m);
    if PythonAgent(m, id) {
      var i :| 0 <= i < |m.agents| && m.agents[i].id == id && PythonId(m, m.agents[i].provider);
      assert m.agents[i] in pythons;
      var j :| 0 <= j < |pythons| && pythons[j] == m.agents[i];
      assert AgentId(pythons[j]) == id;
    }
    if HasKey(pythons, AgentId, id) {
      var j :| 0 <= j < |pythons| && AgentId(pythons[j]) == id;
      assert pythons[j] in pythons;
    }
  }

  lemma OverlaidProviderFacts(r: Manifest, s: Manifest)
    requires UniqueIds(r) && UniqueIds(s)
    ensures var o := OverlaidProviders(r, s);
      && |o| >= |r.providers| && UniqueKeys(o, ProviderId)
      && (forall i :: 0 <= i < |r.providers| ==> o[i].id == r.providers[i].id)
      && (forall i :: 0 <= i < |r.providers| && !PythonId(s, r.providers[i].id) ==> o[i] == r.providers[i])
      && (forall i :: 0 <= i < |r.providers| && PythonId(s, r.providers[i].id) ==> o[i] in PythonProviders(s))
      && (forall i :: |r.providers| <= i < |o| ==> o[i] in PythonProviders(s) && !HasKey(r.providers, ProviderId, o[i].id))
      && (forall p :: p in PythonProviders(s) ==> p in o)
  {
    var news := PythonProviders(s);
    KeysAreKept();
    PythonProviderFacts(s);
    UpsertedUnique(r.providers, news, ProviderId, Replace);
    UpsertedKeys(r.providers, news, ProviderId, Replace);
    UpsertedTail(r.providers, news, ProviderId, Replace);
    forall i | 0 <= i < |r.providers|
      ensures !PythonId(s, r.providers[i].id) ==> OverlaidProviders(r, s)[i] == r.providers[i]
      ensures forall p :: p in news && p.id == r.providers[i].id ==> OverlaidProviders(r, s)[i] == p
      ensures PythonId(s, r.providers[i].id) ==> OverlaidProviders(r, s)[i] in news
    {
      UpsertedHead(r.providers, news, ProviderId, Replace, i);
      if PythonId(s, r.providers[i].id) {
        var j :| 0 <= j < |news| && ProviderId(news[j]) == r.providers[i].id;
      }
    }
  }

  lemma OverlaidAgentFacts(r: Manifest, s: Manifest)
    requires UniqueIds(r) && UniqueIds(s)
    ensures var o := OverlaidAgents(r, s);
      && |o| >= |r.agents| && UniqueKeys(o, AgentId)
      && (forall i :: 0 <= i < |r.agents| ==> o[i].id == r.agents[i].id)
      && (forall i :: 0 <= i < |r.agents| && !PythonAgent(s, r.agents[i].id) ==> o[i] == r.agents[i])
      && (forall i, b :: 0 <= i < |r.agents| && b in PythonAgents(s) && b.id == r.agents[i].id ==>
            o[i] == MergeAgent(r.agents[i], b))
      && (forall i :: |r.agents| <= i < |o| ==> o[i] in PythonAgents(s) && !HasKey(r.agents, AgentId, o[i].id))
      && (forall b :: b in PythonAgents(s) && !HasKey(r.agents, AgentId, b.id) ==> b in o)
  {
    var news := PythonAgents(s);
    KeysAreKept();
    PythonAgentFacts(s);
    UpsertedUnique(r.agents, news, AgentId, MergeAgent);
    UpsertedKeys(r.agents, news, AgentId, MergeAgent);
    UpsertedTail(r.agents, news, AgentId, MergeAgent);
    forall i | 0 <= i < |r.agents|
      ensures !PythonAgent(s, r.agents[i].id) ==> OverlaidAgents(r, s)[i] == r.agents[i]
      ensures forall b :: b in news && b.id == r.agents[i].id ==> OverlaidAgents(r, s)[i] == MergeAgent(r.agents[i], b)
    {
      UpsertedHead(r.agents, news, AgentId, MergeAgent, i);
    }
  }

  /** The early return of a source without Python providers is no special case. */
  lemma OverlayParts(r: Manifest, s: Manifest)
    requires UniqueIds(r) && UniqueIds(s)
    ensures Overlay(r, s).agents == OverlaidAgents(r, s)
    ensures Overlay(r, s).endpoints == OverlaidEndpoints(r, s)
    ensures Overlay(r, s).providers == Filter(OverlaidProviders(r, s), (p: Provider) => KeepsProvider(r, s, p))
    ensures Overlay(r, s).project == r.project && Overlay(r, s).metadata == r.metadata
  {
    if !HasPython(s) {
      assert forall id :: !PythonId(s, id);
      assert forall id :: !PythonAgent(s, id);
      FilterNone(s.providers, (p: Provider) => PythonId(s, p.id));
      FilterNone(s.agents, (a: Agent) => PythonAgent(s, a.id));
      NothingNew(r.providers, ProviderId, Replace);
      NothingNew(r.agents, AgentId, MergeAgent);
      FilterAll(r.providers, (p: Provider) => KeepsProvider(r, s, p));
      FilterAll(r.endpoints, ServesOthers(s));
      FilterNone(s.endpoints, ServesPython(s));
    }
  }

  // --- What is kept -----------------------------------------------------------------------------

  /** Every Python agent of the source is there with its provider and capabilities, and under the
      remote's name if it has one. */
  lemma PythonAgentsAreKept(r: Manifest, s: Manifest, b: Agent)
    requires UniqueIds(r) && UniqueIds(s) && b in s.agents && PythonId(s, b.provider)
    ensures exists a :: a in Overlay(r, s).agents && a.id == b.id && a.provider == b.provider && a.capabilities == b.capabilities
  {
    PythonAgentFacts(s);
    OverlaidAgentFacts(r, s);
    OverlayParts(r, s);
    if HasKey(r.agents, AgentId, b.id) {
      var i :| 0 <= i < |r.agents| && AgentId(r.agents[i]) == b.id;
      assert OverlaidAgents(r, s)[i] == MergeAgent(r.agents[i], b);
      assert OverlaidAgents(r, s)[i] in Overlay(r, s).agents;
    } else {
      assert b in Overlay(r, s).agents;
    }
  }

  lemma PythonAgentIsUser(r: Manifest, s: Manifest, b: Agent)
    requires UniqueIds(r) && UniqueIds(s) && b in s.agents && PythonId(s, b.provider)
    ensures UsedBy(OverlaidAgents(r, s), b.provider) && HasKey(OverlaidAgents(r, s), AgentId, b.id)
  {
    PythonAgentsAreKept(r, s, b);
    OverlayParts(r, s);
    UserInList(OverlaidAgents(r, s), b);
  }

  lemma UserInList(agents: seq<Agent>, b: Agent)
    requires exists a :: a in agents && a.id == b.id && a.provider == b.provider
    ensures UsedBy(agents, b.provider) && HasKey(agents, AgentId, b.id)
  {
    var a :| a in agents && a.id == b.id && a.provider == b.provider;
    MemberHasKey(agents, AgentId, a);
    var j :| 0 <= j < |agents| && agents[j] == a;
  }

  lemma UsedProviderIsKept(r: Manifest, s: Manifest, p: Provider)
    requires UniqueIds(r) && UniqueIds(s)
    requires p in OverlaidProviders(r, s) && UsedBy(OverlaidAgents(r, s), p.id)
    ensures p in Overlay(r, s).providers
  {
    OverlayParts(r, s);
  }

  /** Its provider is there exactly as the source has it. */
  lemma PythonProvidersAreKept(r: Manifest, s: Manifest, b: Agent, p: Provider)
    requires UniqueIds(r) && UniqueIds(s) && b in s.agents && p in s.providers
    requires p.kind == "python" && b.provider == p.id
    ensures p in Overlay(r, s).providers
  {
    var i :| 0 <= i < |s.providers| && s.providers[i] == p;
    assert PythonId(s, b.provider);
    PythonAgentIsUser(r, s, b);
    PythonProviderFacts(s);
    OverlaidProviderFacts(r, s);
    UsedProviderIsKept(r, s, p);
  }

  /** The endpoints of a Python agent are exactly the source's, in order, and those of every other agent
      exactly the remote's. Agents that are not Python agents of the source do not change. */
  lemma EndpointsAndOthersAreKept(r: Manifest, s: Manifest)
    requires UniqueIds(r) && UniqueIds(s)
    ensures Filter(Overlay(r, s).endpoints, ServesPython(s))
         == Filter(s.endpoints, ServesPython(s))
    ensures Filter(Overlay(r, s).endpoints, ServesOthers(s))
         == Filter(r.endpoints, ServesOthers(s))
    ensures Filter(Overlay(r, s).agents, (a: Agent) => !PythonAgent(s, a.id))
         == Filter(r.agents, (a: Agent) => !PythonAgent(s, a.id))
  {
    OverlayParts(r, s);
    var py, other := ServesPython(s), ServesOthers(s);
    var kept, taken := Filter(r.endpoints, other), Filter(s.endpoints, py);
    FilterAppend(kept, taken, py);
    FilterAppend(kept, taken, other);
    FilterNone(kept, py);
    FilterNone(taken, other);
    FilterAll(kept, other);
    FilterAll(taken, py);
    OtherAgentsAreKept(r, s);
  }

  lemma OtherAgentsAreKept(r: Manifest, s: Manifest)
    requires UniqueIds(r) && UniqueIds(s)
    ensures Filter(OverlaidAgents(r, s), (a: Agent) => !PythonAgent(s, a.id))
         == Filter(r.agents, (a: Agent) => !PythonAgent(s, a.id))
  {
    var o, other := OverlaidAgents(r, s), (a: Agent) => !PythonAgent(s, a.id);
    var head, tail := AgentSplit(r, s);
    FilterAppend(head, tail, other);
    FilterAligned(head, r.agents, other, other);
    FilterNone(tail, other);
  }

  /** The remote's agents in their places, and then the Python agents that the remote does not have. */
  lemma AgentSplit(r: Manifest, s: Manifest) returns (head: seq<Agent>, tail: seq<Agent>)
    requires UniqueIds(r) && UniqueIds(s)
    ensures OverlaidAgents(r, s) == head + tail && |head| == |r.agents|
    ensures tail == Filter(PythonAgents(s), Absent(r.agents, AgentId))
    ensures forall i :: 0 <= i < |head| ==> head[i].id == r.agents[i].id
    ensures forall i :: 0 <= i < |head| && !PythonAgent(s, r.agents[i].id) ==> head[i] == r.agents[i]
    ensures forall a :: a in tail ==> PythonAgent(s, a.id)
  {
    OverlaidAgentFacts(r, s);
    KeysAreKept();
    UpsertedKeys(r.agents, PythonAgents(s), AgentId, MergeAgent);
    var o := OverlaidAgents(r, s);
    head, tail := o[..|r.agents|], o[|r.agents|..];
    forall a | a in tail
      ensures PythonAgent(s, a.id)
    {
      assert a in PythonAgents(s);
    }
  }
}

/** Applying the overlay again: over its own result with the same source, and, as every later sync does,
    over the same release with the result as the new source. */
module OverlayFixpoints {
  import opened Outcomes
  import opened Lists
  import opened Text
  import opened ReleaseOverlay
  import opened OverlayTheorems

  // --- References -------------------------------------------------------------------------------

  /** An endpoint that stays has no name of an endpoint that the overlay brings. */
  predicate NamesAreApart(r: Manifest, s: Manifest) {
    forall i, j :: 0 <= i < |r.endpoints| && 0 <= j < |s.endpoints|
      && !PythonAgent(s, r.endpoints[i].agent) && PythonAgent(s, s.endpoints[j].agent)
      ==> r.endpoints[i].name != s.endpoints[j].name
  }

  lemma OverlayHasUniqueIds(r: Manifest, s: Manifest)
    requires UniqueIds(r) && UniqueIds(s)
    ensures UniqueIds(Overlay(r, s))
  {
    OverlayParts(r, s);
    OverlaidProviderFacts(r, s);
    OverlaidAgentFacts(r, s);
    FilterIsUnique(OverlaidProviders(r, s), ProviderId, (p: Provider) => KeepsProvider(r, s, p));
  }

  /** The provider of every agent of the overlay is among its providers. */
  lemma AgentProviderIsKept(r: Manifest, s: Manifest, i: nat)
    requires Valid(r) && Valid(s) && i < |OverlaidAgents(r, s)|
    ensures HasKey(Overlay(r, s).providers, ProviderId, OverlaidAgents(r, s)[i].provider)
  {
    var o, a := OverlaidProviders(r, s), OverlaidAgents(r, s)[i];
    OverlaidAgentFacts(r, s);
    OverlaidProviderFacts(r, s);
    PythonAgentFacts(s);
    PythonProviderFacts(s);
    KeysAreKept();
    UpsertedHas(r.providers, PythonProviders(s), ProviderId, Replace, a.provider);
    ProviderIsKnown(r, s, i);
    var k :| 0 <= k < |o| && ProviderId(o[k]) == a.provider;
    UsedProviderIsKept(r, s, o[k]);
    var j :| 0 <= j < |Overlay(r, s).providers| && Overlay(r, s).providers[j] == o[k];
    assert ProviderId(Overlay(r, s).providers[j]) == a.provider;
  }

  lemma ProviderIsKnown(r: Manifest, s: Manifest, i: nat)
    requires Valid(r) && Valid(s) && i < |OverlaidAgents(r, s)|
    ensures var id := OverlaidAgents(r, s)[i].provider;
      HasKey(r.providers, ProviderId, id) || HasKey(PythonProviders(s), ProviderId, id)
  {
    OverlaidAgentFacts(r, s);
    PythonAgentFacts(s);
    PythonProviderFacts(s);
    var a := OverlaidAgents(r, s)[i];
    if i < |r.agents| && PythonAgent(s, r.agents[i].id) {
      var pythons := PythonAgents(s);
      var j :| 0 <= j < |pythons| && AgentId(pythons[j]) == r.agents[i].id;
      assert pythons[j] in pythons && a.provider == pythons[j].provider;
    } else if i >= |r.agents| {
      assert a in PythonAgents(s);
    }
  }

  lemma EndpointIsOffered(r: Manifest, s: Manifest, e: Endpoint)
    requires Valid(r) && Valid(s) && e in OverlaidEndpoints(r, s)
    ensures AgentOffers(OverlaidAgents(r, s), e.agent, e.capability)
  {
    WhereEndpointsComeFrom(r, s, e);
    if PythonAgent(s, e.agent) {
      PythonEndpointIsOffered(r, s, e);
    } else {
      OtherEndpointIsOffered(r, s, e);
    }
  }

  lemma WhereEndpointsComeFrom(r: Manifest, s: Manifest, e: Endpoint)
    requires NoDanglingReference(r) && NoDanglingReference(s) && e in OverlaidEndpoints(r, s)
    ensures PythonAgent(s, e.agent) ==> AgentOffers(s.agents, e.agent, e.capability)
    ensures !PythonAgent(s, e.agent) ==> AgentOffers(r.agents, e.agent, e.capability)
  {
    if PythonAgent(s, e.agent) {
      assert e !in Filter(r.endpoints, ServesOthers(s));
      var i :| 0 <= i < |s.endpoints| && s.endpoints[i] == e;
    } else {
      assert e !in Filter(s.endpoints, ServesPython(s));
      var i :| 0 <= i < |r.endpoints| && r.endpoints[i] == e;
    }
  }

  lemma OtherEndpointIsOffered(r: Manifest, s: Manifest, e: Endpoint)
    requires UniqueIds(r) && UniqueIds(s) && AgentOffers(r.agents, e.agent, e.capability) && !PythonAgent(s, e.agent)
    ensures AgentOffers(OverlaidAgents(r, s), e.agent, e.capability)
  {
    OverlaidAgentFacts(r, s);
    var i :| 0 <= i < |r.agents| && r.agents[i].id == e.agent && e.capability in r.agents[i].capabilities;
    assert OverlaidAgents(r, s)[i] == r.agents[i];
  }

  lemma PythonEndpointIsOffered(r: Manifest, s: Manifest, e: Endpoint)
    requires UniqueIds(r) && UniqueIds(s) && AgentOffers(s.agents, e.agent, e.capability) && PythonAgent(s, e.agent)
    ensures AgentOffers(OverlaidAgents(r, s), e.agent, e.capability)
  {
    var i :| 0 <= i < |s.agents| && s.agents[i].id == e.agent && e.capability in s.agents[i].capabilities;
    var k :| 0 <= k < |s.agents| && s.agents[k].id == e.agent && PythonId(s, s.agents[k].provider);
    assert AgentId(s.agents[i]) == AgentId(s.agents[k]);
    PythonAgentsAreKept(r, s, s.agents[i]);
    OverlayParts(r, s);
    OffererInList(OverlaidAgents(r, s), s.agents[i], e.capability);
  }

  lemma OffererInList(agents: seq<Agent>, b: Agent, capability: string)
    requires exists a :: a in agents && a.id == b.id && a.capabilities == b.capabilities
    requires capability in b.capabilities
    ensures AgentOffers(agents, b.id, capability)
  {
    var a :| a in agents && a.id == b.id && a.capabilities == b.capabilities;
    var j :| 0 <= j < |agents| && agents[j] == a;
  }

  /** No reference dangles in the overlay of valid manifests, and it is valid itself exactly when the
      endpoint names are apart. */
  lemma OverlayIsValid(r: Manifest, s: Manifest)
    requires Valid(r) && Valid(s)
    ensures UniqueIds(Overlay(r, s)) && NoDanglingReference(Overlay(r, s))
    ensures Valid(Overlay(r, s)) <==> NamesAreApart(r, s)
  {
    OverlayHasUniqueIds(r, s);
    NothingDangles(r, s, Overlay(r, s));
    OverlayParts(r, s);
    NamesDecide(r, s);
    OverlayIsInRange(r, s);
  }

  lemma NothingDangles(r: Manifest, s: Manifest, m: Manifest)
    requires Valid(r) && Valid(s) && m == Overlay(r, s)
    ensures NoDanglingReference(m)
  {
    OverlayParts(r, s);
    forall i | 0 <= i < |m.agents|
      ensures HasKey(m.providers, ProviderId, m.agents[i].provider)
    {
      AgentProviderIsKept(r, s, i);
    }
    forall i | 0 <= i < |m.endpoints|
      ensures AgentOffers(m.agents, m.endpoints[i].agent, m.endpoints[i].capability)
    {
      EndpointIsOffered(r, s, m.endpoints[i]);
    }
  }

  lemma OverlayIsInRange(r: Manifest, s: Manifest)
    requires UniqueIds(r) && UniqueIds(s) && InRange(r) && InRange(s)
    ensures InRange(Overlay(r, s))
  {
    OverlayParts(r, s);
    OverlaidProvidersInRange(r, s);
    OverlaidAgentsInRange(r, s);
  }

  lemma OverlaidProvidersInRange(r: Manifest, s: Manifest)
    requires UniqueIds(r) && UniqueIds(s) && InRange(r) && InRange(s)
    ensures forall p :: p in OverlaidProviders(r, s) ==> p.capabilities != []
  {
    OverlaidProviderFacts(r, s);
    PythonProviderFacts(s);
    var o := OverlaidProviders(r, s);
    forall p | p in o
      ensures p.capabilities != []
    {
      var i :| 0 <= i < |o| && o[i] == p;
      if i < |r.providers| && !PythonId(s, r.providers[i].id) { assert p == r.providers[i]; }
    }
  }

  lemma OverlaidAgentsInRange(r: Manifest, s: Manifest)
    requires UniqueIds(r) && UniqueIds(s) && InRange(r) && InRange(s)
    ensures forall a :: a in OverlaidAgents(r, s) ==> a.capabilities != [] && Trim(a.name) != ""
  {
    OverlaidAgentFacts(r, s);
    PythonAgentFacts(s);
    var o, pythons := OverlaidAgents(r, s), PythonAgents(s);
    forall a | a in o
      ensures a.capabilities != [] && Trim(a.name) != ""
    {
      var i :| 0 <= i < |o| && o[i] == a;
      if i < |r.agents| && PythonAgent(s, r.agents[i].id) {
        var j :| 0 <= j < |pythons| && AgentId(pythons[j]) == r.agents[i].id;
        assert pythons[j] in pythons && a == MergeAgent(r.agents[i], pythons[j]);
        assert r.agents[i] in r.agents;
      } else if i < |r.agents| {
        assert a == r.agents[i];
      }
    }
  }

  lemma NamesDecide(r: Manifest, s: Manifest)
    requires UniqueKeys(r.endpoints, EndpointName) && UniqueKeys(s.endpoints, EndpointName)
    ensures UniqueKeys(OverlaidEndpoints(r, s), EndpointName) <==> NamesAreApart(r, s)
  {
    var stay, come := Filter(r.endpoints, ServesOthers(s)), Filter(s.endpoints, ServesPython(s));
    FilterIsUnique(r.endpoints, EndpointName, ServesOthers(s));
    FilterIsUnique(s.endpoints, EndpointName, ServesPython(s));
    UniqueConcat(stay, come, EndpointName);
    if NamesAreApart(r, s) { ApartGivesDisjoint(r, s, stay, come); }
    if DisjointKeys(stay, come, EndpointName) { DisjointGivesApart(r, s, stay, come); }
  }

  lemma ApartGivesDisjoint(r: Manifest, s: Manifest, stay: seq<Endpoint>, come: seq<Endpoint>)
    requires stay == Filter(r.endpoints, ServesOthers(s)) && come == Filter(s.endpoints, ServesPython(s))
    requires NamesAreApart(r, s)
    ensures DisjointKeys(stay, come, EndpointName)
  {
    forall x, y | x in stay && y in come
      ensures EndpointName(x) != EndpointName(y)
    {
      var i :| 0 <= i < |r.endpoints| && r.endpoints[i] == x;
      var j :| 0 <= j < |s.endpoints| && s.endpoints[j] == y;
    }
  }

  lemma DisjointGivesApart(r: Manifest, s: Manifest, stay: seq<Endpoint>, come: seq<Endpoint>)
    requires stay == Filter(r.endpoints, ServesOthers(s)) && come == Filter(s.endpoints, ServesPython(s))
    requires DisjointKeys(stay, come, EndpointName)
    ensures NamesAreApart(r, s)
  {
    forall i, j | 0 <= i < |r.endpoints| && 0 <= j < |s.endpoints|
      && !PythonAgent(s, r.endpoints[i].agent) && PythonAgent(s, s.endpoints[j].agent)
      ensures r.endpoints[i].name != s.endpoints[j].name
    {
      assert r.endpoints[i] in stay && s.endpoints[j] in come;
      assert EndpointName(r.endpoints[i]) != EndpointName(s.endpoints[j]);
    }
  }

  ghost predicate DisjointKeys<T(!new)>(a: seq<T>, b: seq<T>, key: T -> string) {
    forall x, y :: x in a && y in b ==> key(x) != key(y)
  }

  lemma UniqueConcat<T(!new)>(a: seq<T>, b: seq<T>, key: T -> string)
    requires UniqueKeys(a, key) && UniqueKeys(b, key)
    ensures UniqueKeys(a + b, key) <==> DisjointKeys(a, b, key)
  {
    if UniqueKeys(a + b, key) {
      forall x, y | x in a && y in b
        ensures key(x) != key(y)
      {
        var i :| 0 <= i < |a| && a[i] == x;
        var j :| 0 <= j < |b| && b[j] == y;
        assert (a + b)[i] == x && (a + b)[|a| + j] == y;
      }
    }
  }

  // --- Metadata ---------------------------------------------------------------------------------

  lemma MergingAgain(s: Metadata, r: Metadata)
    ensures MergedMetadata(s, MergedMetadata(s, r)) == MergedMetadata(s, r)
    ensures MergedMetadata(MergedMetadata(s, r), r) == MergedMetadata(s, r)
    ensures MergedMetadata(r, r) == r
  {
    if s.Members? && r.Members? {
      assert s.fields + (s.fields + r.fields) == s.fields + r.fields;
      assert (s.fields + r.fields) + r.fields == s.fields + r.fields;
    }
    if r.Members? { assert r.fields + r.fields == r.fields; }
  }

  // --- The same source again --------------------------------------------------------------------

  lemma AgentsAgain(r: Manifest, s: Manifest)
    requires UniqueIds(r) && UniqueIds(s)
    ensures OverlaidAgents(Overlay(r, s), s) == Overlay(r, s).agents
  {
    var m := Overlay(r, s);
    OverlayParts(r, s);
    forall i | 0 <= i < |m.agents|
      ensures MergedWith(m.agents[i], PythonAgents(s), AgentId, MergeAgent) == m.agents[i]
    {
      AgentHeadAgain(r, s, i);
    }
    forall b | b in PythonAgents(s)
      ensures HasKey(m.agents, AgentId, AgentId(b))
    {
      PythonAgentFacts(s);
      PythonAgentIsUser(r, s, b);
    }
    NothingIsAbsent(m.agents, PythonAgents(s));
  }

  lemma NothingIsAbsent(agents: seq<Agent>, news: seq<Agent>)
    requires forall b :: b in news ==> HasKey(agents, AgentId, AgentId(b))
    ensures Filter(news, Absent(agents, AgentId)) == []
  {
    FilterNone(news, Absent(agents, AgentId));
  }

  lemma AgentHeadAgain(r: Manifest, s: Manifest, i: nat)
    requires UniqueIds(r) && UniqueIds(s) && i < |OverlaidAgents(r, s)|
    ensures MergedWith(OverlaidAgents(r, s)[i], PythonAgents(s), AgentId, MergeAgent) == OverlaidAgents(r, s)[i]
  {
    var pythons, a := PythonAgents(s), OverlaidAgents(r, s)[i];
    PythonAgentFacts(s);
    if PythonAgent(s, a.id) {
      AgentAgain(r, s, i);
      assert pythons[Position(pythons, AgentId, a.id)] in pythons;
    }
  }

  lemma AgentAgain(r: Manifest, s: Manifest, i: nat)
    requires UniqueIds(r) && UniqueIds(s) && i < |OverlaidAgents(r, s)|
    requires PythonAgent(s, OverlaidAgents(r, s)[i].id)
    ensures forall b :: b in PythonAgents(s) && b.id == OverlaidAgents(r, s)[i].id ==>
      MergeAgent(OverlaidAgents(r, s)[i], b) == OverlaidAgents(r, s)[i]
  {
    OverlaidAgentFacts(r, s);
    PythonAgentFacts(s);
    var a := OverlaidAgents(r, s)[i];
    forall b | b in PythonAgents(s) && b.id == a.id
      ensures MergeAgent(a, b) == a
    {
      if i < |r.agents| {
        MergingAgain(b.metadata, r.agents[i].metadata);
      } else {
        UniqueItem(PythonAgents(s), AgentId, a);
        UniqueItem(PythonAgents(s), AgentId, b);
        MergingAgain(b.metadata, b.metadata);
      }
    }
  }

  /** The source's Python provider survives: no remote agent that the overlay takes over had it, or some
      agent still uses it. */
  predicate Survives(r: Manifest, s: Manifest, p: Provider) {
    !Displaced(r, s, p.id) || UsedInSource(s, p.id) || UsedByOthers(r, s, p.id)
  }

  predicate UsedInSource(s: Manifest, provider: string) {
    exists i :: 0 <= i < |s.agents| && s.agents[i].provider == provider
  }

  predicate UsedByOthers(r: Manifest, s: Manifest, provider: string) {
    exists i :: 0 <= i < |r.agents| && r.agents[i].provider == provider && !PythonAgent(s, r.agents[i].id)
  }

  lemma UsersOf(r: Manifest, s: Manifest, provider: string)
    requires UniqueIds(r) && UniqueIds(s) && UsedBy(OverlaidAgents(r, s), provider)
    ensures UsedInSource(s, provider) || UsedByOthers(r, s, provider)
  {
    OverlaidAgentFacts(r, s);
    PythonAgentFacts(s);
    var o := OverlaidAgents(r, s);
    var i :| 0 <= i < |o| && o[i].provider == provider;
    if i >= |r.agents| {
      InSource(s, o[i]);
    } else if PythonAgent(s, r.agents[i].id) {
      var pythons := PythonAgents(s);
      var j :| 0 <= j < |pythons| && AgentId(pythons[j]) == r.agents[i].id;
      assert pythons[j] in pythons;
      InSource(s, pythons[j]);
    }
  }

  lemma InSource(s: Manifest, b: Agent)
    requires b in s.agents
    ensures UsedInSource(s, b.provider)
  {
    var j :| 0 <= j < |s.agents| && s.agents[j] == b;
  }

  lemma SourceUserStays(r: Manifest, s: Manifest, p: Provider)
    requires UniqueIds(r) && UniqueIds(s) && p in PythonProviders(s) && UsedInSource(s, p.id)
    ensures UsedBy(OverlaidAgents(r, s), p.id)
  {
    var i :| 0 <= i < |s.agents| && s.agents[i].provider == p.id;
    PythonAgentIsUser(r, s, s.agents[i]);
  }

  lemma OtherUserStays(r: Manifest, s: Manifest, provider: string)
    requires UniqueIds(r) && UniqueIds(s) && UsedByOthers(r, s, provider)
    ensures UsedBy(OverlaidAgents(r, s), provider)
  {
    OverlaidAgentFacts(r, s);
    var i :| 0 <= i < |r.agents| && r.agents[i].provider == provider && !PythonAgent(s, r.agents[i].id);
    assert OverlaidAgents(r, s)[i].provider == provider;
  }

  lemma SurvivorsAreKept(r: Manifest, s: Manifest, p: Provider)
    requires UniqueIds(r) && UniqueIds(s) && p in PythonProviders(s)
    ensures KeepsProvider(r, s, p) <==> Survives(r, s, p)
  {
    if UsedBy(OverlaidAgents(r, s), p.id) { UsersOf(r, s, p.id); }
    if UsedInSource(s, p.id) { SourceUserStays(r, s, p); }
    if UsedByOthers(r, s, p.id) { OtherUserStays(r, s, p.id); }
  }

  lemma ProvidersAgain(r: Manifest, s: Manifest)
    requires UniqueIds(r) && UniqueIds(s)
    ensures Overlay(Overlay(r, s), s).providers
         == Overlay(r, s).providers + Filter(PythonProviders(s), Absent(Overlay(r, s).providers, ProviderId))
  {
    var m := Overlay(r, s);
    OverlayParts(r, s);
    OverlayHasUniqueIds(r, s);
    OverlayParts(m, s);
    AgentsAgain(r, s);
    HeadsAgain(r, s);
    var o := OverlaidProviders(m, s);
    forall p | p in o
      ensures KeepsProvider(m, s, p)
    {
      if Displaced(m, s, p.id) {
        var i :| 0 <= i < |m.agents| && m.agents[i].provider == p.id && PythonAgent(s, m.agents[i].id);
        assert OverlaidAgents(m, s)[i].provider == p.id;
      }
    }
    FilterAll(o, (p: Provider) => KeepsProvider(m, s, p));
  }

  lemma HeadsAgain(r: Manifest, s: Manifest)
    requires UniqueIds(r) && UniqueIds(s)
    ensures Heads(Overlay(r, s).providers, PythonProviders(s), ProviderId, Replace) == Overlay(r, s).providers
  {
    var providers := Overlay(r, s).providers;
    OverlayParts(r, s);
    forall i | 0 <= i < |providers|
      ensures MergedWith(providers[i], PythonProviders(s), ProviderId, Replace) == providers[i]
    {
      assert providers[i] in OverlaidProviders(r, s);
      HeadAgain(r, s, providers[i]);
    }
  }

  lemma HeadAgain(r: Manifest, s: Manifest, p: Provider)
    requires UniqueIds(r) && UniqueIds(s) && p in OverlaidProviders(r, s)
    ensures MergedWith(p, PythonProviders(s), ProviderId, Replace) == p
  {
    OverlaidProviderFacts(r, s);
    PythonProviderFacts(s);
    var o := OverlaidProviders(r, s);
    var j :| 0 <= j < |o| && o[j] == p;
    if PythonId(s, p.id) { UniqueItem(PythonProviders(s), ProviderId, p); }
  }

  /** The overlay with the same source changes nothing, exactly when every Python provider of the source
      survives the first time. */
  lemma SameSourceAgain(r: Manifest, s: Manifest)
    requires UniqueIds(r) && UniqueIds(s)
    ensures Overlay(Overlay(r, s), s) == Overlay(r, s)
        <==> forall p :: p in PythonProviders(s) ==> Survives(r, s, p)
  {
    var m := Overlay(r, s);
    var lost := Filter(PythonProviders(s), Absent(m.providers, ProviderId));
    OnlyProvidersChange(r, s);
    ProvidersAgain(r, s);
    WhatIsLost(r, s);
    assert |m.providers + lost| == |m.providers| + |lost|;
  }

  lemma OnlyProvidersChange(r: Manifest, s: Manifest)
    requires UniqueIds(r) && UniqueIds(s)
    ensures Overlay(Overlay(r, s), s) == Overlay(r, s).(providers := Overlay(Overlay(r, s), s).providers)
  {
    var m := Overlay(r, s);
    OverlayHasUniqueIds(r, s);
    OverlayParts(r, s);
    OverlayParts(m, s);
    AgentsAgain(r, s);
    EndpointsAndOthersAreKept(r, s);
  }

  lemma WhatIsLost(r: Manifest, s: Manifest)
    requires UniqueIds(r) && UniqueIds(s)
    ensures Filter(PythonProviders(s), Absent(Overlay(r, s).providers, ProviderId)) == []
        <==> forall p :: p in PythonProviders(s) ==> Survives(r, s, p)
  {
    var lost := Filter(PythonProviders(s), Absent(Overlay(r, s).providers, ProviderId));
    forall p | p in PythonProviders(s)
      ensures p in lost <==> !Survives(r, s, p)
    {
      SurvivorsAreKept(r, s, p);
      PythonProviderIsThere(r, s, p);
    }
    assert lost != [] ==> lost[0] in lost;
  }

  lemma PythonProviderIsThere(r: Manifest, s: Manifest, p: Provider)
    requires UniqueIds(r) && UniqueIds(s) && p in PythonProviders(s)
    ensures HasKey(Overlay(r, s).providers, ProviderId, p.id) <==> KeepsProvider(r, s, p)
  {
    var m, o := Overlay(r, s), OverlaidProviders(r, s);
    OverlayParts(r, s);
    OverlaidProviderFacts(r, s);
    if KeepsProvider(r, s, p) {
      assert p in m.providers;
      var i :| 0 <= i < |m.providers| && m.providers[i] == p;
      assert ProviderId(m.providers[i]) == p.id;
    }
    if HasKey(m.providers, ProviderId, p.id) {
      var i :| 0 <= i < |m.providers| && ProviderId(m.providers[i]) == p.id;
      assert m.providers[i] in m.providers && m.providers[i] in o;
    }
  }
}

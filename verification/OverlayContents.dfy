/** What is in an overlay, agent by agent and provider by provider. */
module OverlayContents {
  import opened Outcomes
  import opened Lists
  import opened Text
  import opened ReleaseOverlay
  import opened OverlayTheorems

  // --- Agents -----------------------------------------------------------------------------------

  /** The members of both, where the remote's win. */
  predicate IsMerged(m: Metadata, source: Metadata, remote: Metadata) {
    if source.Members? && remote.Members? then
      && m.Members?
      && m.fields.Keys == source.fields.Keys + remote.fields.Keys
      && (forall k :: k in m.fields ==> m.fields[k] == if k in remote.fields then remote.fields[k] else source.fields[k])
    else m == remote
  }

  /** A remote agent that the source's Python agent takes over. */
  predicate IsTakenOver(a: Agent, remote: Agent, python: Agent) {
    && a.id == remote.id && a.name == remote.name
    && a.provider == python.provider && a.capabilities == python.capabilities
    && IsMerged(a.metadata, python.metadata, remote.metadata)
  }

  lemma MergingTakesOver(remote: Agent, python: Agent)
    requires remote.id == python.id
    ensures IsTakenOver(MergeAgent(remote, python), remote, python)
  {
  }

  /** The agents of the overlay: first the remote's, in order, each as it was or taken over by the source's Python
      agent of its id, and then the source's other Python agents as they were. */
  lemma AgentsOfOverlay(r: Manifest, s: Manifest, i: nat)
    requires UniqueIds(r) && UniqueIds(s) && i < |Overlay(r, s).agents|
    ensures var a := Overlay(r, s).agents[i];
      && (i < |r.agents| && !PythonAgent(s, r.agents[i].id) ==> a == r.agents[i])
      && (i < |r.agents| && PythonAgent(s, r.agents[i].id) ==>
            exists j :: 0 <= j < |s.agents| && s.agents[j].id == r.agents[i].id && IsTakenOver(a, r.agents[i], s.agents[j]))
      && (i >= |r.agents| ==> a in s.agents && PythonAgent(s, a.id) && !HasKey(r.agents, AgentId, a.id))
  {
    OverlayParts(r, s);
    OverlaidAgentFacts(r, s);
    PythonAgentFacts(s);
    if i < |r.agents| && PythonAgent(s, r.agents[i].id) {
      var pythons := PythonAgents(s);
      var k :| 0 <= k < |pythons| && AgentId(pythons[k]) == r.agents[i].id;
      assert pythons[k] in pythons;
      var j :| 0 <= j < |s.agents| && s.agents[j] == pythons[k];
      MergingTakesOver(r.agents[i], pythons[k]);
    }
  }

  /** All of them are there. */
  lemma AgentsAreAllThere(r: Manifest, s: Manifest)
    requires UniqueIds(r) && UniqueIds(s)
    ensures |Overlay(r, s).agents| >= |r.agents|
    ensures forall b :: b in s.agents && PythonAgent(s, b.id) && !HasKey(r.agents, AgentId, b.id) ==>
      b in Overlay(r, s).agents[|r.agents|..]
    ensures UniqueKeys(Overlay(r, s).agents, AgentId)
  {
    OverlayParts(r, s);
    OverlaidAgentFacts(r, s);
    PythonAgentFacts(s);
    var head, tail := AgentSplit(r, s);
    assert Overlay(r, s).agents[|r.agents|..] == tail;
  }

  // --- Providers --------------------------------------------------------------------------------

  /** A remote agent that used this provider was taken over. */
  predicate LostAnAgent(r: Manifest, s: Manifest, provider: string) {
    exists i :: 0 <= i < |r.agents| && r.agents[i].provider == provider && PythonAgent(s, r.agents[i].id)
  }

  predicate HasAnAgent(m: Manifest, provider: string) {
    exists i :: 0 <= i < |m.agents| && m.agents[i].provider == provider
  }

  /** The providers of the overlay are the source's Python providers, and the remote's others, except those that lost an
      agent and have none left. */
  lemma ProvidersOfOverlay(r: Manifest, s: Manifest, p: Provider)
    requires UniqueIds(r) && UniqueIds(s)
    ensures p in Overlay(r, s).providers
      <==> && ((p in s.providers && p.kind == "python") || (p in r.providers && !PythonId(s, p.id)))
           && (LostAnAgent(r, s, p.id) ==> HasAnAgent(Overlay(r, s), p.id))
  {
    OverlayParts(r, s);
    var o := OverlaidProviders(r, s);
    assert p in Overlay(r, s).providers <==> p in o && KeepsProvider(r, s, p);
    assert KeepsProvider(r, s, p) <==> (LostAnAgent(r, s, p.id) ==> HasAnAgent(Overlay(r, s), p.id));
    OverlaidAre(r, s, p);
  }

  lemma OverlaidAre(r: Manifest, s: Manifest, p: Provider)
    requires UniqueIds(r) && UniqueIds(s)
    ensures p in OverlaidProviders(r, s)
      <==> (p in s.providers && p.kind == "python") || (p in r.providers && !PythonId(s, p.id))
  {
    OverlaidProviderFacts(r, s);
    PythonProviderFacts(s);
    var o := OverlaidProviders(r, s);
    if p in o {
      var i :| 0 <= i < |o| && o[i] == p;
      if i < |r.providers| && !PythonId(s, r.providers[i].id) { assert p == r.providers[i]; }
    }
    if p in r.providers && !PythonId(s, p.id) {
      var i :| 0 <= i < |r.providers| && r.providers[i] == p;
      assert o[i] == p;
    }
  }

  /** Beyond unique names and known references, what a valid manifest needs. */
  lemma ValidManifestsAreInRange(m: Manifest)
    requires UniqueIds(m) && NoDanglingReference(m) && UniqueKeys(m.endpoints, EndpointName)
    ensures Valid(m)
      <==> && (forall p :: p in m.providers ==> |p.capabilities| > 0)
           && (forall a :: a in m.agents ==> |a.capabilities| > 0 && |Trim(a.name)| > 0)
           && (forall e :: e in m.endpoints ==> 1 <= e.timeout <= 900_000)
  {
  }

  /** The rest of the manifest is the remote's. */
  lemma RestOfOverlay(r: Manifest, s: Manifest)
    requires UniqueIds(r) && UniqueIds(s)
    ensures Overlay(r, s).project == r.project && Overlay(r, s).metadata == r.metadata
    ensures forall e ::
      (e in Overlay(r, s).endpoints
       <==> (e in r.endpoints && !PythonAgent(s, e.agent)) || (e in s.endpoints && PythonAgent(s, e.agent)))
  {
    OverlayParts(r, s);
  }
}

/** Manifests on which the conditions for a harmless overlay fail. */
module OverlayEdges {
  import opened Outcomes
  import opened Lists
  import opened Text
  import opened ReleaseOverlay
  import opened OverlayTheorems
  import opened OverlayFixpoints
  import opened Resync

  const PLAIN := Members(map[])

  /** One agent of one provider, with one endpoint. */
  function Single(provider: string, kind: string, agent: string, endpoint: string): Manifest {
    Manifest("p", [Provider(provider, kind, ["chat"], "")], [Agent(agent, agent, provider, ["chat"], PLAIN)],
             [Endpoint(endpoint, agent, "chat", 30_000)], PLAIN)
  }

  lemma NameIsKept(name: string)
    requires |name| == 1 && !IsWhitespace(name[0])
    ensures Trim(name) == name
  {
    assert name[..1] == name && TrimmedLength(name) == 1 && LeadingBlanks(name) == 0;
  }

  lemma SingleIsValid(provider: string, kind: string, agent: string, endpoint: string)
    requires |agent| == 1 && !IsWhitespace(agent[0])
    ensures Valid(Single(provider, kind, agent, endpoint))
  {
    var m := Single(provider, kind, agent, endpoint);
    NameIsKept(agent);
    assert ProviderId(m.providers[0]) == provider;
    assert m.agents[0].id == agent && "chat" in m.agents[0].capabilities;
  }

  /** Two valid manifests whose endpoints have one name have an invalid overlay. */
  lemma ClashingNamesAreInvalid() returns (r: Manifest, s: Manifest)
    ensures Valid(r) && Valid(s) && !Valid(Overlay(r, s))
  {
    r, s := Single("http", "http", "a", "main"), Single("py", "python", "b", "main");
    SingleIsValid("http", "http", "a", "main");
    SingleIsValid("py", "python", "b", "main");
    assert s.providers[0].id == "py" && s.agents[0].id == "b";
    assert r.endpoints[0].agent == "a" && !PythonAgent(s, "a");
    assert PythonId(s, s.agents[0].provider) && PythonAgent(s, s.endpoints[0].agent);
    OverlayIsValid(r, s);
  }

  /** One more provider changes nothing about a manifest's validity. */
  lemma WithProviderIsValid(m: Manifest, p: Provider)
    requires Valid(m) && p.capabilities != [] && !HasKey(m.providers, ProviderId, p.id)
    ensures Valid(m.(providers := m.providers + [p]))
  {
    var r := m.(providers := m.providers + [p]);
    forall i | 0 <= i < |r.agents|
      ensures HasKey(r.providers, ProviderId, r.agents[i].provider)
    {
      assert HasKey(m.providers, ProviderId, m.agents[i].provider);
      HasKeyInEither(m.providers, [p], ProviderId, m.agents[i].provider);
    }
  }

  /** A Python provider that serves nobody is lost where its name was in use, and is back after the next
      application of the same source. */
  lemma IdleProviderComesBack() returns (r: Manifest, s: Manifest)
    ensures Valid(r) && Valid(s) && Overlay(Overlay(r, s), s) != Overlay(r, s)
  {
    var idle := Provider("old", "python", ["chat"], "");
    var one := Single("py", "python", "b", "main");
    r, s := Single("old", "http", "b", "main"), one.(providers := one.providers + [idle]);
    SingleIsValid("old", "http", "b", "main");
    SingleIsValid("py", "python", "b", "main");
    assert ProviderId(one.providers[0]) == "py";
    WithProviderIsValid(one, idle);
    assert s.providers[0].id == "py" && s.providers[1] == idle && s.agents[0].id == "b";
    assert PythonId(s, s.agents[0].provider) && PythonAgent(s, r.agents[0].id);
    assert Displaced(r, s, idle.id);
    assert PythonId(s, idle.id) && idle in PythonProviders(s);
    assert !Survives(r, s, idle);
    SameSourceAgain(r, s);
  }

  /** The parts of two manifests in one. */
  function Together(x: Manifest, y: Manifest): Manifest {
    Manifest(x.project, x.providers + y.providers, x.agents + y.agents, x.endpoints + y.endpoints, x.metadata)
  }

  lemma TogetherIsValid(x: Manifest, y: Manifest)
    requires Valid(x) && Valid(y)
    requires DisjointKeys(x.providers, y.providers, ProviderId) && DisjointKeys(x.agents, y.agents, AgentId)
    requires DisjointKeys(x.endpoints, y.endpoints, EndpointName)
    ensures Valid(Together(x, y))
  {
    UniqueConcat(x.providers, y.providers, ProviderId);
    UniqueConcat(x.agents, y.agents, AgentId);
    UniqueConcat(x.endpoints, y.endpoints, EndpointName);
    TogetherHasReferences(x, y);
  }

  lemma TogetherHasReferences(x: Manifest, y: Manifest)
    requires NoDanglingReference(x) && NoDanglingReference(y)
    ensures NoDanglingReference(Together(x, y))
  {
    var m := Together(x, y);
    forall i | 0 <= i < |m.agents|
      ensures HasKey(m.providers, ProviderId, m.agents[i].provider)
    {
      HasKeyInEither(x.providers, y.providers, ProviderId, m.agents[i].provider);
    }
    forall i | 0 <= i < |m.endpoints|
      ensures AgentOffers(m.agents, m.endpoints[i].agent, m.endpoints[i].capability)
    {
      OfferedInEither(x.agents, y.agents, m.endpoints[i].agent, m.endpoints[i].capability);
    }
  }

  lemma HasKeyInEither<T(!new)>(a: seq<T>, b: seq<T>, key: T -> string, k: string)
    ensures HasKey(a, key, k) || HasKey(b, key, k) ==> HasKey(a + b, key, k)
  {
    if HasKey(a, key, k) {
      var i :| 0 <= i < |a| && key(a[i]) == k;
      assert (a + b)[i] == a[i];
    } else if HasKey(b, key, k) {
      var i :| 0 <= i < |b| && key(b[i]) == k;
      assert (a + b)[|a| + i] == b[i];
    }
  }

  lemma OfferedInEither(a: seq<Agent>, b: seq<Agent>, agent: string, capability: string)
    ensures AgentOffers(a, agent, capability) || AgentOffers(b, agent, capability) ==> AgentOffers(a + b, agent, capability)
  {
    if AgentOffers(a, agent, capability) {
      var i :| 0 <= i < |a| && a[i].id == agent && capability in a[i].capabilities;
      assert (a + b)[i] == a[i];
    } else if AgentOffers(b, agent, capability) {
      var i :| 0 <= i < |b| && b[i].id == agent && capability in b[i].capabilities;
      assert (a + b)[|a| + i] == b[i];
    }
  }

  /** The next round over the same release moves the endpoints of the release's own Python agents behind the
      others. */
  lemma ResyncMayReorder() returns (r: Manifest, s: Manifest)
    ensures Valid(r) && Valid(s) && Overlay(r, Overlay(r, s)) != Overlay(r, s)
  {
    var x, y := Single("py", "python", "x", "first"), Single("http", "http", "y", "second");
    r, s := Together(x, y), Manifest("p", [], [], [], PLAIN);
    SingleIsValid("py", "python", "x", "first");
    SingleIsValid("http", "http", "y", "second");
    TogetherIsValid(x, y);
    OnlyTheFirstIsPython(r);
    FirstStaysFirst(r, s);
    ResyncChangesNothing(r, s);
  }

  lemma OnlyTheFirstIsPython(r: Manifest)
    requires UniqueIds(r) && |r.providers| == |r.agents| == 2
    requires r.providers[0].kind == "python" && r.providers[1].kind != "python"
    requires forall i :: 0 <= i < 2 ==> r.agents[i].provider == r.providers[i].id
    ensures PythonAgent(r, r.agents[0].id) && !PythonAgent(r, r.agents[1].id)
  {
    assert ProviderId(r.providers[0]) != ProviderId(r.providers[1]);
    assert AgentId(r.agents[0]) != AgentId(r.agents[1]);
    assert PythonId(r, r.agents[0].provider) && !PythonId(r, r.agents[1].provider);
  }

  lemma FirstStaysFirst(r: Manifest, s: Manifest)
    requires Overlay(r, s) == r && s.providers == [] && |r.endpoints| == 2
    requires PythonAgent(r, r.endpoints[0].agent) && !PythonAgent(r, r.endpoints[1].agent)
    ensures !PythonEndpointsComeLast(r, s)
  {
    FilterAll(r.endpoints, ServesOthers(s));
    var others, pythons := Filter(r.endpoints, ServesOthers(r)), Filter(r.endpoints, ServesPython(r));
    assert r.endpoints[1] in others;
    assert others != [] && others[0] in others;
    assert (others + pythons)[0] == others[0] != r.endpoints[0];
  }
}

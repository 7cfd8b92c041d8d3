/** The embedded runtime's own Python agents laid over a release from the server. */
module ReleaseOverlay {
  import opened Outcomes
  import opened Lists
  import opened Text

  /** The members of a JSON object, or another value. */
  datatype Metadata = Members(fields: map<string, string>) | Other(text: string)

  datatype Provider = Provider(id: string, kind: string, capabilities: seq<string>, settings: string)

  datatype Agent = Agent(id: string, name: string, provider: string, capabilities: seq<string>, metadata: Metadata)

  datatype Endpoint = Endpoint(name: string, agent: string, capability: string, timeout: nat)

  datatype Manifest = Manifest(
    project: string, providers: seq<Provider>, agents: seq<Agent>, endpoints: seq<Endpoint>, metadata: Metadata)

  function ProviderId(p: Provider): string { p.id }

  function AgentId(a: Agent): string { a.id }

  function EndpointName(e: Endpoint): string { e.name }

  // --- Well-formed manifests --------------------------------------------------------------------

  predicate AgentOffers(agents: seq<Agent>, agent: string, capability: string) {
    exists i :: 0 <= i < |agents| && agents[i].id == agent && capability in agents[i].capabilities
  }

  predicate UniqueIds(m: Manifest) {
    UniqueKeys(m.providers, ProviderId) && UniqueKeys(m.agents, AgentId)
  }

  predicate NoDanglingReference(m: Manifest) {
    && (forall i :: 0 <= i < |m.agents| ==> HasKey(m.providers, ProviderId, m.agents[i].provider))
    && (forall i :: 0 <= i < |m.endpoints| ==> AgentOffers(m.agents, m.endpoints[i].agent, m.endpoints[i].capability))
  }

  const MAX_ENDPOINT_TIMEOUT_MS := 15 * 60 * 1_000

  /** Providers and agents have capabilities, agents a name, and endpoints a bounded timeout. */
  predicate InRange(m: Manifest) {
    && (forall p :: p in m.providers ==> p.capabilities != [])
    && (forall a :: a in m.agents ==> a.capabilities != [] && Trim(a.name) != "")
    && (forall e :: e in m.endpoints ==> 1 <= e.timeout <= MAX_ENDPOINT_TIMEOUT_MS)
  }

  /** The manifest's validation, apart from the form of identifiers and values and the limits on sizes. */
  predicate Valid(m: Manifest) {
    UniqueIds(m) && NoDanglingReference(m) && UniqueKeys(m.endpoints, EndpointName) && InRange(m)
  }

  // --- The overlay ------------------------------------------------------------------------------

  predicate PythonId(m: Manifest, provider: string) {
    exists i :: 0 <= i < |m.providers| && m.providers[i].id == provider && m.providers[i].kind == "python"
  }

  predicate PythonAgent(m: Manifest, agent: string) {
    exists i :: 0 <= i < |m.agents| && m.agents[i].id == agent && PythonId(m, m.agents[i].provider)
  }

  function PythonProviders(m: Manifest): seq<Provider> {
    Filter(m.providers, (p: Provider) => PythonId(m, p.id))
  }

  function PythonAgents(m: Manifest): seq<Agent> {
    Filter(m.agents, (a: Agent) => PythonAgent(m, a.id))
  }

  function MergedMetadata(source: Metadata, remote: Metadata): Metadata {
    if source.Members? && remote.Members? then Members(source.fields + remote.fields) else remote
  }

  function Replace(existing: Provider, new_: Provider): Provider {
    if existing.id == new_.id then new_ else existing
  }

  /** The remote agent keeps its name, and its metadata wins. */
  function MergeAgent(existing: Agent, new_: Agent): Agent {
    existing.(provider := new_.provider, capabilities := new_.capabilities,
              metadata := MergedMetadata(new_.metadata, existing.metadata))
  }

  function OverlaidProviders(r: Manifest, s: Manifest): seq<Provider> {
    Upserted(r.providers, PythonProviders(s), ProviderId, Replace)
  }

  function OverlaidAgents(r: Manifest, s: Manifest): seq<Agent> {
    Upserted(r.agents, PythonAgents(s), AgentId, MergeAgent)
  }

  /** The provider of a remote agent that the overlay takes over. */
  predicate Displaced(r: Manifest, s: Manifest, provider: string) {
    exists i :: 0 <= i < |r.agents| && r.agents[i].provider == provider && PythonAgent(s, r.agents[i].id)
  }

  predicate UsedBy(agents: seq<Agent>, provider: string) {
    exists i :: 0 <= i < |agents| && agents[i].provider == provider
  }

  predicate KeepsProvider(r: Manifest, s: Manifest, p: Provider) {
    !Displaced(r, s, p.id) || UsedBy(OverlaidAgents(r, s), p.id)
  }

  function ServesPython(m: Manifest): Endpoint -> bool {
    (e: Endpoint) => PythonAgent(m, e.agent)
  }

  function ServesOthers(m: Manifest): Endpoint -> bool {
    (e: Endpoint) => !PythonAgent(m, e.agent)
  }

  function OverlaidEndpoints(r: Manifest, s: Manifest): seq<Endpoint> {
    Filter(r.endpoints, ServesOthers(s)) + Filter(s.endpoints, ServesPython(s))
  }

  predicate HasPython(m: Manifest) {
    exists i :: 0 <= i < |m.providers| && m.providers[i].kind == "python"
  }

  function Overlay(r: Manifest, s: Manifest): Manifest {
    if !HasPython(s) then r
    else
      r.(providers := Filter(OverlaidProviders(r, s), (p: Provider) => KeepsProvider(r, s, p)),
         agents := OverlaidAgents(r, s),
         endpoints := OverlaidEndpoints(r, s))
  }

  method PutProviders(existing: seq<Provider>, source: Manifest) returns (providers: seq<Provider>)
    requires UniqueKeys(existing, ProviderId) && UniqueIds(source)
    ensures providers == Upserted(existing, PythonProviders(source), ProviderId, Replace)
  {
    KeysAreKept();
    PythonPartsAreUnique(source);
    providers := UpsertAll(existing, PythonProviders(source), ProviderId, Replace);
  }

  method PutAgents(existing: seq<Agent>, source: Manifest) returns (agents: seq<Agent>)
    requires UniqueKeys(existing, AgentId) && UniqueIds(source)
    ensures agents == Upserted(existing, PythonAgents(source), AgentId, MergeAgent)
  {
    KeysAreKept();
    PythonPartsAreUnique(source);
    agents := UpsertAll(existing, PythonAgents(source), AgentId, MergeAgent);
  }

  /** A manifest that is edited in place. */
  class RuntimeManifest {
    var project: string
    var providers: seq<Provider>
    var agents: seq<Agent>
    var endpoints: seq<Endpoint>
    var metadata: Metadata

    ghost function Model(): Manifest
      reads this
    {
      Manifest(project, providers, agents, endpoints, metadata)
    }

    constructor (m: Manifest)
      ensures Model() == m
    {
      project, providers, agents, endpoints, metadata := m.project, m.providers, m.agents, m.endpoints, m.metadata;
    }

    method PreserveEmbeddedPythonAgents(source: Manifest)
      requires UniqueIds(Model()) && UniqueIds(source)
      modifies this
      ensures Model() == Overlay(old(Model()), source)
    {
      if !HasPython(source) {
        return;
      }
      ghost var remote := Model();
      providers := PutProviders(providers, source);
      var displaced: set<string> := set a | a in agents && PythonAgent(source, a.id) :: a.provider;
      agents := PutAgents(agents, source);
      endpoints :=
        Filter(endpoints, ServesOthers(source))
        + Filter(source.endpoints, ServesPython(source));
      KeepingIsKept(remote, source, displaced);
      providers := Filter(providers, Keeping(displaced, agents));
    }
  }

  /** Which providers stay, by the set of those that were displaced and the agents that are there now. */
  function Keeping(displaced: set<string>, agents: seq<Agent>): Provider -> bool {
    (p: Provider) => p.id !in displaced || UsedBy(agents, p.id)
  }

  lemma KeepingIsKept(r: Manifest, s: Manifest, displaced: set<string>)
    requires displaced == set a | a in r.agents && PythonAgent(s, a.id) :: a.provider
    ensures Filter(OverlaidProviders(r, s), Keeping(displaced, OverlaidAgents(r, s)))
         == Filter(OverlaidProviders(r, s), (p: Provider) => KeepsProvider(r, s, p))
  {
    assert forall id :: id in displaced <==> Displaced(r, s, id);
    FilterAligned(OverlaidProviders(r, s), OverlaidProviders(r, s), Keeping(displaced, OverlaidAgents(r, s)),
                  (p: Provider) => KeepsProvider(r, s, p));
  }

  lemma KeysAreKept()
    ensures KeepsKey(ProviderId, Replace) && KeepsKey(AgentId, MergeAgent)
  {
  }

  lemma PythonPartsAreUnique(m: Manifest)
    requires UniqueIds(m)
    ensures UniqueKeys(PythonProviders(m), ProviderId) && UniqueKeys(PythonAgents(m), AgentId)
  {
    FilterIsUnique(m.providers, ProviderId, (p: Provider) => PythonId(m, p.id));
    FilterIsUnique(m.agents, AgentId, (a: Agent) => PythonAgent(m, a.id));
  }
}

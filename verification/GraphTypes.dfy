/** Identifiers of built graphs carry the type of their node, so a diff between two scans of one server can be turned around. */
module GraphTypes {
  import opened Ordering
  import opened Collections
  import opened Graphs
  import opened Discovery
  import opened GraphIds
  import opened GraphSpec
  import opened GraphRouting
  import opened GraphParts
  import opened GraphReplay
  import opened Snapshots
  import opened Projection
  import opened DiffEngine
  import opened DiffMeaning
  import opened DiffReplay
  import opened DiffInverse
  import opened DiffSwap

  function TypeOf(n: NodeRef): NodeType {
    match n
    case ServerRef => SERVER
    case EngineRef => DOCKER_ENGINE
    case ServiceRef(_) => SYSTEMD_SERVICE
    case ListenerRef(_) => HOST_LISTENER
    case ProjectRef(_) => DOCKER_COMPOSE_PROJECT
    case ContainerRef(_) => DOCKER_CONTAINER
    case PortRef(_, _) => PORT
    case MountRef(_, _) => MOUNT
    case NetworkRef(_) => NETWORK
    case ProxyRef(_) => REVERSE_PROXY
    case UpstreamRef(_, _, _) => UPSTREAM
    case DomainRef(_) => DOMAIN
  }

  /** A node of the type that its identifier names, and a domain or not. */
  function TypedNode(domain: bool): RefNode -> bool {
    (n: RefNode) => n.nodeType == TypeOf(n.id) && (n.nodeType == DOMAIN <==> domain)
  }

  const AnyEdge := (e: RefEdge) => true

  ghost predicate Typed(p: Part, domain: bool) { All(p, TypedNode(domain), AnyEdge) }

  lemma GatherTyped<T>(f: T -> Part, s: seq<T>, domain: bool)
    requires forall x :: x in s ==> Typed(f(x), domain)
    ensures Typed(Gather(f, s), domain)
  {
    hide All;
    GatherAll(f, s, TypedNode(domain), AnyEdge);
  }

  lemma PlusTyped(p: Part, q: Part, domain: bool)
    requires Typed(p, domain) && Typed(q, domain)
    ensures Typed(Plus(p, q), domain)
  {
    hide All;
    PlusAll(p, q, TypedNode(domain), AnyEdge);
  }

  lemma HostTyped(env: Env, host: HostInfo, docker: Docker)
    ensures Typed(HostPart(env, host, docker), false)
  {
    hide With, Reasons;
  }

  lemma ServiceTyped(docker: Docker, s: Service)
    ensures Typed(ServicePart(docker)(s), false)
  {
    hide With, Count;
  }

  lemma ListenerTyped(docker: Docker, l: Listener)
    ensures Typed(ListenerPart(docker)(l), false)
  {
    hide With, ListenerKey, Units;
  }

  lemma HostResourcesTyped(env: Env, d: HostDiscovery)
    ensures Typed(HostResources(env, d), false)
  {
    var host := HostPart(env, d.host, d.docker);
    var services, listeners := Gather(ServicePart(d.docker), d.docker.systemd.services), Gather(ListenerPart(d.docker), d.docker.listeners.items);
    HostTyped(env, d.host, d.docker);
    hide Typed, HostPart, ServicePart, ListenerPart, Gather;
    forall s ensures Typed(ServicePart(d.docker)(s), false) { ServiceTyped(d.docker, s); }
    forall l ensures Typed(ListenerPart(d.docker)(l), false) { ListenerTyped(d.docker, l); }
    GatherTyped(ServicePart(d.docker), d.docker.systemd.services, false);
    GatherTyped(ListenerPart(d.docker), d.docker.listeners.items, false);
    PlusTyped(host, services, false);
    PlusTyped(Plus(host, services), listeners, false);
  }

  lemma ProjectTyped(docker: Docker, projects: map<string, ComposeProject>, project: string)
    ensures Typed(ProjectPart(docker, projects)(project), false)
  {
    hide With, Count;
  }

  lemma PortTyped(c: Container, p: (nat, Port))
    ensures Typed(PortPart(c)(p), false)
  {
    hide PortTitle, PortText;
  }

  lemma MountTyped(c: Container, m: (nat, Mount))
    ensures Typed(MountPart(c)(m), false)
  {
    hide With, MountTitle, MountText;
  }

  lemma ParentTyped(projects: map<string, ComposeProject>, c: Container)
    ensures Typed(ParentPart(projects, c), false)
  {
    hide With, Listed, Map;
  }

  lemma ContainerTyped(projects: map<string, ComposeProject>, c: Container)
    ensures Typed(ContainerPart(projects)(c), false)
  {
    ParentTyped(projects, c);
    hide Typed, ParentPart, PortPart, MountPart, Gather;
    forall p ensures Typed(PortPart(c)(p), false) { PortTyped(c, p); }
    forall m ensures Typed(MountPart(c)(m), false) { MountTyped(c, m); }
    GatherTyped(PortPart(c), Indexed(c.ports), false);
    GatherTyped(MountPart(c), Indexed(c.mounts), false);
    var ports, mounts := Gather(PortPart(c), Indexed(c.ports)), Gather(MountPart(c), Indexed(c.mounts));
    PlusTyped(ParentPart(projects, c), ports, false);
    PlusTyped(Plus(ParentPart(projects, c), ports), mounts, false);
  }

  lemma NetworkTyped(docker: Docker, members: map<string, seq<string>>, network: string)
    ensures Typed(NetworkPart(docker, members)(network), false)
  {
    hide SortBy, Map, Filter;
  }

  lemma DockerTyped(docker: Docker)
    ensures Typed(DockerResources(docker), false)
  {
    var projects, members := Projects(docker), Members(docker);
    var a, b := Gather(ProjectPart(docker, projects), SortedSet(projects.Keys)), Gather(ContainerPart(projects), SortedContainers(docker));
    var c := Gather(NetworkPart(docker, members), SortedSet(members.Keys));
    hide Projects, Members, SortedSet, SortBy, Gather, ProjectPart, ContainerPart, NetworkPart, Typed;
    forall x ensures Typed(ProjectPart(docker, projects)(x), false) { ProjectTyped(docker, projects, x); }
    forall x ensures Typed(ContainerPart(projects)(x), false) { ContainerTyped(projects, x); }
    forall x ensures Typed(NetworkPart(docker, members)(x), false) { NetworkTyped(docker, members, x); }
    GatherTyped(ProjectPart(docker, projects), SortedSet(projects.Keys), false);
    GatherTyped(ContainerPart(projects), SortedContainers(docker), false);
    GatherTyped(NetworkPart(docker, members), SortedSet(members.Keys), false);
    PlusTyped(a, b, false);
    PlusTyped(Plus(a, b), c, false);
  }

  lemma CorrelationsTyped(docker: Docker)
    ensures Typed(Correlations(docker), false)
  {
    var byBinding := PortsByBinding(FlatMap(PublishedOf, SortedContainers(docker)));
    hide PortsByBinding, FlatMap, SortBy, Gather, ListenerKey, ListenerBinding;
    GatherTyped(CorrelationPart(byBinding), docker.listeners.items, false);
  }

  lemma HopHeadTyped(env: Env, docker: Docker, hop: Hop)
    ensures Typed(HopHead(env, docker, hop), false)
  {
    hide With, Listed, Map, ContainerMetadata, HostMetadata, RouteText, KnownContainer;
  }

  lemma DomainEdgesTyped(env: Env, hop: Hop, host: string)
    ensures Typed(DomainPart(env, hop)(host), false)
  {
    hide RouteText, VisitOf;
  }

  lemma HopTyped(env: Env, docker: Docker, instance: CaddyInstance, route: CaddyRoute, u: (nat, CaddyUpstream))
    ensures Typed(HopPart(env, docker, instance, route)(u), false)
  {
    var hop := HopOf(env, docker, instance, route, u.0, u.1);
    var head, targets, f, hosts := HopHead(env, docker, hop), HopTargets(hop), DomainPart(env, hop), RouteHosts(env, route);
    HopHeadTyped(env, docker, hop);
    hide HopId, HopOf, RouteHosts, Gather, ListenerKey, HopHead, DomainPart;
    if hop.host.Some? { GatherTyped(TargetPart(hop), hop.host.value.listeners, false); }
    assert Typed(targets, false);
    hide Typed, HopTargets;
    forall host ensures Typed(f(host), false) { DomainEdgesTyped(env, hop, host); }
    GatherTyped(f, hosts, false);
    PlusTyped(head, targets, false);
    PlusTyped(Plus(head, targets), Gather(f, hosts), false);
  }

  lemma RouteTyped(env: Env, docker: Docker, instance: CaddyInstance, route: CaddyRoute)
    ensures Typed(RoutePart(env, docker, instance)(route), false)
  {
    var f := HopPart(env, docker, instance, route);
    hide HopPart, Typed, Gather, RouteUpstreams;
    forall u ensures Typed(f(u), false) { HopTyped(env, docker, instance, route, u); }
    GatherTyped(f, Indexed(RouteUpstreams(route)), false);
  }

  lemma ProxyTyped(env: Env, docker: Docker, instance: CaddyInstance)
    ensures Typed(ProxyPart(env, docker, instance), false)
  {
    hide KnownContainer, With, FlatMap, FilterMap;
  }

  lemma InstanceTyped(env: Env, docker: Docker, instance: CaddyInstance)
    ensures Typed(InstancePart(env, docker)(instance), false)
  {
    var f, s := RoutePart(env, docker, instance), SortBy(RouteLe, instance.routes);
    hide ProxyPart, RoutePart, Typed, Gather, SortBy;
    ProxyTyped(env, docker, instance);
    forall r ensures Typed(f(r), false) { RouteTyped(env, docker, instance, r); }
    GatherTyped(f, s, false);
    PlusTyped(ProxyPart(env, docker, instance), Gather(f, s), false);
  }

  lemma RoutingTyped(env: Env, docker: Docker)
    ensures Typed(Routing(env, docker), false)
  {
    hide InstancePart, Typed, Gather, SortBy;
    forall i ensures Typed(InstancePart(env, docker)(i), false) { InstanceTyped(env, docker, i); }
    GatherTyped(InstancePart(env, docker), SortBy(InstanceLe, docker.caddy.instances), false);
  }

  lemma DomainTyped(domains: map<string, Summary>, host: string)
    ensures Typed(DomainNodePart(domains)(host), true)
  {
    hide Listed, Overall, SortedSet;
  }

  lemma DomainsTyped(visits: seq<Visit>)
    ensures Typed(Domains(visits), true)
  {
    hide Summaries, SortedSet, Gather, DomainNodePart, Typed;
    forall host ensures Typed(DomainNodePart(Summaries(visits))(host), true) { DomainTyped(Summaries(visits), host); }
    GatherTyped(DomainNodePart(Summaries(visits)), SortedSet(Summaries(visits).Keys), true);
  }

  /** Everything but the domains is typed by its identifier and no domain. */
  lemma RoutedTyped(env: Env, d: HostDiscovery)
    ensures Typed(Routed(env, d), false)
  {
    var h, a, b, c := HostResources(env, d), DockerResources(d.docker), Correlations(d.docker), Routing(env, d.docker);
    HostResourcesTyped(env, d);
    DockerTyped(d.docker);
    CorrelationsTyped(d.docker);
    RoutingTyped(env, d.docker);
    hide HostResources, DockerResources, Correlations, Routing, Typed;
    PlusTyped(h, a, false);
    PlusTyped(Plus(h, a), b, false);
    PlusTyped(Plus(Plus(h, a), b), c, false);
  }

  lemma TypedNodes(p: Part, domain: bool)
    requires Typed(p, domain)
    ensures forall n :: n in p.nodes ==> n.nodeType == TypeOf(n.id) && (n.nodeType == DOMAIN <==> domain)
  {
    forall n | n in p.nodes ensures n.nodeType == TypeOf(n.id) && (n.nodeType == DOMAIN <==> domain) { assert TypedNode(domain)(n); }
  }

  /** Every node of the graph has the type that its identifier names. */
  lemma GraphTyped(env: Env, d: HostDiscovery)
    ensures forall n :: n in GraphOf(env, d).nodes ==> n.nodeType == TypeOf(n.id)
  {
    hide HostResources, Routed, Domains, Typed;
    HostResourcesTyped(env, d);
    TypedNodes(HostResources(env, d), false);
    RoutedTyped(env, d);
    TypedNodes(Routed(env, d), false);
    DomainsTyped(Routed(env, d).visits);
    TypedNodes(Domains(Routed(env, d).visits), true);
  }

  // ----- turning a diff around -----

  /** Two scans of one server, whatever they discover, never show two types under one identifier. */
  lemma SameIdSameType(env: Env, d: HostDiscovery, later: Env, c: HostDiscovery, x: InfraNode, y: InfraNode)
    requires IsIdentity(env.identity) && env.identity == later.identity
    requires ServerText(env, d.host) == ServerText(later, c.host)
    requires x in Written(env, d.host, GraphOf(env, d)).nodes && y in Written(later, c.host, GraphOf(later, c)).nodes
    requires x.id == y.id
    ensures x.nodeType == y.nodeType
  {
    hide GraphOf, IsIdentity, ServerText, NodeText, Map;
    var server := ServerText(env, d.host);
    var n := MapOrigin(TextNode(env, server), GraphOf(env, d).nodes, x);
    var m := MapOrigin(TextNode(later, server), GraphOf(later, c).nodes, y);
    GraphTyped(env, d);
    GraphTyped(later, c);
    NodeTextInjective(env.identity, server, n.id, m.id);
  }

  lemma CanonicalNode(g: InfraGraph, id: string) returns (x: InfraNode)
    requires id in NodesOf(Canonical(g))
    ensures x in g.nodes && ProjectNode(x) == NodesOf(Canonical(g))[id] && x.id == id
  {
    SortByElements(NodeLe, Map(ProjectNodeOf, g.nodes));
    ListedNode(Canonical(g), id);
    var n := NodesOf(Canonical(g))[id];
    hide SortBy, Map, DiscoveryQualityOf, NodesOf;
    x := MapOrigin(ProjectNodeOf, g.nodes, n);
  }

  lemma ProjectedType(x: InfraNode, y: InfraNode)
    requires x.nodeType == y.nodeType
    ensures IsEngine(ProjectNode(x)) <==> IsEngine(ProjectNode(y))
  {
  }

  /**
    Between two completely discovered snapshots of scans of one server, swapping the two always turns the
    whole diff around.
   */
  lemma BuiltSwapInverts(env: Env, d: HostDiscovery, later: Env, e: HostDiscovery, p: Snapshot, c: Snapshot)
    requires IsIdentity(env.identity) && env.identity == later.identity
    requires ServerText(env, d.host) == ServerText(later, e.host)
    requires ContentOf(Written(env, d.host, GraphOf(env, d))) == Success(p.content)
    requires ContentOf(Written(later, e.host, GraphOf(later, e))) == Success(c.content)
    requires CurrentComplete(p.content) && CurrentComplete(c.content)
    ensures Inverts(p, c)
  {
    hide ContentOf, Written, GraphOf, IsIdentity, ServerText, Inverts, ValidContent, CurrentComplete, Canonical, NodesOf, ProjectNode;
    var g, h := Written(env, d.host, GraphOf(env, d)), Written(later, e.host, GraphOf(later, e));
    ContentValid(g);
    ContentValid(h);
    forall id | id in NodesOf(p.content) && id in NodesOf(c.content)
      ensures LabelsReversible(NodesOf(p.content)[id], NodesOf(c.content)[id])
    {
      var x := CanonicalNode(g, id);
      var y := CanonicalNode(h, id);
      SameIdSameType(env, d, later, e, x, y);
      ProjectedType(x, y);
    }
    SwapInvertsExactly(p, c);
  }
}

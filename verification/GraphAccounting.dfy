/** Counting listener edges: service counts, the two directions of ownership, and published ports. */
module GraphAccounting {
  import opened Ordering
  import opened Collections
  import opened Graphs
  import opened Texts
  import opened Discovery
  import opened GraphIds
  import opened GraphSpec
  import opened GraphRouting
  import opened GraphParts
  import opened GraphShape

  // ----- which relations a part uses -----

  function RelationOf(v: Verb): RelationType {
    match v
    case Runs => RUNS
    case Contains => CONTAINS
    case Listens => LISTENS_ON
    case OwnedBy => OWNED_BY
    case Exposes => EXPOSES
    case Mounts => MOUNTS
    case Network => CONNECTED_TO
    case PublishedAs => PUBLISHED_AS
    case Proxies => PROXIES_TO
    case Resolves => RESOLVES_TO
    case Targets => TARGETS
  }

  /** The ends and the relation of an edge are those that its identifier names. */
  predicate Drawn(e: RefEdge) {
    match e.id
    case Link(source, verb, target) => e.source == source && e.target == target && e.relation == RelationOf(verb)
    case RouteLink(host, _, target) =>
      e.source == DomainRef(host) && e.target == target && e.relation == if target.ProxyRef? then ROUTES_THROUGH else ROUTES_TO
  }

  /** An edge of one of these relations, drawn as its identifier says. */
  function RelationIn(relations: set<RelationType>): RefEdge -> bool { (e: RefEdge) => e.relation in relations && Drawn(e) }

  ghost predicate Uses(p: Part, relations: set<RelationType>) { All(p, AnyNode, RelationIn(relations)) }

  lemma GatherUses<T>(f: T -> Part, s: seq<T>, relations: set<RelationType>)
    requires forall x :: x in s ==> Uses(f(x), relations)
    ensures Uses(Gather(f, s), relations)
  {
    hide All;
    GatherAll(f, s, AnyNode, RelationIn(relations));
  }

  lemma PlusUses(p: Part, q: Part, relations: set<RelationType>)
    requires Uses(p, relations) && Uses(q, relations)
    ensures Uses(Plus(p, q), relations)
  {
    hide All;
    PlusAll(p, q, AnyNode, RelationIn(relations));
  }

  const HostRelations := {RUNS}
  const DockerRelations := {RUNS, CONTAINS, EXPOSES, MOUNTS, CONNECTED_TO}
  const RoutingRelations := {RUNS, PROXIES_TO, RESOLVES_TO, TARGETS, ROUTES_TO, ROUTES_THROUGH}

  lemma ServicesUse(docker: Docker)
    ensures Uses(Gather(ServicePart(docker), docker.systemd.services), HostRelations)
  {
    hide ServiceNode, Count, Gather;
    GatherUses(ServicePart(docker), docker.systemd.services, HostRelations);
  }

  lemma ContainerUses(projects: map<string, ComposeProject>, c: Container)
    ensures Uses(ContainerPart(projects)(c), DockerRelations)
  {
    var parent, ports, mounts := ParentPart(projects, c), Gather(PortPart(c), Indexed(c.ports)), Gather(MountPart(c), Indexed(c.mounts));
    hide ContainerNode, PortNode, PortId, MountNode, MountId, Gather;
    assert Uses(parent, DockerRelations);
    GatherUses(PortPart(c), Indexed(c.ports), DockerRelations);
    GatherUses(MountPart(c), Indexed(c.mounts), DockerRelations);
    hide Uses, ParentPart;
    PlusUses(parent, ports, DockerRelations);
    PlusUses(Plus(parent, ports), mounts, DockerRelations);
  }

  lemma ProjectUses(docker: Docker, projects: map<string, ComposeProject>, project: string)
    ensures Uses(ProjectPart(docker, projects)(project), DockerRelations)
  {
    hide With, Count;
  }

  lemma NetworkUses(docker: Docker, members: map<string, seq<string>>, network: string)
    ensures Uses(NetworkPart(docker, members)(network), DockerRelations)
  {
    hide NetworkNode, Map, Filter, RelationIn;
    var kept := Filter(OnNetwork(network), docker.containers);
    forall e | e in Map(ConnectionOf(network), kept) ensures RelationIn(DockerRelations)(e) {
      var c := MapOrigin(ConnectionOf(network), kept, e);
      ConnectionDrawn(network, c);
    }
  }

  lemma ConnectionDrawn(network: string, c: Container)
    ensures RelationIn(DockerRelations)(ConnectionOf(network)(c))
  {
  }

  lemma DockerUses(docker: Docker)
    ensures Uses(DockerResources(docker), DockerRelations)
  {
    var projects, members := Projects(docker), Members(docker);
    var a, b := Gather(ProjectPart(docker, projects), SortedSet(projects.Keys)), Gather(ContainerPart(projects), SortedContainers(docker));
    var c := Gather(NetworkPart(docker, members), SortedSet(members.Keys));
    hide Projects, Members, SortedSet, SortBy, Gather, With, Count;
    hide ProjectPart, ContainerPart, NetworkPart, Uses;
    forall x ensures Uses(ProjectPart(docker, projects)(x), DockerRelations) { ProjectUses(docker, projects, x); }
    forall x ensures Uses(ContainerPart(projects)(x), DockerRelations) { ContainerUses(projects, x); }
    forall x ensures Uses(NetworkPart(docker, members)(x), DockerRelations) { NetworkUses(docker, members, x); }
    GatherUses(ProjectPart(docker, projects), SortedSet(projects.Keys), DockerRelations);
    GatherUses(ContainerPart(projects), SortedContainers(docker), DockerRelations);
    GatherUses(NetworkPart(docker, members), SortedSet(members.Keys), DockerRelations);
    PlusUses(a, b, DockerRelations);
    PlusUses(Plus(a, b), c, DockerRelations);
  }

  lemma DomainUses(env: Env, hop: Hop, host: string)
    ensures Uses(DomainPart(env, hop)(host), RoutingRelations)
  {
    hide RouteText, VisitOf;
  }

  lemma HopUses(env: Env, docker: Docker, instance: CaddyInstance, route: CaddyRoute, u: (nat, CaddyUpstream))
    ensures Uses(HopPart(env, docker, instance, route)(u), RoutingRelations)
  {
    var hop := HopOf(env, docker, instance, route, u.0, u.1);
    var head, targets, f, hosts := HopHead(env, docker, hop), HopTargets(hop), DomainPart(env, hop), RouteHosts(env, route);
    hide HopNode, HopId, HopOf, RouteHosts, Gather, KnownContainer, ListenerKey, RouteText, VisitOf;
    assert Uses(head, RoutingRelations);
    if hop.host.Some? { GatherUses(TargetPart(hop), hop.host.value.listeners, RoutingRelations); }
    assert Uses(targets, RoutingRelations);
    forall host ensures Uses(f(host), RoutingRelations) { DomainUses(env, hop, host); }
    hide Uses, HopHead, HopTargets, DomainPart;
    GatherUses(f, hosts, RoutingRelations);
    PlusUses(head, targets, RoutingRelations);
    PlusUses(Plus(head, targets), Gather(f, hosts), RoutingRelations);
  }

  lemma RouteUses(env: Env, docker: Docker, instance: CaddyInstance, route: CaddyRoute)
    ensures Uses(RoutePart(env, docker, instance)(route), RoutingRelations)
  {
    var f, s := HopPart(env, docker, instance, route), Indexed(RouteUpstreams(route));
    hide HopPart, Uses, Gather, RouteUpstreams;
    forall u | u in s ensures Uses(f(u), RoutingRelations) { HopUses(env, docker, instance, route, u); }
    GatherUses(f, s, RoutingRelations);
  }

  lemma ProxyUses(env: Env, docker: Docker, instance: CaddyInstance)
    ensures Uses(ProxyPart(env, docker, instance), RoutingRelations)
  {
    hide ProxyNode, KnownContainer;
  }

  lemma InstanceUses(env: Env, docker: Docker, instance: CaddyInstance)
    ensures Uses(InstancePart(env, docker)(instance), RoutingRelations)
  {
    var f, s := RoutePart(env, docker, instance), SortBy(RouteLe, instance.routes);
    hide ProxyPart, RoutePart, Uses, Gather, SortBy;
    ProxyUses(env, docker, instance);
    forall r | r in s ensures Uses(f(r), RoutingRelations) { RouteUses(env, docker, instance, r); }
    GatherUses(f, s, RoutingRelations);
    PlusUses(ProxyPart(env, docker, instance), Gather(f, s), RoutingRelations);
  }

  lemma RoutingUses(env: Env, docker: Docker)
    ensures Uses(Routing(env, docker), RoutingRelations)
  {
    hide InstancePart, Uses, Gather, SortBy;
    forall i ensures Uses(InstancePart(env, docker)(i), RoutingRelations) { InstanceUses(env, docker, i); }
    GatherUses(InstancePart(env, docker), SortBy(InstanceLe, docker.caddy.instances), RoutingRelations);
  }

  lemma CorrelationsUse(docker: Docker)
    ensures Uses(Correlations(docker), {PUBLISHED_AS})
  {
    var byBinding := PortsByBinding(FlatMap(PublishedOf, SortedContainers(docker)));
    hide PortsByBinding, FlatMap, SortBy, Gather, ListenerKey, ListenerBinding;
    GatherUses(CorrelationPart(byBinding), docker.listeners.items, {PUBLISHED_AS});
  }

  lemma DomainsUse(visits: seq<Visit>)
    ensures Uses(Domains(visits), {})
  {
    hide Summaries, DomainNode, SortedSet, Gather;
    GatherUses(DomainNodePart(Summaries(visits)), SortedSet(Summaries(visits).Keys), {});
  }

  // ----- where listener edges are -----

  const OtherRelations := DockerRelations + RoutingRelations + {PUBLISHED_AS}

  lemma UsesMore(p: Part, relations: set<RelationType>, more: set<RelationType>)
    requires Uses(p, relations) && relations <= more
    ensures Uses(p, more)
  {
  }

  function ListenerEdges(docker: Docker): seq<RefEdge> { Gather(ListenerPart(docker), docker.listeners.items).edges }

  /** Listener edges stand between service edges and edges of other relations. */
  lemma EdgesSplit(env: Env, d: HostDiscovery) returns (front: seq<RefEdge>, back: seq<RefEdge>)
    ensures GraphOf(env, d).edges == front + ListenerEdges(d.docker) + back
    ensures forall e :: e in front ==> e.relation in HostRelations
    ensures forall e :: e in back ==> e.relation in OtherRelations
  {
    front := FrontEdges(env, d);
    hide HostResources, Routed, ListenerEdges;
    if d.docker.state == AVAILABLE {
      back := BackEdges(env, d);
    } else {
      back := [];
    }
  }

  lemma FrontEdges(env: Env, d: HostDiscovery) returns (front: seq<RefEdge>)
    ensures HostResources(env, d).edges == front + ListenerEdges(d.docker)
    ensures forall e :: e in front ==> e.relation in HostRelations
  {
    var host, services := HostPart(env, d.host, d.docker), Gather(ServicePart(d.docker), d.docker.systemd.services);
    front := host.edges + services.edges;
    assert Uses(host, HostRelations) by { hide ServerNode, EngineNode; }
    hide HostPart, ServicePart, ListenerPart, Gather, Uses;
    ServicesUse(d.docker);
    PlusUses(host, services, HostRelations);
    UsedRelations(Plus(host, services), HostRelations);
  }

  lemma BackEdges(env: Env, d: HostDiscovery) returns (back: seq<RefEdge>)
    requires d.docker.state == AVAILABLE
    ensures GraphOf(env, d).edges == HostResources(env, d).edges + back
    ensures forall e :: e in back ==> e.relation in OtherRelations
  {
    hide HostResources, DockerResources, Correlations, Routing, Domains, Uses;
    var visits := Routed(env, d).visits;
    var a, b, c, e := DockerResources(d.docker), Correlations(d.docker), Routing(env, d.docker), Domains(visits);
    back := a.edges + b.edges + c.edges + e.edges;
    DockerUses(d.docker);
    CorrelationsUse(d.docker);
    RoutingUses(env, d.docker);
    DomainsUse(visits);
    UsesMore(a, DockerRelations, OtherRelations);
    UsesMore(b, {PUBLISHED_AS}, OtherRelations);
    UsesMore(c, RoutingRelations, OtherRelations);
    UsesMore(e, {}, OtherRelations);
    PlusUses(a, b, OtherRelations);
    PlusUses(Plus(a, b), c, OtherRelations);
    PlusUses(Plus(Plus(a, b), c), e, OtherRelations);
    UsedRelations(Plus(Plus(Plus(a, b), c), e), OtherRelations);
  }

  lemma UsedRelations(p: Part, relations: set<RelationType>)
    requires Uses(p, relations)
    ensures forall e :: e in p.edges ==> e.relation in relations && Drawn(e)
  {
    hide Drawn;
    forall e | e in p.edges ensures e.relation in relations && Drawn(e) { assert RelationIn(relations)(e); }
  }

  // ----- listener counts -----

  function ListensFrom(unit: string): RefEdge -> bool {
    (e: RefEdge) => e.relation == LISTENS_ON && e.source == ServiceRef(unit)
  }

  lemma CountTriple<T>(p: T -> bool, x: T, y: T, z: T)
    ensures Count(p, [x]) == if p(x) then 1 else 0
    ensures Count(p, [x, y, z]) == (if p(x) then 1 else 0) + (if p(y) then 1 else 0) + if p(z) then 1 else 0
  {
    assert [x][..0] == [] && [x, y][..1] == [x] && [x, y, z][..2] == [x, y];
  }

  lemma ListenerPartCount(docker: Docker, l: Listener, unit: string)
    requires unit in Units(docker.systemd)
    ensures Count(ListensFrom(unit), ListenerPart(docker)(l).edges) == if ListensFor(unit)(l) then 1 else 0
  {
    var id := ListenerRef(ListenerKey(l));
    var x := LinkOf(ServerRef, Contains, id, CONTAINS);
    hide ListenerNode, ListenerKey, Units, Count;
    if OwnedBySystemd(l) && l.systemdUnit.value in Units(docker.systemd) {
      var y, z := ListensEdge(ServiceRef(l.systemdUnit.value), id), OwnedEdge(id, ServiceRef(l.systemdUnit.value));
      assert ListenerPart(docker)(l).edges == [x, y, z];
      CountTriple(ListensFrom(unit), x, y, z);
    } else {
      assert ListenerPart(docker)(l).edges == [x];
      CountTriple(ListensFrom(unit), x, x, x);
    }
  }

  lemma {:induction false} ListensCount(docker: Docker, items: seq<Listener>, unit: string)
    requires unit in Units(docker.systemd)
    ensures Count(ListensFrom(unit), Gather(ListenerPart(docker), items).edges) == Count(ListensFor(unit), items)
  {
    hide ListenerPart, ListensFor, Units;
    if items != [] {
      var n := |items| - 1;
      ListensCount(docker, items[..n], unit);
      ListenerPartCount(docker, items[n], unit);
      CountAppend(ListensFrom(unit), Gather(ListenerPart(docker), items[..n]).edges, ListenerPart(docker)(items[n]).edges);
    }
  }

  lemma CountThreeLists<T>(p: T -> bool, a: seq<T>, b: seq<T>, c: seq<T>)
    requires (forall x :: x in a ==> !p(x)) && (forall x :: x in c ==> !p(x))
    ensures Count(p, a + b + c) == Count(p, b)
  {
    CountAppend(p, a + b, c);
    CountAppend(p, a, b);
    CountNone(p, a);
    CountNone(p, c);
  }

  lemma GraphListens(env: Env, d: HostDiscovery, unit: string)
    requires unit in Units(d.docker.systemd)
    ensures Count(ListensFrom(unit), GraphOf(env, d).edges) == Count(ListensFor(unit), d.docker.listeners.items)
  {
    var front, back := EdgesSplit(env, d);
    hide GraphOf, Gather, ListenerPart, Units, ListensFor;
    CountThreeLists(ListensFrom(unit), front, ListenerEdges(d.docker), back);
    ListensCount(d.docker, d.docker.listeners.items, unit);
  }

  lemma ServiceListed(env: Env, d: HostDiscovery, s: Service)
    requires s in d.docker.systemd.services
    ensures ServiceNode(d.docker.systemd, s, Count(ListensFor(s.unit), d.docker.listeners.items)) in GraphOf(env, d).nodes
  {
    var f, services := ServicePart(d.docker), d.docker.systemd.services;
    var n := f(s).nodes[0];
    assert n in f(s).nodes;
    hide ServiceNode, Count, HostPart, ListenerPart;
    GatherNodes(f, services, s, n);
    hide Gather;
    HostNodesKept(env, d, n);
    hide GraphOf;
  }

  lemma HostNodesKept(env: Env, d: HostDiscovery, n: RefNode)
    requires n in HostResources(env, d).nodes
    ensures n in GraphOf(env, d).nodes
  {
    hide HostResources, DockerResources, Correlations, Routing, Domains;
  }

  lemma CountShown(systemd: Systemd, s: Service, count: nat)
    ensures var n := ServiceNode(systemd, s, count);
      n.id == ServiceRef(s.unit) && "listener count" in n.metadata && n.metadata["listener count"] == Decimal(count)
  {
    hide With;
  }

  /** The "listener count" of a service node is the number of its LISTENS_ON edges. */
  lemma ListenerCounts(env: Env, d: HostDiscovery, s: Service) returns (n: RefNode)
    requires s in d.docker.systemd.services
    ensures n in GraphOf(env, d).nodes && n.id == ServiceRef(s.unit)
    ensures "listener count" in n.metadata
    ensures n.metadata["listener count"] == Decimal(Count(ListensFrom(s.unit), GraphOf(env, d).edges))
  {
    hide ServiceNode, GraphOf, Count;
    var count := Count(ListensFor(s.unit), d.docker.listeners.items);
    assert s.unit in Units(d.docker.systemd);
    GraphListens(env, d, s.unit);
    ServiceListed(env, d, s);
    CountShown(d.docker.systemd, s, count);
    n := ServiceNode(d.docker.systemd, s, count);
  }

  // ----- ownership in both directions -----

  lemma {:induction false} GatherEdgeOrigin<T>(f: T -> Part, s: seq<T>, e: RefEdge) returns (x: T)
    requires e in Gather(f, s).edges
    ensures x in s && e in f(x).edges
  {
    var n := |s| - 1;
    assert s == s[..n] + [s[n]];
    if e in f(s[n]).edges {
      x := s[n];
    } else {
      x := GatherEdgeOrigin(f, s[..n], e);
    }
  }

  lemma {:induction false} GatherEdges<T>(f: T -> Part, s: seq<T>, x: T, e: RefEdge)
    requires x in s && e in f(x).edges
    ensures e in Gather(f, s).edges
  {
    var k := |s| - 1;
    assert s == s[..k] + [s[k]];
    if x in s[..k] { GatherEdges(f, s[..k], x, e); }
  }

  function ListensEdge(service: NodeRef, listener: NodeRef): RefEdge { LinkOf(service, Listens, listener, LISTENS_ON) }

  function OwnedEdge(listener: NodeRef, service: NodeRef): RefEdge { LinkOf(listener, OwnedBy, service, OWNED_BY) }

  lemma ListenerPair(docker: Docker, l: Listener, e: RefEdge)
    requires e in ListenerPart(docker)(l).edges
    ensures e.relation == LISTENS_ON ==>
      e == ListensEdge(e.source, e.target) && OwnedEdge(e.target, e.source) in ListenerPart(docker)(l).edges
    ensures e.relation == OWNED_BY ==>
      e == OwnedEdge(e.source, e.target) && ListensEdge(e.target, e.source) in ListenerPart(docker)(l).edges
  {
    hide ListenerNode, ListenerKey, Units;
  }

  lemma InListenerEdges(env: Env, d: HostDiscovery, e: RefEdge)
    requires e.relation == LISTENS_ON || e.relation == OWNED_BY
    ensures e in GraphOf(env, d).edges <==> e in ListenerEdges(d.docker)
  {
    var front, back := EdgesSplit(env, d);
    hide GraphOf, ListenerEdges;
  }

  /** OWNED_BY is exactly the inverse of LISTENS_ON. */
  lemma OwnershipInverts(env: Env, d: HostDiscovery, e: RefEdge)
    requires e in GraphOf(env, d).edges
    ensures e.relation == LISTENS_ON ==>
      e == ListensEdge(e.source, e.target) && OwnedEdge(e.target, e.source) in GraphOf(env, d).edges
    ensures e.relation == OWNED_BY ==>
      e == OwnedEdge(e.source, e.target) && ListensEdge(e.target, e.source) in GraphOf(env, d).edges
  {
    var f, items := ListenerPart(d.docker), d.docker.listeners.items;
    if e.relation == LISTENS_ON || e.relation == OWNED_BY {
      var other := if e.relation == LISTENS_ON then OwnedEdge(e.target, e.source) else ListensEdge(e.target, e.source);
      InListenerEdges(env, d, e);
      InListenerEdges(env, d, other);
      hide GraphOf, ListenerPart;
      var l := GatherEdgeOrigin(f, items, e);
      ListenerPair(d.docker, l, e);
      GatherEdges(f, items, l, other);
    }
  }

  // ----- published listeners -----

  function HasBinding(b: Binding): Published -> bool { (p: Published) => PortBinding(p.port) == Some(b) }

  function IdFor(b: Binding): Published -> Option<NodeRef> {
    (p: Published) => if PortBinding(p.port) == Some(b) then Some(p.id) else None
  }

  /** The ports grouped under a binding are those that have it. */
  lemma {:induction false} GroupedPorts(ports: seq<Published>, b: Binding)
    ensures Group(PortsByBinding(ports), b) == FilterMap(IdFor(b), ports)
  {
    hide PortBinding;
    if ports != [] {
      var n := |ports| - 1;
      GroupedPorts(ports[..n], b);
      var pair := BindingPair(ports[n]);
      if pair.Some? {
        var pairs := FilterMap(BindingPair, ports[..n]);
        assert (pairs + [pair.value])[..|pairs|] == pairs;
      }
    }
  }

  lemma {:induction false} FilterMapSize(ports: seq<Published>, b: Binding)
    ensures |FilterMap(IdFor(b), ports)| == Count(HasBinding(b), ports)
  {
    hide PortBinding;
    if ports != [] { FilterMapSize(ports[..|ports| - 1], b); }
  }

  function PublishedPorts(docker: Docker): seq<Published> { FlatMap(PublishedOf, SortedContainers(docker)) }

  function PublishedEdge(port: NodeRef, l: Listener): RefEdge {
    LinkOf(port, PublishedAs, ListenerRef(ListenerKey(l)), PUBLISHED_AS)
  }

  lemma CorrelationEdges(docker: Docker, l: Listener, e: RefEdge)
    ensures e in CorrelationPart(PortsByBinding(PublishedPorts(docker)))(l).edges <==>
      && Count(HasBinding(ListenerBinding(l)), PublishedPorts(docker)) == 1
      && exists p :: p in PublishedPorts(docker) && HasBinding(ListenerBinding(l))(p) && e == PublishedEdge(p.id, l)
  {
    var ports, b := PublishedPorts(docker), ListenerBinding(l);
    GroupedPorts(ports, b);
    FilterMapSize(ports, b);
    FilterMapElements(IdFor(b), ports);
    hide PublishedPorts, PortsByBinding, FilterMap, Count, PortBinding, ListenerBinding, ListenerKey;
    var ids := FilterMap(IdFor(b), ports);
    if |ids| == 1 {
      assert ids[0] in ids;
      assert forall id :: id in ids ==> id == ids[0];
      if p :| p in ports && HasBinding(b)(p) && e == PublishedEdge(p.id, l) { assert IdFor(b)(p) == Some(p.id); }
    }
  }

  lemma InCorrelations(env: Env, d: HostDiscovery, e: RefEdge)
    requires d.docker.state == AVAILABLE && e.relation == PUBLISHED_AS
    ensures e in GraphOf(env, d).edges <==> e in Correlations(d.docker).edges
  {
    hide DockerResources, Correlations, Routing, Domains, Uses, HostResources;
    DockerUses(d.docker);
    RoutingUses(env, d.docker);
    DomainsUse(Routed(env, d).visits);
    UsedRelations(DockerResources(d.docker), DockerRelations);
    UsedRelations(Routing(env, d.docker), RoutingRelations);
    UsedRelations(Domains(Routed(env, d).visits), {});
    HostUses(env, d);
    UsedRelations(HostResources(env, d), ResourceRelations);
  }

  const ResourceRelations := {RUNS, CONTAINS, LISTENS_ON, OWNED_BY}

  lemma ListenerUses(docker: Docker, l: Listener)
    ensures Uses(ListenerPart(docker)(l), ResourceRelations)
  {
    hide ListenerNode, ListenerKey, Units;
  }

  lemma HostUses(env: Env, d: HostDiscovery)
    ensures Uses(HostResources(env, d), ResourceRelations)
  {
    var host := HostPart(env, d.host, d.docker);
    var services, listeners := Gather(ServicePart(d.docker), d.docker.systemd.services), Gather(ListenerPart(d.docker), d.docker.listeners.items);
    hide ServerNode, EngineNode, ListenerPart, ServicePart, Gather;
    assert Uses(host, ResourceRelations);
    ServicesUse(d.docker);
    UsesMore(services, HostRelations, ResourceRelations);
    hide Uses, HostPart;
    forall l ensures Uses(ListenerPart(d.docker)(l), ResourceRelations) { ListenerUses(d.docker, l); }
    GatherUses(ListenerPart(d.docker), d.docker.listeners.items, ResourceRelations);
    PlusUses(host, services, ResourceRelations);
    PlusUses(Plus(host, services), listeners, ResourceRelations);
  }

  /** Every edge of the graph is drawn as its identifier says. */
  lemma GraphDrawn(env: Env, d: HostDiscovery)
    ensures forall e :: e in GraphOf(env, d).edges ==> Drawn(e)
  {
    hide HostResources, DockerResources, Correlations, Routing, Domains, Uses, Drawn;
    var visits := Routed(env, d).visits;
    var h, a, b, c, e := HostResources(env, d), DockerResources(d.docker), Correlations(d.docker), Routing(env, d.docker), Domains(visits);
    HostUses(env, d);
    UsedRelations(h, ResourceRelations);
    if d.docker.state == AVAILABLE {
      DockerUses(d.docker);
      CorrelationsUse(d.docker);
      RoutingUses(env, d.docker);
      DomainsUse(visits);
      UsedRelations(a, DockerRelations);
      UsedRelations(b, {PUBLISHED_AS});
      UsedRelations(c, RoutingRelations);
      UsedRelations(e, {});
      assert GraphOf(env, d).edges == h.edges + a.edges + b.edges + c.edges + e.edges;
    }
  }

  /** A correlation edge to a listener was added for that listener. */
  lemma OwnCorrelation(docker: Docker, byBinding: map<Binding, seq<NodeRef>>, l: Listener, e: RefEdge)
    requires UniqueBy(ListenerKeyOf, docker.listeners.items) && l in docker.listeners.items
    requires e.target == ListenerRef(ListenerKey(l))
    ensures e in Gather(CorrelationPart(byBinding), docker.listeners.items).edges <==> e in CorrelationPart(byBinding)(l).edges
  {
    var f, items := CorrelationPart(byBinding), docker.listeners.items;
    UniqueByDistinct(ListenerKeyOf, items);
    hide Gather, ListenerBinding, ListenerKey, UniqueBy;
    if e in Gather(f, items).edges {
      var x := GatherEdgeOrigin(f, items, e);
      assert ListenerKeyOf(x) == ListenerKeyOf(l);
    }
    if e in f(l).edges { GatherEdges(f, items, l, e); }
  }

  /**
    A listener is shown as published exactly when one and only one published port has its binding,
    and then through that port.
   */
  lemma PublishedExact(env: Env, d: HostDiscovery, l: Listener, e: RefEdge)
    requires Sound(d.docker) && d.docker.state == AVAILABLE && l in d.docker.listeners.items
    requires e.relation == PUBLISHED_AS && e.target == ListenerRef(ListenerKey(l))
    ensures e in GraphOf(env, d).edges <==>
      && Count(HasBinding(ListenerBinding(l)), PublishedPorts(d.docker)) == 1
      && exists p :: p in PublishedPorts(d.docker) && HasBinding(ListenerBinding(l))(p) && e == PublishedEdge(p.id, l)
  {
    hide GraphOf, Gather, CorrelationPart, PortsByBinding, FlatMap, HasBinding, ListenerBinding, ListenerKey, Count, UniqueBy, PublishedEdge;
    var byBinding := PortsByBinding(PublishedPorts(d.docker));
    InCorrelations(env, d, e);
    CorrelationEdges(d.docker, l, e);
    OwnCorrelation(d.docker, byBinding, l, e);
  }

  // ----- domains -----

  ghost predicate Routes(visits: seq<Visit>, host: string) { exists v :: v in visits && v.host == host }

  /** What the routes of a domain say about it, all together. */
  ghost predicate Sums(visits: seq<Visit>, host: string, s: Summary) {
    && s.routeIds == (set v | v in visits && v.host == host :: v.routeId)
    && s.paths == (set v, path | v in visits && v.host == host && path in v.paths :: path)
    && s.upstreams == (set v | v in visits && v.host == host :: v.dial)
    && s.resolutions == (set v | v in visits && v.host == host :: v.resolution)
    && s.proxies == (set v | v in visits && v.host == host :: v.proxy)
    && s.targets == (set v | v in visits && v.host == host && v.target.Some? :: v.target.value)
    && s.services == (set v | v in visits && v.host == host && v.service.Some? :: v.service.value)
  }

  lemma VisitSums(visits: seq<Visit>, v: Visit, s: Summary)
    requires Sums(visits, v.host, s)
    ensures Sums(visits + [v], v.host, Extend(s, v))
  {
    var all := visits + [v];
    forall w ensures w in all <==> w in visits || w == v {}
  }

  lemma OtherSums(visits: seq<Visit>, v: Visit, host: string, s: Summary)
    requires Sums(visits, host, s) && v.host != host
    ensures Sums(visits + [v], host, s)
  {
    var all := visits + [v];
    forall w ensures w in all && w.host == host <==> w in visits && w.host == host {}
  }

  /** A domain is summarised exactly when some route serves it, and then by all that serve it and no other. */
  lemma {:induction false} SummariesExact(visits: seq<Visit>, host: string)
    ensures host in Summaries(visits) <==> Routes(visits, host)
    ensures host in Summaries(visits) ==> Sums(visits, host, Summaries(visits)[host])
  {
    if visits != [] {
      hide Extend, Sums;
      var front, last := visits[..|visits| - 1], visits[|visits| - 1];
      assert visits == front + [last];
      SummariesExact(front, host);
      if last.host == host {
        assert last in visits;
        if host !in Summaries(front) { NothingSummed(front, host); }
        VisitSums(front, last, if host in Summaries(front) then Summaries(front)[host] else EmptySummary);
      } else {
        if host in Summaries(front) { OtherSums(front, last, host, Summaries(front)[host]); }
      }
    }
  }

  lemma NothingSummed(visits: seq<Visit>, host: string)
    requires !Routes(visits, host)
    ensures Sums(visits, host, EmptySummary)
  {
  }
}

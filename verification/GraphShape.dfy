/** The built graph is well formed: unique identifiers, and every edge joins two of its nodes. */
module GraphShape {
  import opened Ordering
  import opened Collections
  import opened Texts
  import opened Discovery
  import opened GraphIds
  import opened GraphSpec
  import opened GraphRouting
  import opened GraphParts

  /** What parsing guarantees, and what is assumed of the engine: container identifiers do not repeat. */
  ghost predicate Sound(docker: Docker) {
    && UniqueBy(UnitOf, docker.systemd.services)
    && UniqueBy(ListenerKeyOf, docker.listeners.items)
    && UniqueBy(ContainerIdOf, docker.containers)
    && UniqueBy(InstanceIdOf, docker.caddy.instances)
    && forall i :: i in docker.caddy.instances ==> UniqueBy(RouteKeyOf, i.routes)
  }

  // ----- services, listeners, projects, networks -----

  const ServiceOwner: Service -> Owner := (s: Service) => (1, s.unit)
  const ListenerOwner: Listener -> Owner := (l: Listener) => (2, ListenerKey(l))
  const ProjectOwner: string -> Owner := (p: string) => (3, p)
  const ContainerOwner: Container -> Owner := (c: Container) => (4, c.id)
  const NetworkOwner: string -> Owner := (n: string) => (5, n)
  const CorrelationOwner: Listener -> Owner := (l: Listener) => (6, ListenerKey(l))
  const InstanceOwner: CaddyInstance -> Owner := (i: CaddyInstance) => (7, i.containerId)
  const DomainOwner: string -> Owner := (host: string) => (8, host)

  lemma HostUnique(env: Env, host: HostInfo, docker: Docker)
    ensures Unique(HostPart(env, host, docker)) && InSections(HostPart(env, host, docker), {0})
  {
    hide ServerText, Reasons, With;
  }

  lemma ServicesUnique(docker: Docker)
    requires Sound(docker)
    ensures Unique(Gather(ServicePart(docker), docker.systemd.services))
    ensures InSections(Gather(ServicePart(docker), docker.systemd.services), {1})
  {
    var f, s := ServicePart(docker), docker.systemd.services;
    forall i, j | 0 <= i < j < |s| ensures ServiceOwner(s[i]) != ServiceOwner(s[j]) { assert UnitOf(s[i]) != UnitOf(s[j]); }
    hide Count, With, Gather, InSections;
    forall x | x in s ensures Unique(f(x)) && Owned(f(x), ServiceOwner(x)) {}
    SectionUnique(f, s, ServiceOwner, 1);
  }

  lemma ListenersUnique(docker: Docker)
    requires Sound(docker)
    ensures Unique(Gather(ListenerPart(docker), docker.listeners.items))
    ensures InSections(Gather(ListenerPart(docker), docker.listeners.items), {2})
  {
    var f, s := ListenerPart(docker), docker.listeners.items;
    forall i, j | 0 <= i < j < |s| ensures ListenerOwner(s[i]) != ListenerOwner(s[j]) {
      assert ListenerKeyOf(s[i]) != ListenerKeyOf(s[j]);
    }
    hide ListenerKey, With, Gather, InSections, Units;
    forall x | x in s ensures Unique(f(x)) && Owned(f(x), ListenerOwner(x)) {}
    SectionUnique(f, s, ListenerOwner, 2);
  }

  lemma NamesUnique(names: seq<string>, owner: string -> Owner)
    requires Distinct(names) && forall a, b :: owner(a) == owner(b) ==> a == b
    ensures UniqueBy(owner, names)
  {
  }

  lemma ProjectOwned(docker: Docker, projects: map<string, ComposeProject>, project: string)
    ensures var p := ProjectPart(docker, projects)(project); Unique(p) && Owned(p, ProjectOwner(project))
  {
    hide Count, With;
  }

  lemma ProjectsUnique(docker: Docker, projects: map<string, ComposeProject>)
    ensures Unique(Gather(ProjectPart(docker, projects), SortedSet(projects.Keys)))
    ensures InSections(Gather(ProjectPart(docker, projects), SortedSet(projects.Keys)), {3})
  {
    SortedSetDistinct(projects.Keys);
    var f, s := ProjectPart(docker, projects), SortedSet(projects.Keys);
    hide Gather, InSections, SortedSet, ProjectPart, Unique, Owned;
    NamesUnique(s, ProjectOwner);
    forall x | x in s ensures Unique(f(x)) && Owned(f(x), ProjectOwner(x)) { ProjectOwned(docker, projects, x); }
    SectionUnique(f, s, ProjectOwner, 3);
  }

  lemma ConnectionsUnique(docker: Docker, network: string)
    requires UniqueBy(ContainerIdOf, docker.containers)
    ensures UniqueBy(EdgeIdOf, Map(ConnectionOf(network), Filter(OnNetwork(network), docker.containers)))
  {
    UniqueByDistinct(ContainerIdOf, docker.containers);
    FilterDistinct(OnNetwork(network), docker.containers);
    FilterElements(OnNetwork(network), docker.containers);
    var kept := Filter(OnNetwork(network), docker.containers);
    var edges := Map(ConnectionOf(network), kept);
    hide Filter, Map, UniqueBy;
    forall i, j | 0 <= i < j < |edges| ensures EdgeIdOf(edges[i]) != EdgeIdOf(edges[j]) {
      assert kept[i] in kept && kept[j] in kept && kept[i] != kept[j];
      assert ContainerIdOf(kept[i]) != ContainerIdOf(kept[j]);
      assert edges[i] == ConnectionOf(network)(kept[i]) && edges[j] == ConnectionOf(network)(kept[j]);
    }
    assert UniqueBy(EdgeIdOf, edges) by { UniqueIntro(EdgeIdOf, edges); }
  }

  lemma UniqueIntro<K, V>(key: V -> K, s: seq<V>)
    requires forall i, j :: 0 <= i < j < |s| ==> key(s[i]) != key(s[j])
    ensures UniqueBy(key, s)
  {
  }

  lemma NetworkOwned(docker: Docker, members: map<string, seq<string>>, network: string)
    requires UniqueBy(ContainerIdOf, docker.containers)
    ensures Unique(NetworkPart(docker, members)(network)) && Owned(NetworkPart(docker, members)(network), NetworkOwner(network))
  {
    ConnectionsUnique(docker, network);
    var kept := Filter(OnNetwork(network), docker.containers);
    forall e | e in Map(ConnectionOf(network), kept) ensures EdgeOf(NetworkOwner(network))(e) {
      var c := MapOrigin(ConnectionOf(network), kept, e);
    }
    hide Map, Filter;
  }

  lemma NetworksUnique(docker: Docker, members: map<string, seq<string>>)
    requires UniqueBy(ContainerIdOf, docker.containers)
    ensures Unique(Gather(NetworkPart(docker, members), SortedSet(members.Keys)))
    ensures InSections(Gather(NetworkPart(docker, members), SortedSet(members.Keys)), {5})
  {
    SortedSetDistinct(members.Keys);
    var f, s := NetworkPart(docker, members), SortedSet(members.Keys);
    hide Gather, InSections, SortedSet, NetworkPart, Unique, Owned;
    NamesUnique(s, NetworkOwner);
    forall x | x in s ensures Unique(f(x)) && Owned(f(x), NetworkOwner(x)) { NetworkOwned(docker, members, x); }
    SectionUnique(f, s, NetworkOwner, 5);
  }

  lemma CorrelationsUnique(docker: Docker, byBinding: map<Binding, seq<NodeRef>>)
    requires Sound(docker)
    ensures Unique(Gather(CorrelationPart(byBinding), docker.listeners.items))
    ensures InSections(Gather(CorrelationPart(byBinding), docker.listeners.items), {6})
  {
    var f, s := CorrelationPart(byBinding), docker.listeners.items;
    forall i, j | 0 <= i < j < |s| ensures CorrelationOwner(s[i]) != CorrelationOwner(s[j]) {
      assert ListenerKeyOf(s[i]) != ListenerKeyOf(s[j]);
    }
    hide ListenerKey, ListenerBinding, Gather, InSections;
    forall x | x in s ensures Unique(f(x)) && Owned(f(x), CorrelationOwner(x)) {}
    SectionUnique(f, s, CorrelationOwner, 6);
  }

  lemma DomainNodeId(host: string, summary: Summary)
    ensures DomainNode(host, summary).id == DomainRef(host)
  {
  }

  lemma DomainOwned(domains: map<string, Summary>, host: string)
    ensures Unique(DomainNodePart(domains)(host)) && Owned(DomainNodePart(domains)(host), DomainOwner(host))
  {
    if host in domains { DomainNodeId(host, domains[host]); }
    hide DomainNode;
  }

  lemma DomainsUnique(visits: seq<Visit>)
    ensures Unique(Domains(visits)) && InSections(Domains(visits), {8})
  {
    var domains := Summaries(visits);
    SortedSetDistinct(domains.Keys);
    var f, s := DomainNodePart(domains), SortedSet(domains.Keys);
    hide Gather, InSections, SortedSet, DomainNodePart, Summaries, Unique, Owned;
    NamesUnique(s, DomainOwner);
    forall x | x in s ensures Unique(f(x)) && Owned(f(x), DomainOwner(x)) { DomainOwned(domains, x); }
    SectionUnique(f, s, DomainOwner, 8);
  }

  // ----- containers -----

  lemma PortIdsDiffer(c: Container, i: nat, p: Port, j: nat, q: Port)
    requires i != j
    ensures PortId(c, i, p) != PortId(c, j, q)
  {
    if PortId(c, i, p) == PortId(c, j, q) { NumberedTexts(':', i, PortText(p), j, PortText(q)); }
    hide PortText;
  }

  lemma PortsApart(c: Container, i: nat, p: Port, j: nat, q: Port)
    requires i != j
    ensures Apart(PortPart(c)((i, p)), PortPart(c)((j, q)))
  {
    PortIdsDiffer(c, i, p, j, q);
    hide PortId;
    PortNodeId(PortId(c, i, p), p);
    PortNodeId(PortId(c, j, q), q);
    hide PortNode;
  }

  lemma MountIdsDiffer(c: Container, i: nat, m: Mount, j: nat, n: Mount)
    requires i != j
    ensures MountId(c, i, m) != MountId(c, j, n)
  {
    if MountId(c, i, m) == MountId(c, j, n) { NumberedTexts(':', i, MountText(m), j, MountText(n)); }
    hide MountText;
  }

  lemma MountsApart(c: Container, i: nat, m: Mount, j: nat, n: Mount)
    requires i != j
    ensures Apart(MountPart(c)((i, m)), MountPart(c)((j, n)))
  {
    MountIdsDiffer(c, i, m, j, n);
    hide MountId;
    MountNodeId(MountId(c, i, m), m);
    MountNodeId(MountId(c, j, n), n);
    hide MountNode;
  }

  const IsContainer := (n: RefNode) => n.id.ContainerRef?
  const IsPort := (n: RefNode) => n.id.PortRef?
  const IsMount := (n: RefNode) => n.id.MountRef?
  const IsParent := (e: RefEdge) => e.id.Link? && (e.id.verb == Runs || e.id.verb == Contains)
  const IsExposes := (e: RefEdge) => e.id.Link? && e.id.verb == Exposes
  const IsMounts := (e: RefEdge) => e.id.Link? && e.id.verb == Mounts

  lemma PortOwned(c: Container, p: (nat, Port))
    ensures Unique(PortPart(c)(p)) && Owned(PortPart(c)(p), ContainerOwner(c)) && All(PortPart(c)(p), IsPort, IsExposes)
  {
    hide PortNode, OrNull;
    assert PortNode(PortId(c, p.0, p.1), p.1).id == PortId(c, p.0, p.1) by { PortNodeId(PortId(c, p.0, p.1), p.1); }
  }

  lemma PortNodeId(id: NodeRef, p: Port)
    ensures PortNode(id, p).id == id
  {
  }

  lemma MountOwned(c: Container, m: (nat, Mount))
    ensures Unique(MountPart(c)(m)) && Owned(MountPart(c)(m), ContainerOwner(c)) && All(MountPart(c)(m), IsMount, IsMounts)
  {
    hide MountNode, OrNull;
    assert MountNode(MountId(c, m.0, m.1), m.1).id == MountId(c, m.0, m.1) by { MountNodeId(MountId(c, m.0, m.1), m.1); }
  }

  lemma MountNodeId(id: NodeRef, m: Mount)
    ensures MountNode(id, m).id == id
  {
  }

  lemma PortsUnique(c: Container)
    ensures Unique(Gather(PortPart(c), Indexed(c.ports))) && Owned(Gather(PortPart(c), Indexed(c.ports)), ContainerOwner(c))
    ensures All(Gather(PortPart(c), Indexed(c.ports)), IsPort, IsExposes)
  {
    var f, s := PortPart(c), Indexed(c.ports);
    hide PortPart, Unique, Apart, All, Gather;
    forall x | x in s ensures Unique(f(x)) && Owned(f(x), ContainerOwner(c)) && All(f(x), IsPort, IsExposes) { PortOwned(c, x); }
    forall i, j | 0 <= i < j < |s| ensures Apart(f(s[i]), f(s[j])) { PortsApart(c, i, c.ports[i], j, c.ports[j]); }
    GatherUnique(f, s);
    GatherAll(f, s, NodeOf(ContainerOwner(c)), EdgeOf(ContainerOwner(c)));
    GatherAll(f, s, IsPort, IsExposes);
  }

  lemma MountsUnique(c: Container)
    ensures Unique(Gather(MountPart(c), Indexed(c.mounts))) && Owned(Gather(MountPart(c), Indexed(c.mounts)), ContainerOwner(c))
    ensures All(Gather(MountPart(c), Indexed(c.mounts)), IsMount, IsMounts)
  {
    var f, s := MountPart(c), Indexed(c.mounts);
    hide MountPart, Unique, Apart, All, Gather;
    forall x | x in s ensures Unique(f(x)) && Owned(f(x), ContainerOwner(c)) && All(f(x), IsMount, IsMounts) { MountOwned(c, x); }
    forall i, j | 0 <= i < j < |s| ensures Apart(f(s[i]), f(s[j])) { MountsApart(c, i, c.mounts[i], j, c.mounts[j]); }
    GatherUnique(f, s);
    GatherAll(f, s, NodeOf(ContainerOwner(c)), EdgeOf(ContainerOwner(c)));
    GatherAll(f, s, IsMount, IsMounts);
  }

  lemma ParentOwned(projects: map<string, ComposeProject>, c: Container)
    ensures var p := ParentPart(projects, c);
      Unique(p) && Owned(p, ContainerOwner(c)) && All(p, IsContainer, IsParent)
  {
    hide Listed, With, Map;
  }

  lemma KindsApart(parent: Part, ports: Part, mounts: Part)
    requires All(parent, IsContainer, IsParent) && All(ports, IsPort, IsExposes) && All(mounts, IsMount, IsMounts)
    ensures Apart(parent, ports) && Apart(parent, mounts) && Apart(ports, mounts)
  {
  }

  lemma ContainerOwned(projects: map<string, ComposeProject>, c: Container)
    ensures Unique(ContainerPart(projects)(c)) && Owned(ContainerPart(projects)(c), ContainerOwner(c))
  {
    var parent, ports, mounts := ParentPart(projects, c), Gather(PortPart(c), Indexed(c.ports)), Gather(MountPart(c), Indexed(c.mounts));
    hide Gather, ParentPart, PortPart, MountPart, Apart, Unique, All;
    ParentOwned(projects, c);
    PortsUnique(c);
    MountsUnique(c);
    KindsApart(parent, ports, mounts);
    PlusUnique(parent, ports);
    PlusApart(parent, ports, mounts);
    PlusUnique(Plus(parent, ports), mounts);
    PlusAll(parent, ports, NodeOf(ContainerOwner(c)), EdgeOf(ContainerOwner(c)));
    PlusAll(Plus(parent, ports), mounts, NodeOf(ContainerOwner(c)), EdgeOf(ContainerOwner(c)));
  }

  lemma ContainersUnique(docker: Docker, projects: map<string, ComposeProject>)
    requires Sound(docker)
    ensures Unique(Gather(ContainerPart(projects), SortedContainers(docker)))
    ensures InSections(Gather(ContainerPart(projects), SortedContainers(docker)), {4})
  {
    var f, s := ContainerPart(projects), SortedContainers(docker);
    UniqueByPermutation(ContainerIdOf, docker.containers, s);
    hide Gather, InSections, ContainerPart, Unique, Owned, SortBy;
    forall i, j | 0 <= i < j < |s| ensures ContainerOwner(s[i]) != ContainerOwner(s[j]) {
      assert ContainerIdOf(s[i]) != ContainerIdOf(s[j]);
    }
    forall x | x in s ensures Unique(f(x)) && Owned(f(x), ContainerOwner(x)) { ContainerOwned(projects, x); }
    SectionUnique(f, s, ContainerOwner, 4);
  }

  // ----- routes -----

  const NoNode := (n: RefNode) => false

  /** Every edge of a hop belongs to its upstream, apart from the edge of the first hop to the proxy. */
  function HopEdge(hop: Hop): RefEdge -> bool {
    (e: RefEdge) =>
      match e.id
      case RouteLink(_, route, target) =>
        route == RouteText(hop.instance, hop.route)
        && (target == HopId(hop) || (hop.index == 0 && target == ProxyRef(hop.instance.containerId)))
      case Link(source, verb, target) =>
        (verb == Proxies && source == ProxyRef(hop.instance.containerId) && target == HopId(hop))
        || ((verb == Resolves || verb == Targets) && source == HopId(hop))
  }

  function HopNodes(hop: Hop): RefNode -> bool { (n: RefNode) => n.id == HopId(hop) }

  function LinkWith(verb: Verb): RefEdge -> bool { (e: RefEdge) => e.id.Link? && e.id.verb == verb }

  const IsRouteLink := (e: RefEdge) => e.id.RouteLink?

  const IsProxiesOrResolves := (e: RefEdge) => e.id.Link? && (e.id.verb == Proxies || e.id.verb == Resolves)

  lemma HopNodeId(env: Env, hop: Hop)
    ensures HopNode(env, hop).id == HopId(hop)
  {
    hide HostMetadata, ContainerMetadata, HopId, RouteText, RouteUpstreams, RouteHosts, RoutePaths, DialText, Listed, With;
  }

  lemma HopHeadShape(env: Env, docker: Docker, hop: Hop)
    ensures var p := HopHead(env, docker, hop);
      Unique(p) && All(p, HopNodes(hop), HopEdge(hop)) && All(p, AnyNode, IsProxiesOrResolves)
  {
    HopNodeId(env, hop);
    hide HopNode, HopId, KnownContainer;
  }

  lemma TargetShape(hop: Hop, l: Listener)
    ensures var p := TargetPart(hop)(l); Unique(p) && All(p, NoNode, HopEdge(hop)) && All(p, NoNode, LinkWith(Targets))
  {
    hide HopId, ListenerKey;
  }

  lemma TargetsApart(hop: Hop, a: Listener, b: Listener)
    requires ListenerKey(a) != ListenerKey(b)
    ensures Apart(TargetPart(hop)(a), TargetPart(hop)(b))
  {
    hide HopId, ListenerKey;
  }

  lemma TargetsShape(hop: Hop)
    requires hop.host.Some? ==> UniqueBy(ListenerKeyOf, hop.host.value.listeners)
    ensures Unique(HopTargets(hop)) && All(HopTargets(hop), NoNode, HopEdge(hop)) && All(HopTargets(hop), NoNode, LinkWith(Targets))
  {
    if hop.host.Some? {
      var f, s := TargetPart(hop), hop.host.value.listeners;
      forall i, j | 0 <= i < j < |s| ensures Apart(f(s[i]), f(s[j])) {
        assert ListenerKeyOf(s[i]) != ListenerKeyOf(s[j]);
        TargetsApart(hop, s[i], s[j]);
      }
      hide TargetPart, Unique, Apart, All, HopEdge, Gather, UniqueBy;
      forall x | x in s ensures Unique(f(x)) && All(f(x), NoNode, HopEdge(hop)) && All(f(x), NoNode, LinkWith(Targets)) { TargetShape(hop, x); }
      GatherUnique(f, s);
      GatherAll(f, s, NoNode, HopEdge(hop));
      GatherAll(f, s, NoNode, LinkWith(Targets));
    } else {
      EmptyApart(EmptyPart);
    }
  }

  lemma DomainShape(env: Env, hop: Hop, host: string)
    ensures var p := DomainPart(env, hop)(host);
      Unique(p) && All(p, NoNode, HopEdge(hop)) && All(p, NoNode, IsRouteLink)
  {
    hide RouteText, VisitOf;
  }

  lemma DomainsShape(env: Env, hop: Hop, hosts: seq<string>)
    requires Distinct(hosts)
    ensures var p := Gather(DomainPart(env, hop), hosts);
      Unique(p) && All(p, NoNode, HopEdge(hop)) && All(p, NoNode, IsRouteLink)
  {
    var f := DomainPart(env, hop);
    forall i, j | 0 <= i < j < |hosts| ensures Apart(f(hosts[i]), f(hosts[j])) { DomainsApart(env, hop, hosts[i], hosts[j]); }
    hide DomainPart, Unique, Apart, All, HopEdge, Gather;
    forall x | x in hosts ensures Unique(f(x)) && All(f(x), NoNode, HopEdge(hop)) && All(f(x), NoNode, IsRouteLink) {
      DomainShape(env, hop, x);
    }
    GatherUnique(f, hosts);
    GatherAll(f, hosts, NoNode, HopEdge(hop));
    GatherAll(f, hosts, NoNode, IsRouteLink);
  }

  lemma DomainsApart(env: Env, hop: Hop, a: string, b: string)
    requires a != b
    ensures Apart(DomainPart(env, hop)(a), DomainPart(env, hop)(b))
  {
    hide RouteText, VisitOf, HopId;
  }

  lemma HopKindsApart(head: Part, targets: Part, domains: Part)
    requires All(head, AnyNode, IsProxiesOrResolves) && All(targets, NoNode, LinkWith(Targets)) && All(domains, NoNode, IsRouteLink)
    ensures Apart(head, targets) && Apart(head, domains) && Apart(targets, domains)
  {
  }

  lemma Weaken(p: Part, nodes: RefNode -> bool, more: RefNode -> bool, edges: RefEdge -> bool)
    requires All(p, nodes, edges) && forall n :: nodes(n) ==> more(n)
    ensures All(p, more, edges)
  {
  }

  /** One hop: unique identifiers, all of them its own. */
  lemma HopShape(env: Env, docker: Docker, hop: Hop, hosts: seq<string>)
    requires Distinct(hosts) && (hop.host.Some? ==> UniqueBy(ListenerKeyOf, hop.host.value.listeners))
    ensures var p := Plus(Plus(HopHead(env, docker, hop), HopTargets(hop)), Gather(DomainPart(env, hop), hosts));
      Unique(p) && All(p, HopNodes(hop), HopEdge(hop))
  {
    var head, targets, domains := HopHead(env, docker, hop), HopTargets(hop), Gather(DomainPart(env, hop), hosts);
    hide HopHead, HopTargets, DomainPart, Gather, Unique, Apart, All, HopEdge;
    HopHeadShape(env, docker, hop);
    TargetsShape(hop);
    DomainsShape(env, hop, hosts);
    HopKindsApart(head, targets, domains);
    PlusUnique(head, targets);
    PlusApart(head, targets, domains);
    PlusUnique(Plus(head, targets), domains);
    Weaken(targets, NoNode, HopNodes(hop), HopEdge(hop));
    Weaken(domains, NoNode, HopNodes(hop), HopEdge(hop));
    PlusAll(head, targets, HopNodes(hop), HopEdge(hop));
    PlusAll(Plus(head, targets), domains, HopNodes(hop), HopEdge(hop));
  }

  lemma HopsApart(p: Part, q: Part, hop: Hop, other: Hop)
    requires All(p, HopNodes(hop), HopEdge(hop)) && All(q, HopNodes(other), HopEdge(other))
    requires HopId(hop) != HopId(other) && (hop.index != 0 || other.index != 0)
    ensures Apart(p, q)
  {
    assert HopId(hop).UpstreamRef? && HopId(other).UpstreamRef?;
    hide HopId, RouteText;
  }

  lemma HopIdsDiffer(hop: Hop, other: Hop)
    requires hop.index != other.index
    ensures HopId(hop) != HopId(other)
  {
    if HopId(hop) == HopId(other) {
      NumberedTexts(':', hop.index, UpstreamKey(hop.upstream), other.index, UpstreamKey(other.upstream));
    }
  }

  /** What a route of an instance contributes: its upstreams, and edges that name it. */
  function RouteNodes(instance: string, text: string): RefNode -> bool {
    (n: RefNode) => n.id.UpstreamRef? && n.id.instance == instance && n.id.route == text
  }

  predicate IsUpstreamOf(n: NodeRef, instance: string, text: string) {
    n.UpstreamRef? && n.instance == instance && n.route == text
  }

  function RouteEdges(instance: string, text: string): RefEdge -> bool {
    (e: RefEdge) =>
      match e.id
      case RouteLink(_, route, target) => route == text && (target == ProxyRef(instance) || IsUpstreamOf(target, instance, text))
      case Link(source, verb, target) =>
        (verb == Proxies && source == ProxyRef(instance) && IsUpstreamOf(target, instance, text))
        || ((verb == Resolves || verb == Targets) && IsUpstreamOf(source, instance, text))
  }

  lemma HopInRoute(p: Part, hop: Hop)
    requires All(p, HopNodes(hop), HopEdge(hop))
    ensures All(p, RouteNodes(hop.instance.containerId, RouteText(hop.instance, hop.route)),
      RouteEdges(hop.instance.containerId, RouteText(hop.instance, hop.route)))
  {
    hide RouteText, UpstreamKey;
  }

  lemma HopFields(env: Env, docker: Docker, instance: CaddyInstance, route: CaddyRoute, u: (nat, CaddyUpstream))
    ensures var hop := HopOf(env, docker, instance, route, u.0, u.1);
      hop.instance == instance && hop.route == route && hop.index == u.0
  {
    hide Resolve, ResolveHost;
  }

  /** The listeners a host target resolves to keep distinct keys. */
  lemma HostListenersUnique(dial: Dial, systemd: Systemd, listeners: Listeners)
    requires UniqueBy(ListenerKeyOf, listeners.items)
    ensures UniqueBy(ListenerKeyOf, ResolveHost(dial, systemd, listeners).listeners)
  {
    var kept := Filter(Eligible(dial.port), listeners.items);
    FilterUniqueBy(ListenerKeyOf, Eligible(dial.port), listeners.items);
    UniqueByPermutation(ListenerKeyOf, kept, SortBy(ListenerLe, kept));
    hide SortBy, Filter, DistinctBy, FilterMap, AssociateBy;
  }

  lemma HopListenersUnique(env: Env, docker: Docker, instance: CaddyInstance, route: CaddyRoute, u: (nat, CaddyUpstream))
    requires UniqueBy(ListenerKeyOf, docker.listeners.items)
    ensures var host := HopOf(env, docker, instance, route, u.0, u.1).host;
      host.Some? ==> UniqueBy(ListenerKeyOf, host.value.listeners)
  {
    hide Resolve, ResolveHost, UniqueBy;
    var hop := HopOf(env, docker, instance, route, u.0, u.1);
    if hop.host.Some? { HostListenersUnique(hop.resolution.dial.value, docker.systemd, docker.listeners); }
  }

  lemma HopPartShape(env: Env, docker: Docker, instance: CaddyInstance, route: CaddyRoute, u: (nat, CaddyUpstream))
    requires UniqueBy(ListenerKeyOf, docker.listeners.items)
    ensures var hop := HopOf(env, docker, instance, route, u.0, u.1);
      var p := HopPart(env, docker, instance, route)(u);
      Unique(p) && All(p, HopNodes(hop), HopEdge(hop))
  {
    var hop := HopOf(env, docker, instance, route, u.0, u.1);
    HopListenersUnique(env, docker, instance, route, u);
    SortedSetDistinct(Elems(FilterMap(env.normalizeDomain, route.hosts)));
    hide HopOf, Unique, All, HopHead, HopTargets, Gather, SortedSet, FilterMap, UniqueBy;
    HopShape(env, docker, hop, RouteHosts(env, route));
  }

  lemma RouteShape(env: Env, docker: Docker, instance: CaddyInstance, route: CaddyRoute)
    requires UniqueBy(ListenerKeyOf, docker.listeners.items)
    ensures var p := RoutePart(env, docker, instance)(route);
      var text := RouteText(instance, route);
      Unique(p) && All(p, RouteNodes(instance.containerId, text), RouteEdges(instance.containerId, text))
  {
    var f, s := HopPart(env, docker, instance, route), Indexed(RouteUpstreams(route));
    var nodes, edges := RouteNodes(instance.containerId, RouteText(instance, route)), RouteEdges(instance.containerId, RouteText(instance, route));
    hide HopPart, Unique, Apart, All, HopOf, Gather, UniqueBy, RouteUpstreams, RouteText, HopId, HopEdge, HopNodes, RouteNodes, RouteEdges;
    forall u | u in s ensures Unique(f(u)) && All(f(u), nodes, edges) {
      HopPartShape(env, docker, instance, route, u);
      HopFields(env, docker, instance, route, u);
      HopInRoute(f(u), HopOf(env, docker, instance, route, u.0, u.1));
    }
    forall i, j | 0 <= i < j < |s| ensures Apart(f(s[i]), f(s[j])) {
      var hop, other := HopOf(env, docker, instance, route, s[i].0, s[i].1), HopOf(env, docker, instance, route, s[j].0, s[j].1);
      HopPartShape(env, docker, instance, route, s[i]);
      HopPartShape(env, docker, instance, route, s[j]);
      HopFields(env, docker, instance, route, s[i]);
      HopFields(env, docker, instance, route, s[j]);
      HopIdsDiffer(hop, other);
      HopsApart(f(s[i]), f(s[j]), hop, other);
    }
    GatherUnique(f, s);
    GatherAll(f, s, nodes, edges);
  }

  lemma RoutesApart(p: Part, q: Part, instance: string, a: string, b: string)
    requires All(p, RouteNodes(instance, a), RouteEdges(instance, a)) && All(q, RouteNodes(instance, b), RouteEdges(instance, b))
    requires a != b
    ensures Apart(p, q)
  {
  }

  lemma RouteTextsDiffer(instance: CaddyInstance, a: CaddyRoute, b: CaddyRoute)
    requires RouteKey(a) != RouteKey(b)
    ensures RouteText(instance, a) != RouteText(instance, b)
  {
    hide RouteKey;
    var prefix := instance.containerId + "|";
    assert RouteText(instance, a)[|prefix|..] == RouteKey(a) && RouteText(instance, b)[|prefix|..] == RouteKey(b);
  }

  const IsUpstream := (n: RefNode) => n.id.UpstreamRef?

  lemma RoutesShape(env: Env, docker: Docker, instance: CaddyInstance)
    requires UniqueBy(ListenerKeyOf, docker.listeners.items) && UniqueBy(RouteKeyOf, instance.routes)
    ensures var p := Gather(RoutePart(env, docker, instance), SortBy(RouteLe, instance.routes));
      Unique(p) && Owned(p, InstanceOwner(instance)) && All(p, IsUpstream, NotRuns)
  {
    var f, s := RoutePart(env, docker, instance), SortBy(RouteLe, instance.routes);
    UniqueByPermutation(RouteKeyOf, instance.routes, s);
    var o := InstanceOwner(instance);
    forall i, j | 0 <= i < j < |s| ensures RouteText(instance, s[i]) != RouteText(instance, s[j]) {
      assert RouteKeyOf(s[i]) != RouteKeyOf(s[j]);
      RouteTextsDiffer(instance, s[i], s[j]);
    }
    hide RoutePart, Unique, Apart, All, Gather, UniqueBy, RouteText, RouteNodes, RouteEdges, SortBy, RouteKey;
    forall i, j | 0 <= i < j < |s| ensures Apart(f(s[i]), f(s[j])) {
      RouteShape(env, docker, instance, s[i]);
      RouteShape(env, docker, instance, s[j]);
      RoutesApart(f(s[i]), f(s[j]), instance.containerId, RouteText(instance, s[i]), RouteText(instance, s[j]));
    }
    forall x | x in s ensures Unique(f(x)) && All(f(x), NodeOf(o), EdgeOf(o)) && All(f(x), IsUpstream, NotRuns) {
      RouteShape(env, docker, instance, x);
      RouteOwned(f(x), instance, RouteText(instance, x));
    }
    GatherUnique(f, s);
    GatherAll(f, s, NodeOf(o), EdgeOf(o));
    GatherAll(f, s, IsUpstream, NotRuns);
  }

  const NotRuns := (e: RefEdge) => e.id.RouteLink? || e.id.verb != Runs

  lemma RouteOwned(p: Part, instance: CaddyInstance, text: string)
    requires All(p, RouteNodes(instance.containerId, text), RouteEdges(instance.containerId, text))
    ensures All(p, NodeOf(InstanceOwner(instance)), EdgeOf(InstanceOwner(instance))) && All(p, IsUpstream, NotRuns)
  {
  }

  const IsProxy := (n: RefNode) => n.id.ProxyRef?

  lemma ProxyShape(env: Env, docker: Docker, instance: CaddyInstance)
    ensures var p := ProxyPart(env, docker, instance);
      Unique(p) && Owned(p, InstanceOwner(instance)) && All(p, IsProxy, LinkWith(Runs))
  {
    hide KnownContainer, FlatMap, FilterMap, With;
  }

  lemma ProxyApart(proxy: Part, routes: Part)
    requires All(proxy, IsProxy, LinkWith(Runs)) && All(routes, IsUpstream, NotRuns)
    ensures Apart(proxy, routes)
  {
  }

  lemma InstanceOwned(env: Env, docker: Docker, instance: CaddyInstance)
    requires UniqueBy(ListenerKeyOf, docker.listeners.items) && UniqueBy(RouteKeyOf, instance.routes)
    ensures var p := InstancePart(env, docker)(instance); Unique(p) && Owned(p, InstanceOwner(instance))
  {
    var proxy, routes := ProxyPart(env, docker, instance), Gather(RoutePart(env, docker, instance), SortBy(RouteLe, instance.routes));
    hide ProxyPart, RoutePart, Gather, Unique, All, Apart, UniqueBy, SortBy;
    ProxyShape(env, docker, instance);
    RoutesShape(env, docker, instance);
    ProxyApart(proxy, routes);
    PlusUnique(proxy, routes);
    PlusAll(proxy, routes, NodeOf(InstanceOwner(instance)), EdgeOf(InstanceOwner(instance)));
  }

  lemma RoutingUnique(env: Env, docker: Docker)
    requires Sound(docker)
    ensures Unique(Routing(env, docker)) && InSections(Routing(env, docker), {7})
  {
    var f, s := InstancePart(env, docker), SortBy(InstanceLe, docker.caddy.instances);
    UniqueByPermutation(InstanceIdOf, docker.caddy.instances, s);
    SortByElements(InstanceLe, docker.caddy.instances);
    forall i, j | 0 <= i < j < |s| ensures InstanceOwner(s[i]) != InstanceOwner(s[j]) {
      assert InstanceIdOf(s[i]) != InstanceIdOf(s[j]);
    }
    assert UniqueBy(InstanceOwner, s);
    hide InstancePart, Gather, Unique, Owned, InSections, SortBy, UniqueBy;
    forall x | x in s ensures Unique(f(x)) && Owned(f(x), InstanceOwner(x)) { InstanceOwned(env, docker, x); }
    SectionUnique(f, s, InstanceOwner, 7);
  }

  // ----- the whole graph -----

  lemma HostResourcesUnique(env: Env, d: HostDiscovery)
    requires Sound(d.docker)
    ensures Unique(HostResources(env, d)) && InSections(HostResources(env, d), {0, 1, 2})
  {
    hide Unique, InSections, HostPart, Gather, ServicePart, ListenerPart, Sound;
    HostUnique(env, d.host, d.docker);
    ServicesUnique(d.docker);
    ListenersUnique(d.docker);
    AppendSection(HostPart(env, d.host, d.docker), Gather(ServicePart(d.docker), d.docker.systemd.services), {0}, {1});
    AppendSection(Plus(HostPart(env, d.host, d.docker), Gather(ServicePart(d.docker), d.docker.systemd.services)),
      Gather(ListenerPart(d.docker), d.docker.listeners.items), {0} + {1}, {2});
    assert {0} + {1} + {2} == {0, 1, 2};
  }

  lemma DockerResourcesUnique(docker: Docker)
    requires Sound(docker)
    ensures Unique(DockerResources(docker)) && InSections(DockerResources(docker), {3, 4, 5})
  {
    hide Unique, InSections, Gather, ProjectPart, ContainerPart, NetworkPart, Projects, Members, SortBy, SortedSet;
    var projects, members := Projects(docker), Members(docker);
    ProjectsUnique(docker, projects);
    ContainersUnique(docker, projects);
    NetworksUnique(docker, members);
    var a, b := Gather(ProjectPart(docker, projects), SortedSet(projects.Keys)), Gather(ContainerPart(projects), SortedContainers(docker));
    AppendSection(a, b, {3}, {4});
    AppendSection(Plus(a, b), Gather(NetworkPart(docker, members), SortedSet(members.Keys)), {3} + {4}, {5});
    assert {3} + {4} + {5} == {3, 4, 5};
  }

  lemma CorrelationsShape(docker: Docker)
    requires Sound(docker)
    ensures Unique(Correlations(docker)) && InSections(Correlations(docker), {6})
  {
    hide Unique, InSections, CorrelationPart, Gather, Sound, PortsByBinding, FlatMap, SortBy;
    CorrelationsUnique(docker, PortsByBinding(FlatMap(PublishedOf, SortedContainers(docker))));
  }

  lemma RoutedUnique(env: Env, d: HostDiscovery)
    requires Sound(d.docker)
    ensures Unique(Routed(env, d)) && InSections(Routed(env, d), {0, 1, 2, 3, 4, 5, 6, 7})
  {
    hide Unique, InSections, HostResources, DockerResources, Correlations, Routing, Sound;
    var host, docker, correlations := HostResources(env, d), DockerResources(d.docker), Correlations(d.docker);
    HostResourcesUnique(env, d);
    DockerResourcesUnique(d.docker);
    CorrelationsShape(d.docker);
    RoutingUnique(env, d.docker);
    AppendSection(host, docker, {0, 1, 2}, {3, 4, 5});
    AppendSection(Plus(host, docker), correlations, {0, 1, 2} + {3, 4, 5}, {6});
    AppendSection(Plus(Plus(host, docker), correlations), Routing(env, d.docker), {0, 1, 2} + {3, 4, 5} + {6}, {7});
    hide Plus;
    assert {0, 1, 2} + {3, 4, 5} + {6} + {7} == {0, 1, 2, 3, 4, 5, 6, 7};
  }

  /** No identifier occurs twice. */
  lemma GraphUnique(env: Env, d: HostDiscovery)
    requires Sound(d.docker)
    ensures Unique(GraphOf(env, d)) && InSections(GraphOf(env, d), {0, 1, 2, 3, 4, 5, 6, 7, 8})
  {
    hide Unique, InSections, HostResources, Routed, Domains, Sound, Plus;
    if d.docker.state == AVAILABLE {
      var visits := Routed(env, d).visits;
      RoutedUnique(env, d);
      DomainsUnique(visits);
      AppendSection(Routed(env, d), Domains(visits), {0, 1, 2, 3, 4, 5, 6, 7}, {8});
      assert {0, 1, 2, 3, 4, 5, 6, 7} + {8} == {0, 1, 2, 3, 4, 5, 6, 7, 8};
    } else {
      HostResourcesUnique(env, d);
      MoreSections(HostResources(env, d), {0, 1, 2}, {0, 1, 2, 3, 4, 5, 6, 7, 8});
    }
  }

  lemma MoreSections(p: Part, sections: set<nat>, more: set<nat>)
    requires InSections(p, sections) && sections <= more
    ensures InSections(p, more)
  {
    hide NodeOwner, EdgeOwner, ProperEdge;
  }
}

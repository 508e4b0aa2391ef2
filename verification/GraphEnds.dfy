/** Every edge of the built graph joins two of its nodes, so its snapshot content is well formed. */
module GraphEnds {
  import opened Ordering
  import opened Collections
  import opened Discovery
  import opened GraphIds
  import opened GraphSpec
  import opened GraphRouting
  import opened GraphParts
  import opened GraphShape
  import opened GraphFactory
  import opened Projection

  // ----- what a part relies on -----

  /** The nodes of a part and the domains it visits. */
  ghost function Needs(p: Part): set<NodeRef> { Refs(p) + set v | v in p.visits :: DomainRef(v.host) }

  lemma PlusNeeds(p: Part, q: Part)
    ensures Needs(Plus(p, q)) == Needs(p) + Needs(q)
  {
  }

  lemma {:induction false} GatherNeeds<T>(f: T -> Part, s: seq<T>, x: T)
    requires x in s
    ensures Needs(f(x)) <= Needs(Gather(f, s))
  {
    var n := |s| - 1;
    assert s == s[..n] + [s[n]];
    PlusNeeds(Gather(f, s[..n]), f(s[n]));
    hide Needs;
    if x in s[..n] { GatherNeeds(f, s[..n], x); }
  }

  lemma GatherGrounded<T>(f: T -> Part, s: seq<T>, refs: set<NodeRef>)
    requires forall x :: x in s ==> Grounded(f(x), refs)
    ensures Grounded(Gather(f, s), refs)
  {
    hide All;
    GatherAll(f, s, AnyNode, EndsIn(refs));
  }

  lemma PlusGrounded(p: Part, q: Part, refs: set<NodeRef>)
    requires Grounded(p, refs) && Grounded(q, refs)
    ensures Grounded(Plus(p, q), refs)
  {
    hide All;
    PlusAll(p, q, AnyNode, EndsIn(refs));
  }

  // ----- sections -----

  lemma ServicesGrounded(docker: Docker, refs: set<NodeRef>)
    requires ServerRef in refs && Needs(Gather(ServicePart(docker), docker.systemd.services)) <= refs
    ensures Grounded(Gather(ServicePart(docker), docker.systemd.services), refs)
    ensures forall u :: u in Units(docker.systemd) ==> ServiceRef(u) in refs
  {
    var f, s := ServicePart(docker), docker.systemd.services;
    hide Gather, Count, With;
    forall x | x in s ensures Grounded(f(x), refs) && ServiceRef(x.unit) in refs {
      GatherNeeds(f, s, x);
      assert ServiceRef(x.unit) in Needs(f(x)) by { assert f(x).nodes[0] in f(x).nodes; }
    }
    GatherGrounded(f, s, refs);
  }

  lemma ListenersGrounded(docker: Docker, refs: set<NodeRef>)
    requires ServerRef in refs && Needs(Gather(ListenerPart(docker), docker.listeners.items)) <= refs
    requires forall u :: u in Units(docker.systemd) ==> ServiceRef(u) in refs
    ensures Grounded(Gather(ListenerPart(docker), docker.listeners.items), refs)
    ensures forall l :: l in docker.listeners.items ==> ListenerRef(ListenerKey(l)) in refs
  {
    var f, s := ListenerPart(docker), docker.listeners.items;
    hide Gather, With, Units, ListenerKey;
    forall x | x in s ensures Grounded(f(x), refs) && ListenerRef(ListenerKey(x)) in refs {
      GatherNeeds(f, s, x);
      assert ListenerRef(ListenerKey(x)) in Needs(f(x)) by { assert f(x).nodes[0] in f(x).nodes; }
    }
    GatherGrounded(f, s, refs);
  }

  lemma ProjectsGrounded(docker: Docker, projects: map<string, ComposeProject>, refs: set<NodeRef>)
    requires EngineRef in refs && Needs(Gather(ProjectPart(docker, projects), SortedSet(projects.Keys))) <= refs
    ensures Grounded(Gather(ProjectPart(docker, projects), SortedSet(projects.Keys)), refs)
    ensures forall p :: p in projects ==> ProjectRef(p) in refs
  {
    var f, s := ProjectPart(docker, projects), SortedSet(projects.Keys);
    hide Gather, With, SortedSet, Count;
    forall x | x in s ensures Grounded(f(x), refs) && ProjectRef(x) in refs {
      GatherNeeds(f, s, x);
      assert ProjectRef(x) in Needs(f(x)) by { assert f(x).nodes[0] in f(x).nodes; }
    }
    GatherGrounded(f, s, refs);
  }

  lemma PortGrounded(c: Container, p: (nat, Port), refs: set<NodeRef>)
    requires ContainerRef(c.id) in refs && Needs(PortPart(c)(p)) <= refs
    ensures Grounded(PortPart(c)(p), refs) && PortId(c, p.0, p.1) in refs
  {
    PortNodeId(PortId(c, p.0, p.1), p.1);
    hide PortNode, PortId;
    assert PortPart(c)(p).nodes[0] in PortPart(c)(p).nodes;
    assert PortId(c, p.0, p.1) in Needs(PortPart(c)(p));
  }

  lemma MountGrounded(c: Container, m: (nat, Mount), refs: set<NodeRef>)
    requires ContainerRef(c.id) in refs && Needs(MountPart(c)(m)) <= refs
    ensures Grounded(MountPart(c)(m), refs)
  {
    MountNodeId(MountId(c, m.0, m.1), m.1);
    hide MountNode, MountId;
    assert MountPart(c)(m).nodes[0] in MountPart(c)(m).nodes;
    assert MountId(c, m.0, m.1) in Needs(MountPart(c)(m));
  }

  lemma ParentGrounded(projects: map<string, ComposeProject>, c: Container, refs: set<NodeRef>)
    requires EngineRef in refs && (forall p :: p in projects ==> ProjectRef(p) in refs)
    requires Needs(ParentPart(projects, c)) <= refs
    ensures Grounded(ParentPart(projects, c), refs) && ContainerRef(c.id) in refs
  {
    assert ContainerNode(c).id == ContainerRef(c.id) by { hide Listed, With; }
    hide ContainerNode;
    assert ParentPart(projects, c).nodes[0] in ParentPart(projects, c).nodes;
    assert ContainerRef(c.id) in Needs(ParentPart(projects, c));
  }

  lemma ContainerGrounded(projects: map<string, ComposeProject>, c: Container, refs: set<NodeRef>)
    requires EngineRef in refs && (forall p :: p in projects ==> ProjectRef(p) in refs)
    requires Needs(ContainerPart(projects)(c)) <= refs
    ensures Grounded(ContainerPart(projects)(c), refs) && ContainerRef(c.id) in refs
    ensures forall i :: 0 <= i < |c.ports| ==> PortId(c, i, c.ports[i]) in refs
  {
    var parent, ports, mounts := ParentPart(projects, c), Gather(PortPart(c), Indexed(c.ports)), Gather(MountPart(c), Indexed(c.mounts));
    PlusNeeds(parent, ports);
    PlusNeeds(Plus(parent, ports), mounts);
    hide ParentPart, PortPart, MountPart, Gather, Needs, Grounded, PortId;
    ParentGrounded(projects, c, refs);
    forall x | x in Indexed(c.ports) ensures Grounded(PortPart(c)(x), refs) && PortId(c, x.0, x.1) in refs {
      GatherNeeds(PortPart(c), Indexed(c.ports), x);
      PortGrounded(c, x, refs);
    }
    forall i | 0 <= i < |c.ports| ensures PortId(c, i, c.ports[i]) in refs { assert Indexed(c.ports)[i] in Indexed(c.ports); }
    forall x | x in Indexed(c.mounts) ensures Grounded(MountPart(c)(x), refs) {
      GatherNeeds(MountPart(c), Indexed(c.mounts), x);
      MountGrounded(c, x, refs);
    }
    GatherGrounded(PortPart(c), Indexed(c.ports), refs);
    GatherGrounded(MountPart(c), Indexed(c.mounts), refs);
    PlusGrounded(parent, ports, refs);
    PlusGrounded(Plus(parent, ports), mounts, refs);
  }

  lemma ContainersGrounded(docker: Docker, projects: map<string, ComposeProject>, refs: set<NodeRef>)
    requires EngineRef in refs && (forall p :: p in projects ==> ProjectRef(p) in refs)
    requires Needs(Gather(ContainerPart(projects), SortedContainers(docker))) <= refs
    ensures Grounded(Gather(ContainerPart(projects), SortedContainers(docker)), refs)
    ensures forall c :: c in docker.containers ==> ContainerRef(c.id) in refs
    ensures forall c, i :: c in docker.containers && 0 <= i < |c.ports| ==> PortId(c, i, c.ports[i]) in refs
  {
    var f, s := ContainerPart(projects), SortedContainers(docker);
    SortByElements(ContainerLe, docker.containers);
    hide ContainerPart, Gather, Needs, Grounded, PortId, SortBy;
    forall c | c in s
      ensures Grounded(f(c), refs) && ContainerRef(c.id) in refs
      ensures forall i :: 0 <= i < |c.ports| ==> PortId(c, i, c.ports[i]) in refs
    {
      GatherNeeds(f, s, c);
      ContainerGrounded(projects, c, refs);
    }
    GatherGrounded(f, s, refs);
  }

  lemma NetworkGrounded(docker: Docker, members: map<string, seq<string>>, network: string, refs: set<NodeRef>)
    requires forall c :: c in docker.containers ==> ContainerRef(c.id) in refs
    requires Needs(NetworkPart(docker, members)(network)) <= refs
    ensures Grounded(NetworkPart(docker, members)(network), refs)
  {
    var p, kept := NetworkPart(docker, members)(network), Filter(OnNetwork(network), docker.containers);
    assert NetworkNode(members, network).id == NetworkRef(network);
    hide NetworkNode, Map, Filter;
    assert p.nodes[0] in p.nodes;
    assert NetworkRef(network) in Needs(p);
    forall e | e in p.edges ensures EndsIn(refs)(e) {
      var c := MapOrigin(ConnectionOf(network), kept, e);
      FilterMember(OnNetwork(network), docker.containers, c);
    }
  }

  lemma NetworksGrounded(docker: Docker, members: map<string, seq<string>>, refs: set<NodeRef>)
    requires forall c :: c in docker.containers ==> ContainerRef(c.id) in refs
    requires Needs(Gather(NetworkPart(docker, members), SortedSet(members.Keys))) <= refs
    ensures Grounded(Gather(NetworkPart(docker, members), SortedSet(members.Keys)), refs)
  {
    var f, s := NetworkPart(docker, members), SortedSet(members.Keys);
    hide NetworkPart, Gather, Needs, Grounded, SortedSet;
    forall x | x in s ensures Grounded(f(x), refs) {
      GatherNeeds(f, s, x);
      NetworkGrounded(docker, members, x, refs);
    }
    GatherGrounded(f, s, refs);
  }

  // ----- published ports -----

  lemma {:induction false} GroupOrigin<K, V>(pairs: seq<(K, V)>, k: K, v: V)
    requires v in Group(GroupBy(pairs), k)
    ensures (k, v) in pairs
  {
    if pairs != [] {
      var n := |pairs| - 1;
      assert pairs == pairs[..n] + [pairs[n]];
      if pairs[n] != (k, v) { GroupOrigin(pairs[..n], k, v); }
    }
  }

  /** A matching port is a port of some container. */
  lemma MatchIsPort(docker: Docker, binding: Binding, id: NodeRef) returns (c: Container, i: nat)
    requires id in Group(PortsByBinding(FlatMap(PublishedOf, SortedContainers(docker))), binding)
    ensures c in docker.containers && i < |c.ports| && id == PortId(c, i, c.ports[i])
  {
    var containers := SortedContainers(docker);
    var published := FlatMap(PublishedOf, containers);
    SortByElements(ContainerLe, docker.containers);
    hide FlatMap, FilterMap, GroupBy, SortBy, PortBinding, PortId;
    GroupOrigin(FilterMap(BindingPair, published), binding, id);
    var p := FilterMapOrigin(BindingPair, published, (binding, id));
    c := FlatMapOrigin(PublishedOf, containers, p);
    var pair := FilterMapOrigin(PublishedPort(c), Indexed(c.ports), p);
    i := pair.0;
  }

  lemma CorrelationsGrounded(docker: Docker, refs: set<NodeRef>)
    requires forall c, i :: c in docker.containers && 0 <= i < |c.ports| ==> PortId(c, i, c.ports[i]) in refs
    requires forall l :: l in docker.listeners.items ==> ListenerRef(ListenerKey(l)) in refs
    ensures Grounded(Correlations(docker), refs)
  {
    var byBinding := PortsByBinding(FlatMap(PublishedOf, SortedContainers(docker)));
    var f, s := CorrelationPart(byBinding), docker.listeners.items;
    hide PortsByBinding, FlatMap, SortBy, Gather, ListenerKey, ListenerBinding, PortId;
    forall l | l in s ensures Grounded(f(l), refs) {
      var matches := Group(byBinding, ListenerBinding(l));
      if |matches| == 1 { var c, i := MatchIsPort(docker, ListenerBinding(l), matches[0]); }
    }
    GatherGrounded(f, s, refs);
  }

  // ----- routes -----

  /** What routing relies on outside itself. */
  ghost predicate RoutingBase(docker: Docker, refs: set<NodeRef>) {
    && (forall c :: c in docker.containers ==> ContainerRef(c.id) in refs)
    && (forall l :: l in docker.listeners.items ==> ListenerRef(ListenerKey(l)) in refs)
  }

  lemma HopHeadGrounded(env: Env, docker: Docker, hop: Hop, refs: set<NodeRef>)
    requires RoutingBase(docker, refs) && ProxyRef(hop.instance.containerId) in refs && HopId(hop) in refs
    ensures Grounded(HopHead(env, docker, hop), refs)
  {
    hide HopNode, HopId, ListenerKey;
  }

  lemma TargetsGrounded(docker: Docker, hop: Hop, refs: set<NodeRef>)
    requires RoutingBase(docker, refs) && HopId(hop) in refs
    requires hop.host.Some? ==> forall l :: l in hop.host.value.listeners ==> l in docker.listeners.items
    ensures Grounded(HopTargets(hop), refs)
  {
    hide HopId, ListenerKey, Gather;
    if hop.host.Some? {
      forall l | l in hop.host.value.listeners ensures Grounded(TargetPart(hop)(l), refs) {}
      GatherGrounded(TargetPart(hop), hop.host.value.listeners, refs);
    }
  }

  lemma DomainGrounded(env: Env, hop: Hop, host: string, refs: set<NodeRef>)
    requires ProxyRef(hop.instance.containerId) in refs && HopId(hop) in refs
    requires Needs(DomainPart(env, hop)(host)) <= refs
    ensures Grounded(DomainPart(env, hop)(host), refs)
  {
    var p := DomainPart(env, hop)(host);
    assert VisitOf(env, hop, host).host == host by { hide RouteText, RoutePaths, DialText, OutcomeName, SoleService; }
    hide HopId, RouteText, VisitOf;
    assert p.visits[0] in p.visits;
    assert DomainRef(host) in Needs(p);
  }

  lemma HopGrounded(env: Env, docker: Docker, instance: CaddyInstance, route: CaddyRoute, u: (nat, CaddyUpstream), refs: set<NodeRef>)
    requires RoutingBase(docker, refs) && ProxyRef(instance.containerId) in refs
    requires Needs(HopPart(env, docker, instance, route)(u)) <= refs
    ensures Grounded(HopPart(env, docker, instance, route)(u), refs)
  {
    var hop := HopOf(env, docker, instance, route, u.0, u.1);
    var head, targets := HopHead(env, docker, hop), HopTargets(hop);
    var f, hosts := DomainPart(env, hop), RouteHosts(env, route);
    HopFields(env, docker, instance, route, u);
    ResolvedListenersKnown(env, docker, instance, route, u.0, u.1);
    PlusNeeds(head, targets);
    PlusNeeds(Plus(head, targets), Gather(f, hosts));
    HopHeadNeeds(env, docker, hop);
    hide HopOf, HopHead, HopTargets, DomainPart, RouteHosts, Gather, Grounded, Needs, RoutingBase, HopId;
    HopHeadGrounded(env, docker, hop, refs);
    TargetsGrounded(docker, hop, refs);
    forall host | host in hosts ensures Grounded(f(host), refs) {
      GatherNeeds(f, hosts, host);
      DomainGrounded(env, hop, host, refs);
    }
    GatherGrounded(f, hosts, refs);
    PlusGrounded(head, targets, refs);
    PlusGrounded(Plus(head, targets), Gather(f, hosts), refs);
  }

  lemma HopHeadNeeds(env: Env, docker: Docker, hop: Hop)
    ensures HopId(hop) in Needs(HopHead(env, docker, hop))
  {
    HopNodeId(env, hop);
    hide HopNode, HopId, Resolving;
    assert HopNode(env, hop) in HopHead(env, docker, hop).nodes;
  }

  lemma RouteGrounded(env: Env, docker: Docker, instance: CaddyInstance, route: CaddyRoute, refs: set<NodeRef>)
    requires RoutingBase(docker, refs) && ProxyRef(instance.containerId) in refs
    requires Needs(RoutePart(env, docker, instance)(route)) <= refs
    ensures Grounded(RoutePart(env, docker, instance)(route), refs)
  {
    var f, s := HopPart(env, docker, instance, route), Indexed(RouteUpstreams(route));
    hide HopPart, Gather, Grounded, Needs, RoutingBase, RouteUpstreams;
    forall u | u in s ensures Grounded(f(u), refs) {
      GatherNeeds(f, s, u);
      HopGrounded(env, docker, instance, route, u, refs);
    }
    GatherGrounded(f, s, refs);
  }

  lemma ProxyGrounded(env: Env, docker: Docker, instance: CaddyInstance, refs: set<NodeRef>)
    requires RoutingBase(docker, refs) && Needs(ProxyPart(env, docker, instance)) <= refs
    ensures Grounded(ProxyPart(env, docker, instance), refs) && ProxyRef(instance.containerId) in refs
  {
    var p := ProxyPart(env, docker, instance);
    assert ProxyNode(env, instance).id == ProxyRef(instance.containerId) by { hide FlatMap, FilterMap, With; }
    hide ProxyNode, ListenerKey;
    assert p.nodes[0] in p.nodes;
    assert ProxyRef(instance.containerId) in Needs(p);
  }

  lemma InstanceGrounded(env: Env, docker: Docker, instance: CaddyInstance, refs: set<NodeRef>)
    requires RoutingBase(docker, refs) && Needs(InstancePart(env, docker)(instance)) <= refs
    ensures Grounded(InstancePart(env, docker)(instance), refs)
  {
    var f, s := RoutePart(env, docker, instance), SortBy(RouteLe, instance.routes);
    PlusNeeds(ProxyPart(env, docker, instance), Gather(f, s));
    hide RoutePart, ProxyPart, Gather, Grounded, Needs, RoutingBase, SortBy;
    ProxyGrounded(env, docker, instance, refs);
    forall r | r in s ensures Grounded(f(r), refs) {
      GatherNeeds(f, s, r);
      RouteGrounded(env, docker, instance, r, refs);
    }
    GatherGrounded(f, s, refs);
    PlusGrounded(ProxyPart(env, docker, instance), Gather(f, s), refs);
  }

  lemma RoutingGrounded(env: Env, docker: Docker, refs: set<NodeRef>)
    requires RoutingBase(docker, refs) && Needs(Routing(env, docker)) <= refs
    ensures Grounded(Routing(env, docker), refs)
  {
    var f, s := InstancePart(env, docker), SortBy(InstanceLe, docker.caddy.instances);
    hide InstancePart, Gather, Grounded, Needs, RoutingBase, SortBy;
    forall i | i in s ensures Grounded(f(i), refs) {
      GatherNeeds(f, s, i);
      InstanceGrounded(env, docker, i, refs);
    }
    GatherGrounded(f, s, refs);
  }

  // ----- domains -----

  lemma {:induction false} VisitedSummarised(visits: seq<Visit>, v: Visit)
    requires v in visits
    ensures v.host in Summaries(visits)
  {
    var n := |visits| - 1;
    assert visits == visits[..n] + [visits[n]];
    if v in visits[..n] { VisitedSummarised(visits[..n], v); }
  }

  lemma DomainListed(visits: seq<Visit>, v: Visit)
    requires v in visits
    ensures DomainRef(v.host) in Refs(Domains(visits))
  {
    var domains := Summaries(visits);
    var f, s := DomainNodePart(domains), SortedSet(domains.Keys);
    VisitedSummarised(visits, v);
    DomainNodeId(v.host, domains[v.host]);
    hide Summaries, SortedSet, DomainNode, Gather;
    assert v.host in s;
    GatherRefs(f, s, v.host);
    assert f(v.host).nodes[0] in f(v.host).nodes;
    assert DomainRef(v.host) in Refs(f(v.host));
  }

  lemma DomainsGrounded(visits: seq<Visit>, refs: set<NodeRef>)
    ensures Grounded(Domains(visits), refs)
  {
    var domains := Summaries(visits);
    hide Summaries, SortedSet, DomainNode, Gather;
    GatherGrounded(DomainNodePart(domains), SortedSet(domains.Keys), refs);
  }

  // ----- the whole graph -----

  lemma HostResourcesGrounded(env: Env, d: HostDiscovery, refs: set<NodeRef>)
    requires Needs(HostResources(env, d)) <= refs
    ensures Grounded(HostResources(env, d), refs)
    ensures EngineRef in refs && forall l :: l in d.docker.listeners.items ==> ListenerRef(ListenerKey(l)) in refs
  {
    var host := HostPart(env, d.host, d.docker);
    var services, listeners := Gather(ServicePart(d.docker), d.docker.systemd.services), Gather(ListenerPart(d.docker), d.docker.listeners.items);
    PlusNeeds(host, services);
    PlusNeeds(Plus(host, services), listeners);
    HostPartGrounded(env, d.host, d.docker, refs);
    hide HostPart, ServicePart, ListenerPart, Gather, Grounded, Needs, Units, ListenerKey;
    ServicesGrounded(d.docker, refs);
    ListenersGrounded(d.docker, refs);
    PlusGrounded(host, services, refs);
    PlusGrounded(Plus(host, services), listeners, refs);
  }

  lemma HostPartGrounded(env: Env, host: HostInfo, docker: Docker, refs: set<NodeRef>)
    ensures Needs(HostPart(env, host, docker)) <= refs ==>
      Grounded(HostPart(env, host, docker), refs) && ServerRef in refs && EngineRef in refs
  {
    var p := HostPart(env, host, docker);
    assert ServerNode(env, host, docker).id == ServerRef && EngineNode(docker).id == EngineRef by { hide Reasons, With; }
    hide ServerNode, EngineNode;
    assert p.nodes[0] in p.nodes && p.nodes[1] in p.nodes;
    assert ServerRef in Needs(p) && EngineRef in Needs(p);
  }

  lemma DockerResourcesGrounded(docker: Docker, refs: set<NodeRef>)
    requires EngineRef in refs && Needs(DockerResources(docker)) <= refs
    ensures Grounded(DockerResources(docker), refs)
    ensures forall c :: c in docker.containers ==> ContainerRef(c.id) in refs
    ensures forall c, i :: c in docker.containers && 0 <= i < |c.ports| ==> PortId(c, i, c.ports[i]) in refs
  {
    var projects, members := Projects(docker), Members(docker);
    var a, b := Gather(ProjectPart(docker, projects), SortedSet(projects.Keys)), Gather(ContainerPart(projects), SortedContainers(docker));
    var c := Gather(NetworkPart(docker, members), SortedSet(members.Keys));
    PlusNeeds(a, b);
    PlusNeeds(Plus(a, b), c);
    hide ProjectPart, ContainerPart, NetworkPart, Gather, Grounded, Needs, SortedSet, SortBy, Projects, Members, PortId;
    ProjectsGrounded(docker, projects, refs);
    ContainersGrounded(docker, projects, refs);
    NetworksGrounded(docker, members, refs);
    PlusGrounded(a, b, refs);
    PlusGrounded(Plus(a, b), c, refs);
  }

  lemma RoutedGrounded(env: Env, d: HostDiscovery, refs: set<NodeRef>)
    requires Needs(Routed(env, d)) <= refs
    ensures Grounded(Routed(env, d), refs)
  {
    var a, b, c, e := HostResources(env, d), DockerResources(d.docker), Correlations(d.docker), Routing(env, d.docker);
    PlusNeeds(a, b);
    PlusNeeds(Plus(a, b), c);
    PlusNeeds(Plus(Plus(a, b), c), e);
    hide HostResources, DockerResources, Correlations, Routing, Grounded, Needs, ListenerKey, PortId;
    HostResourcesGrounded(env, d, refs);
    DockerResourcesGrounded(d.docker, refs);
    CorrelationsGrounded(d.docker, refs);
    RoutingGrounded(env, d.docker, refs);
    PlusGrounded(a, b, refs);
    PlusGrounded(Plus(a, b), c, refs);
    PlusGrounded(Plus(Plus(a, b), c), e, refs);
  }

  /** Every edge joins two nodes of the graph. */
  lemma GraphGrounded(env: Env, d: HostDiscovery)
    ensures Grounded(GraphOf(env, d), Refs(GraphOf(env, d)))
  {
    var refs := Refs(GraphOf(env, d));
    if d.docker.state == AVAILABLE {
      var routed := Routed(env, d);
      PlusRefs(routed, Domains(routed.visits));
      forall v | v in routed.visits ensures DomainRef(v.host) in refs { DomainListed(routed.visits, v); }
      hide Routed, Domains, Grounded;
      RoutedGrounded(env, d, refs);
      DomainsGrounded(routed.visits, refs);
      PlusGrounded(routed, Domains(routed.visits), refs);
    } else {
      HostAlone(env, d, refs);
    }
  }

  lemma HostAlone(env: Env, d: HostDiscovery, refs: set<NodeRef>)
    requires refs == Refs(HostResources(env, d))
    ensures Grounded(HostResources(env, d), refs)
  {
    HostVisitsNothing(env, d);
    hide HostResources, Grounded;
    HostResourcesGrounded(env, d, refs);
  }

  lemma {:induction false} GatherVisitsNothing<T>(f: T -> Part, s: seq<T>)
    requires forall x :: x in s ==> f(x).visits == []
    ensures Gather(f, s).visits == []
  {
    if s != [] {
      var n := |s| - 1;
      assert s == s[..n] + [s[n]];
      forall x | x in s[..n] ensures f(x).visits == [] { assert x in s; }
      GatherVisitsNothing(f, s[..n]);
      assert s[n] in s;
    }
  }

  lemma HostVisitsNothing(env: Env, d: HostDiscovery)
    ensures HostResources(env, d).visits == []
  {
    hide ServerNode, EngineNode, ServiceNode, ListenerNode, ListenerKey, Units, Gather;
    GatherVisitsNothing(ServicePart(d.docker), d.docker.systemd.services);
    GatherVisitsNothing(ListenerPart(d.docker), d.docker.listeners.items);
  }

  // ----- as text -----

  lemma WrittenNodesUnique(env: Env, server: string, nodes: seq<RefNode>)
    requires IsIdentity(env.identity) && UniqueBy(NodeIdOf, nodes)
    ensures UniqueBy(InfraNodeId, Map(TextNode(env, server), nodes))
  {
    var f := TextNode(env, server);
    var texts := Map(f, nodes);
    forall i, j | 0 <= i < j < |texts| ensures InfraNodeId(texts[i]) != InfraNodeId(texts[j]) {
      assert NodeIdOf(nodes[i]) != NodeIdOf(nodes[j]);
      hide NodeText, Map;
      if InfraNodeId(texts[i]) == InfraNodeId(texts[j]) {
        assert texts[i] == f(nodes[i]) && texts[j] == f(nodes[j]);
        NodeTextInjective(env.identity, server, nodes[i].id, nodes[j].id);
      }
    }
  }

  lemma WrittenEdgesUnique(env: Env, server: string, edges: seq<RefEdge>)
    requires IsIdentity(env.identity) && UniqueBy(EdgeIdOf, edges) && forall e :: e in edges ==> ProperEdge(e.id)
    ensures UniqueBy(InfraEdgeId, Map(TextEdge(env, server), edges))
  {
    var f := TextEdge(env, server);
    var texts := Map(f, edges);
    forall i, j | 0 <= i < j < |texts| ensures InfraEdgeId(texts[i]) != InfraEdgeId(texts[j]) {
      assert EdgeIdOf(edges[i]) != EdgeIdOf(edges[j]);
      assert edges[i] in edges && edges[j] in edges;
      hide EdgeText, NodeText, Map, ProperEdge;
      if InfraEdgeId(texts[i]) == InfraEdgeId(texts[j]) {
        assert texts[i] == f(edges[i]) && texts[j] == f(edges[j]);
        EdgeTextInjective(env.identity, server, edges[i].id, edges[j].id);
      }
    }
  }

  lemma WrittenEnds(env: Env, host: HostInfo, p: Part)
    requires Grounded(p, Refs(p))
    ensures var g := Written(env, host, p);
      forall e :: e in g.edges ==> GraphHasNode(g, e.source) && GraphHasNode(g, e.target)
  {
    var server, g := ServerText(env, host), Written(env, host, p);
    hide NodeText, EdgeText, Map;
    forall e | e in g.edges ensures GraphHasNode(g, e.source) && GraphHasNode(g, e.target) {
      var r := MapOrigin(TextEdge(env, server), p.edges, e);
      assert EndsIn(Refs(p))(r);
      WrittenNode(env, host, p, r.source);
      WrittenNode(env, host, p, r.target);
    }
  }

  lemma WrittenNode(env: Env, host: HostInfo, p: Part, id: NodeRef)
    requires id in Refs(p)
    ensures GraphHasNode(Written(env, host, p), NodeText(env.identity, ServerText(env, host), id))
  {
    hide NodeText, Map;
    var n :| n in p.nodes && n.id == id;
    MapMember(TextNode(env, ServerText(env, host)), p.nodes, n);
    assert TextNode(env, ServerText(env, host))(n) in Written(env, host, p).nodes;
  }

  lemma WrittenWellFormed(env: Env, host: HostInfo, p: Part, sections: set<nat>)
    requires IsIdentity(env.identity) && Unique(p) && InSections(p, sections) && Grounded(p, Refs(p))
    ensures WellFormed(Written(env, host, p))
  {
    var server := ServerText(env, host);
    SectionsProper(p, sections);
    hide Grounded, InSections, IsIdentity, ServerText, ProperEdge;
    WrittenNodesUnique(env, server, p.nodes);
    WrittenEdgesUnique(env, server, p.edges);
    WrittenEnds(env, host, p);
    hide UniqueBy, Map, GraphHasNode;
  }

  lemma SectionsProper(p: Part, sections: set<nat>)
    requires InSections(p, sections)
    ensures forall e :: e in p.edges ==> ProperEdge(e.id)
  {
    hide NodeOwner, EdgeOwner, ProperEdge;
    forall e | e in p.edges ensures ProperEdge(e.id) { assert EdgeIn(sections)(e); }
  }

  /**
    A graph built from distinct containers, distinct Caddy containers, and what parsing guarantees has
    unique node and edge identifiers and no dangling edge.
   */
  lemma BuiltGraphWellFormed(env: Env, d: HostDiscovery)
    requires IsIdentity(env.identity) && Sound(d.docker)
    ensures WellFormed(Written(env, d.host, GraphOf(env, d)))
  {
    hide GraphOf, Grounded, Unique, InSections, IsIdentity, Sound, Written, WellFormed, Refs;
    GraphUnique(env, d);
    GraphGrounded(env, d);
    WrittenWellFormed(env, d.host, GraphOf(env, d), {0, 1, 2, 3, 4, 5, 6, 7, 8});
  }
}

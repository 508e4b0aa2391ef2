/**
  The graph builder as it runs: lists and maps that grow inside nested loops.

  Every method appends exactly its part of `GraphRouting.GraphOf`; `visits` logs in ghost state which
  route visited which domain.
 */
module GraphFactory {
  import opened Ordering
  import opened Collections
  import opened Graphs
  import opened Texts
  import opened Discovery
  import opened GraphIds
  import opened GraphSpec
  import opened GraphRouting

  lemma PlusAssociates(a: Part, b: Part, c: Part)
    ensures Plus(Plus(a, b), c) == Plus(a, Plus(b, c))
  {
  }

  lemma PlusEmpty(a: Part)
    ensures Plus(a, EmptyPart) == a
  {
  }

  lemma GatherMore<T>(before: Part, f: T -> Part, s: seq<T>, i: nat)
    requires i < |s|
    ensures Plus(Plus(before, Gather(f, s[..i])), f(s[i])) == Plus(before, Gather(f, s[..i + 1]))
  {
    GatherStep(f, s, i);
    PlusAssociates(before, Gather(f, s[..i]), f(s[i]));
  }

  lemma GatherNone<T>(before: Part, f: T -> Part, s: seq<T>)
    ensures Plus(before, Gather(f, s[..0])) == before
    ensures s[..|s|] == s
  {
    PlusEmpty(before);
  }

  function CountIn(counts: map<string, nat>, unit: string): nat { if unit in counts then counts[unit] else 0 }

  /** `groupingBy { it.systemdUnit }.eachCount()` over the listeners owned by a unit. */
  method CountListeners(items: seq<Listener>) returns (counts: map<string, nat>)
    ensures forall unit :: CountIn(counts, unit) == Count(ListensFor(unit), items)
  {
    counts := map[];
    for i := 0 to |items|
      invariant forall unit :: CountIn(counts, unit) == Count(ListensFor(unit), items[..i])
    {
      assert items[..i + 1][..i] == items[..i];
      if OwnedBySystemd(items[i]) {
        var unit := items[i].systemdUnit.value;
        counts := counts[unit := CountIn(counts, unit) + 1];
      }
    }
    assert items[..|items|] == items;
  }

  class GraphBuilder {
    const env: Env
    var nodes: seq<RefNode>
    var edges: seq<RefEdge>
    var domains: map<string, Summary>
    ghost var visits: seq<Visit>

    constructor (env: Env)
      ensures this.env == env && Content() == EmptyPart && Consistent()
    {
      this.env, nodes, edges, domains, visits := env, [], [], map[], [];
    }

    ghost function Content(): Part
      reads this
    {
      Part(nodes, edges, visits)
    }

    /** The domain summaries are those of the visits so far. */
    ghost predicate Consistent()
      reads this
    {
      domains == Summaries(visits)
    }

    /** No domain was visited. */
    twostate predicate Quiet()
      reads this
    {
      domains == old(domains) && visits == old(visits)
    }

    // ----- services and listeners -----

    method AppendServices(docker: Docker) returns (serviceIds: map<string, NodeRef>)
      modifies this
      ensures Content() == Plus(old(Content()), Gather(ServicePart(docker), docker.systemd.services))
      ensures Quiet()
      ensures serviceIds.Keys == Units(docker.systemd) && forall u :: u in serviceIds ==> serviceIds[u] == ServiceRef(u)
    {
      hide Gather, Plus, ServicePart;
      var counts := CountListeners(docker.listeners.items);
      var services := docker.systemd.services;
      ghost var before := Content();
      serviceIds := map[];
      GatherNone(before, ServicePart(docker), services);
      for i := 0 to |services|
        invariant Content() == Plus(before, Gather(ServicePart(docker), services[..i])) && Quiet()
        invariant serviceIds.Keys == set s | s in services[..i] :: s.unit
        invariant forall u :: u in serviceIds ==> serviceIds[u] == ServiceRef(u)
      {
        AppendService(docker, services[i], CountIn(counts, services[i].unit));
        GatherMore(before, ServicePart(docker), services, i);
        assert services[..i + 1] == services[..i] + [services[i]];
        serviceIds := serviceIds[services[i].unit := ServiceRef(services[i].unit)];
      }
    }

    method AppendService(docker: Docker, s: Service, count: nat)
      requires count == Count(ListensFor(s.unit), docker.listeners.items)
      modifies this
      ensures Content() == Plus(old(Content()), ServicePart(docker)(s)) && Quiet()
    {
      hide ServiceNode, Count;
      nodes := nodes + [ServiceNode(docker.systemd, s, count)];
      edges := edges + [LinkOf(ServerRef, Runs, ServiceRef(s.unit), RUNS)];
    }

    method AppendListeners(docker: Docker, serviceIds: map<string, NodeRef>) returns (listenerIds: map<string, NodeRef>)
      requires serviceIds.Keys == Units(docker.systemd) && forall u :: u in serviceIds ==> serviceIds[u] == ServiceRef(u)
      modifies this
      ensures Content() == Plus(old(Content()), Gather(ListenerPart(docker), docker.listeners.items))
      ensures Quiet()
      ensures KeysListeners(listenerIds, docker.listeners.items)
    {
      hide Gather, Plus, ListenerPart, ListenerKey, Units, KeysListeners;
      var items := docker.listeners.items;
      ghost var before := Content();
      listenerIds := map[];
      NoListeners();
      GatherNone(before, ListenerPart(docker), items);
      for i := 0 to |items|
        invariant Content() == Plus(before, Gather(ListenerPart(docker), items[..i])) && Quiet()
        invariant KeysListeners(listenerIds, items[..i])
      {
        AppendListener(docker, serviceIds, items[i]);
        GatherMore(before, ListenerPart(docker), items, i);
        assert items[..i + 1] == items[..i] + [items[i]];
        OneMoreListener(listenerIds, items[..i], items[i]);
        listenerIds := listenerIds[ListenerKey(items[i]) := ListenerRef(ListenerKey(items[i]))];
      }
    }

    method AppendListener(docker: Docker, serviceIds: map<string, NodeRef>, l: Listener)
      requires serviceIds.Keys == Units(docker.systemd) && forall u :: u in serviceIds ==> serviceIds[u] == ServiceRef(u)
      modifies this
      ensures Content() == Plus(old(Content()), ListenerPart(docker)(l)) && Quiet()
    {
      hide ListenerNode, ListenerKey, Units;
      var id := ListenerRef(ListenerKey(l));
      nodes := nodes + [ListenerNode(docker.listeners, l)];
      edges := edges + [LinkOf(ServerRef, Contains, id, CONTAINS)];
      if OwnedBySystemd(l) && l.systemdUnit.value in serviceIds {
        edges := edges + [LinkOf(serviceIds[l.systemdUnit.value], Listens, id, LISTENS_ON)];
        edges := edges + [LinkOf(id, OwnedBy, serviceIds[l.systemdUnit.value], OWNED_BY)];
      }
    }

    // ----- projects and containers -----

    method AppendProjects(docker: Docker, projects: map<string, ComposeProject>) returns (projectIds: map<string, NodeRef>)
      modifies this
      ensures Content() == Plus(old(Content()), Gather(ProjectPart(docker, projects), SortedSet(projects.Keys)))
      ensures Quiet()
      ensures projectIds.Keys == projects.Keys && forall p :: p in projectIds ==> projectIds[p] == ProjectRef(p)
    {
      hide Gather, Plus, ProjectPart, SortedSet;
      var names := SortedSet(projects.Keys);
      ghost var before, f := Content(), ProjectPart(docker, projects);
      projectIds := map[];
      GatherNone(before, f, names);
      for i := 0 to |names|
        invariant Content() == Plus(before, Gather(f, names[..i])) && Quiet()
        invariant projectIds.Keys == set n | n in names[..i]
        invariant forall p :: p in projectIds ==> projectIds[p] == ProjectRef(p)
      {
        assert names[i] in names;
        AppendProject(docker, projects, names[i]);
        GatherMore(before, f, names, i);
        assert names[..i + 1] == names[..i] + [names[i]];
        projectIds := projectIds[names[i] := ProjectRef(names[i])];
      }
    }

    method AppendProject(docker: Docker, projects: map<string, ComposeProject>, project: string)
      requires project in projects
      modifies this
      ensures Content() == Plus(old(Content()), ProjectPart(docker, projects)(project)) && Quiet()
    {
      hide With, Count;
      var info := projects[project];
      var count := Count(InProject(project), docker.containers);
      var named := With(With(map["project" := project], "working directory", info.workingDirectory), "config files", info.configFiles);
      nodes := nodes + [RefNode(ProjectRef(project), project, DOCKER_COMPOSE_PROJECT, named["container count" := Decimal(count)])];
      edges := edges + [LinkOf(EngineRef, Contains, ProjectRef(project), CONTAINS)];
    }

    method AppendPorts(c: Container) returns (published: seq<Published>)
      modifies this
      ensures Content() == Plus(old(Content()), Gather(PortPart(c), Indexed(c.ports)))
      ensures Quiet()
      ensures published == PublishedOf(c)
    {
      hide Gather, Plus, PortPart, PortId, FilterMap;
      ghost var before, f, pairs := Content(), PortPart(c), Indexed(c.ports);
      published := [];
      NonePublished(c);
      GatherNone(before, f, pairs);
      for i := 0 to |c.ports|
        invariant Content() == Plus(before, Gather(f, pairs[..i])) && Quiet()
        invariant published == FilterMap(PublishedPort(c), pairs[..i])
      {
        AppendPort(c, i, c.ports[i]);
        if c.ports[i].hostPort.Some? { published := published + [Published(PortId(c, i, c.ports[i]), c.ports[i])]; }
        GatherMore(before, f, pairs, i);
        FilterMapStep(PublishedPort(c), pairs, i);
      }
    }

    lemma NonePublished(c: Container)
      ensures FilterMap(PublishedPort(c), Indexed(c.ports)[..0]) == []
    {
    }

    method AppendPort(c: Container, index: nat, port: Port)
      modifies this
      ensures Content() == Plus(old(Content()), PortPart(c)((index, port))) && Quiet()
    {
      hide PortId, PortNode;
      var id := PortId(c, index, port);
      nodes := nodes + [PortNode(id, port)];
      edges := edges + [LinkOf(ContainerRef(c.id), Exposes, id, EXPOSES)];
    }

    method AppendMounts(c: Container)
      modifies this
      ensures Content() == Plus(old(Content()), Gather(MountPart(c), Indexed(c.mounts)))
      ensures Quiet()
    {
      hide Gather, Plus, MountPart;
      ghost var before, f, pairs := Content(), MountPart(c), Indexed(c.mounts);
      GatherNone(before, f, pairs);
      for i := 0 to |c.mounts|
        invariant Content() == Plus(before, Gather(f, pairs[..i])) && Quiet()
      {
        AppendMount(c, i, c.mounts[i]);
        GatherMore(before, f, pairs, i);
      }
    }

    method AppendMount(c: Container, index: nat, mount: Mount)
      modifies this
      ensures Content() == Plus(old(Content()), MountPart(c)((index, mount))) && Quiet()
    {
      hide MountId, MountNode;
      var id := MountId(c, index, mount);
      nodes := nodes + [MountNode(id, mount)];
      edges := edges + [LinkOf(ContainerRef(c.id), Mounts, id, MOUNTS)];
    }

    method AppendContainers(docker: Docker, projects: map<string, ComposeProject>, projectIds: map<string, NodeRef>)
      returns (members: map<string, seq<string>>, containerIds: map<string, NodeRef>, published: seq<Published>)
      requires projectIds.Keys == projects.Keys && forall p :: p in projectIds ==> projectIds[p] == ProjectRef(p)
      modifies this
      ensures Content() == Plus(old(Content()), Gather(ContainerPart(projects), SortedContainers(docker)))
      ensures Quiet()
      ensures members == Members(docker)
      ensures KeysContainers(containerIds, SortedContainers(docker))
      ensures published == FlatMap(PublishedOf, SortedContainers(docker))
    {
      hide Gather, Plus, ContainerPart, KeysContainers, GroupBy, FlatMap, SortBy;
      var containers := SortBy(ContainerLe, docker.containers);
      ghost var before, f := Content(), ContainerPart(projects);
      members, containerIds, published := map[], map[], [];
      NoContainers(containers);
      GatherNone(before, f, containers);
      for i := 0 to |containers|
        invariant Content() == Plus(before, Gather(f, containers[..i])) && Quiet()
        invariant members == GroupBy(FlatMap(UsesOf, containers[..i]))
        invariant KeysContainers(containerIds, containers[..i])
        invariant published == FlatMap(PublishedOf, containers[..i])
      {
        var c := containers[i];
        OneMoreContainer(containerIds, containers[..i], c);
        containerIds := containerIds[c.id := ContainerRef(c.id)];
        var ports := AppendContainer(projects, projectIds, c);
        published := published + ports;
        members := JoinNetworks(members, c, FlatMap(UsesOf, containers[..i]));
        GatherMore(before, f, containers, i);
        FlatMapStep(UsesOf, containers, i);
        FlatMapStep(PublishedOf, containers, i);
        assert containers[..i + 1] == containers[..i] + [c];
      }
    }

    method AppendContainer(projects: map<string, ComposeProject>, projectIds: map<string, NodeRef>, c: Container)
      returns (published: seq<Published>)
      requires projectIds.Keys == projects.Keys && forall p :: p in projectIds ==> projectIds[p] == ProjectRef(p)
      modifies this
      ensures Content() == Plus(old(Content()), ContainerPart(projects)(c)) && Quiet()
      ensures published == PublishedOf(c)
    {
      ghost var before := Content();
      AppendHead(projects, projectIds, c);
      hide Plus, Gather, ParentPart, PortPart, MountPart;
      published := AppendPorts(c);
      AppendMounts(c);
      PlusAssociates(before, ParentPart(projects, c), Gather(PortPart(c), Indexed(c.ports)));
      PlusAssociates(before, Plus(ParentPart(projects, c), Gather(PortPart(c), Indexed(c.ports))), Gather(MountPart(c), Indexed(c.mounts)));
    }

    method AppendHead(projects: map<string, ComposeProject>, projectIds: map<string, NodeRef>, c: Container)
      requires projectIds.Keys == projects.Keys && forall p :: p in projectIds ==> projectIds[p] == ProjectRef(p)
      modifies this
      ensures Content() == Plus(old(Content()), ParentPart(projects, c)) && Quiet()
    {
      hide ContainerNode;
      nodes := nodes + [ContainerNode(c)];
      var project := ContainerProject(c);
      if project.Some? && project.value.project in projectIds {
        edges := edges + [LinkOf(projectIds[project.value.project], Contains, ContainerRef(c.id), CONTAINS)];
      } else {
        edges := edges + [LinkOf(EngineRef, Runs, ContainerRef(c.id), RUNS)];
      }
    }

    // ----- networks -----

    method AppendNetworks(docker: Docker, members: map<string, seq<string>>)
      modifies this
      ensures Content() == Plus(old(Content()), Gather(NetworkPart(docker, members), SortedSet(members.Keys)))
      ensures Quiet()
    {
      hide Gather, Plus, NetworkPart, SortedSet;
      var names := SortedSet(members.Keys);
      ghost var before, f := Content(), NetworkPart(docker, members);
      GatherNone(before, f, names);
      for i := 0 to |names|
        invariant Content() == Plus(before, Gather(f, names[..i])) && Quiet()
      {
        AppendNetwork(docker, members, names[i]);
        GatherMore(before, f, names, i);
      }
    }

    method AppendNetwork(docker: Docker, members: map<string, seq<string>>, network: string)
      modifies this
      ensures Content() == Plus(old(Content()), NetworkPart(docker, members)(network)) && Quiet()
    {
      hide Map, Filter, NetworkNode, ConnectionOf, OnNetwork;
      nodes := nodes + [NetworkNode(members, network)];
      ConnectNetwork(docker.containers, network);
    }

    method ConnectNetwork(containers: seq<Container>, network: string)
      modifies this
      ensures edges == old(edges) + Map(ConnectionOf(network), Filter(OnNetwork(network), containers))
      ensures nodes == old(nodes) && Quiet()
    {
      hide Map, Filter;
      NoneConnected(network, containers);
      for i := 0 to |containers|
        invariant edges == old(edges) + Map(ConnectionOf(network), Filter(OnNetwork(network), containers[..i]))
        invariant nodes == old(nodes) && Quiet()
      {
        ConnectedStep(network, containers, i);
        if network in containers[i].networks {
          edges := edges + [LinkOf(ContainerRef(containers[i].id), Network, NetworkRef(network), CONNECTED_TO)];
        }
      }
      assert containers[..|containers|] == containers;
    }

    // ----- published listeners -----

    method AppendPublishedListenerCorrelations(published: seq<Published>, listeners: seq<Listener>, listenerIds: map<string, NodeRef>)
      requires KeysListeners(listenerIds, listeners)
      modifies this
      ensures Content() == Plus(old(Content()), Gather(CorrelationPart(PortsByBinding(published)), listeners))
      ensures Quiet()
    {
      hide Gather, Plus, CorrelationPart, ListenerKey, KeysListeners, PortsByBinding;
      var byBinding := GroupPorts(published);
      ghost var before, f := Content(), CorrelationPart(byBinding);
      GatherNone(before, f, listeners);
      for i := 0 to |listeners|
        invariant Content() == Plus(before, Gather(f, listeners[..i])) && Quiet()
      {
        var l := listeners[i];
        KnownListener(listenerIds, listeners, l);
        AppendCorrelation(byBinding, l, listenerIds[ListenerKey(l)]);
        GatherMore(before, f, listeners, i);
      }
    }

    method AppendCorrelation(byBinding: map<Binding, seq<NodeRef>>, l: Listener, listenerId: NodeRef)
      requires listenerId == ListenerRef(ListenerKey(l))
      modifies this
      ensures Content() == Plus(old(Content()), CorrelationPart(byBinding)(l)) && Quiet()
    {
      hide ListenerKey, ListenerBinding;
      var matches := Group(byBinding, ListenerBinding(l));
      if |matches| == 1 {
        edges := edges + [LinkOf(matches[0], PublishedAs, listenerId, PUBLISHED_AS)];
      }
    }

    // ----- Caddy -----

    method AppendCaddyRouting(docker: Docker, containerIds: map<string, NodeRef>, listenerIds: map<string, NodeRef>)
      requires Consistent()
      requires KeysContainers(containerIds, SortedContainers(docker)) && KeysListeners(listenerIds, docker.listeners.items)
      modifies this
      ensures Consistent() && Content() == Plus(old(Content()), Routing(env, docker))
    {
      hide Gather, Plus, InstancePart, KeysContainers, KeysListeners, SortBy, Summaries;
      var instances := SortBy(InstanceLe, docker.caddy.instances);
      ghost var before, f := Content(), InstancePart(env, docker);
      GatherNone(before, f, instances);
      for i := 0 to |instances|
        invariant Consistent() && Content() == Plus(before, Gather(f, instances[..i]))
      {
        AppendInstance(docker, instances[i], containerIds, listenerIds);
        GatherMore(before, f, instances, i);
      }
    }

    method AppendInstance(docker: Docker, instance: CaddyInstance, containerIds: map<string, NodeRef>, listenerIds: map<string, NodeRef>)
      requires Consistent()
      requires KeysContainers(containerIds, SortedContainers(docker)) && KeysListeners(listenerIds, docker.listeners.items)
      modifies this
      ensures Consistent() && Content() == Plus(old(Content()), InstancePart(env, docker)(instance))
    {
      ghost var before := Content();
      hide Gather, Plus, RoutePart, KeysContainers, KeysListeners, SortBy, ProxyPart, Summaries;
      AppendProxy(docker, instance, containerIds);
      var routes := SortBy(RouteLe, instance.routes);
      ghost var f := RoutePart(env, docker, instance);
      ghost var headed := Content();
      GatherNone(headed, f, routes);
      for i := 0 to |routes|
        invariant Consistent() && Content() == Plus(headed, Gather(f, routes[..i]))
      {
        AppendRoute(docker, instance, routes[i], containerIds, listenerIds);
        GatherMore(headed, f, routes, i);
      }
      PlusAssociates(before, ProxyPart(env, docker, instance), Gather(f, routes));
    }

    method AppendProxy(docker: Docker, instance: CaddyInstance, containerIds: map<string, NodeRef>)
      requires Consistent() && KeysContainers(containerIds, SortedContainers(docker))
      modifies this
      ensures Consistent() && Content() == Plus(old(Content()), ProxyPart(env, docker, instance))
    {
      KnownIds(containerIds, docker, instance.containerId);
      hide KeysContainers, KnownContainer, Summaries, ProxyNode;
      nodes := nodes + [ProxyNode(env, instance)];
      if instance.containerId in containerIds {
        edges := edges + [LinkOf(containerIds[instance.containerId], Runs, ProxyRef(instance.containerId), RUNS)];
      }
    }

    method AppendRoute(docker: Docker, instance: CaddyInstance, route: CaddyRoute,
      containerIds: map<string, NodeRef>, listenerIds: map<string, NodeRef>)
      requires Consistent()
      requires KeysContainers(containerIds, SortedContainers(docker)) && KeysListeners(listenerIds, docker.listeners.items)
      modifies this
      ensures Consistent() && Content() == Plus(old(Content()), RoutePart(env, docker, instance)(route))
    {
      hide Gather, Plus, HopPart, KeysContainers, KeysListeners, Summaries, RouteUpstreams;
      var upstreams := RouteUpstreams(route);
      ghost var before, f, pairs := Content(), HopPart(env, docker, instance, route), Indexed(upstreams);
      GatherNone(before, f, pairs);
      for i := 0 to |upstreams|
        invariant Consistent() && Content() == Plus(before, Gather(f, pairs[..i]))
      {
        AppendHop(docker, instance, route, i, upstreams[i], containerIds, listenerIds);
        GatherMore(before, f, pairs, i);
      }
    }

    method AppendHop(docker: Docker, instance: CaddyInstance, route: CaddyRoute, index: nat, upstream: CaddyUpstream,
      containerIds: map<string, NodeRef>, listenerIds: map<string, NodeRef>)
      requires Consistent()
      requires KeysContainers(containerIds, SortedContainers(docker)) && KeysListeners(listenerIds, docker.listeners.items)
      modifies this
      ensures Consistent() && Content() == Plus(old(Content()), HopPart(env, docker, instance, route)((index, upstream)))
    {
      ghost var before := Content();
      var hop := HopOf(env, docker, instance, route, index, upstream);
      ResolvedListenersKnown(env, docker, instance, route, index, upstream);
      hide Gather, Plus, HopHead, HopTargets, DomainPart, KeysContainers, KeysListeners, Summaries, HopOf, RouteHosts;
      AppendHopHead(docker, hop, containerIds);
      AppendHopTargets(hop, docker.listeners.items, listenerIds);
      ghost var headed := Content();
      PlusAssociates(before, HopHead(env, docker, hop), HopTargets(hop));
      var hosts := RouteHosts(env, route);
      ghost var f := DomainPart(env, hop);
      GatherNone(headed, f, hosts);
      for i := 0 to |hosts|
        invariant Consistent() && Content() == Plus(headed, Gather(f, hosts[..i]))
      {
        AppendDomain(hop, hosts[i]);
        GatherMore(headed, f, hosts, i);
      }
      HopRoute(env, docker, instance, route, index, upstream);
      PlusAssociates(before, Plus(HopHead(env, docker, hop), HopTargets(hop)), Gather(f, hosts));
    }

    method AppendHopHead(docker: Docker, hop: Hop, containerIds: map<string, NodeRef>)
      requires Consistent() && KeysContainers(containerIds, SortedContainers(docker))
      modifies this
      ensures Consistent() && Content() == Plus(old(Content()), HopHead(env, docker, hop))
    {
      hide KeysContainers, Resolving, Summaries, HopNode, HopId;
      nodes := nodes + [HopNode(env, hop)];
      edges := edges + [LinkOf(ProxyRef(hop.instance.containerId), Proxies, HopId(hop), PROXIES_TO)];
      AppendResolving(docker, hop, containerIds);
    }

    method AppendResolving(docker: Docker, hop: Hop, containerIds: map<string, NodeRef>)
      requires KeysContainers(containerIds, SortedContainers(docker))
      modifies this
      ensures edges == old(edges) + Resolving(docker, hop) && nodes == old(nodes) && Quiet()
    {
      hide KeysContainers, KnownContainer, HopId;
      var container := hop.resolution.container;
      if container.Some? {
        KnownIds(containerIds, docker, container.value.id);
        if container.value.id in containerIds {
          edges := edges + [LinkOf(HopId(hop), Resolves, containerIds[container.value.id], RESOLVES_TO)];
        }
      }
    }

    method AppendHopTargets(hop: Hop, items: seq<Listener>, listenerIds: map<string, NodeRef>)
      requires Consistent() && KeysListeners(listenerIds, items)
      requires hop.host.Some? ==> forall l :: l in hop.host.value.listeners ==> l in items
      modifies this
      ensures Consistent() && Content() == Plus(old(Content()), HopTargets(hop))
    {
      hide Gather, KeysListeners, Summaries, TargetPart;
      ghost var before := Content();
      PlusEmpty(before);
      hide Plus;
      if hop.host.Some? {
        var listeners := hop.host.value.listeners;
        ghost var f := TargetPart(hop);
        GatherNone(before, f, listeners);
        for i := 0 to |listeners|
          invariant Consistent() && Content() == Plus(before, Gather(f, listeners[..i]))
        {
          assert listeners[i] in listeners;
          KnownListener(listenerIds, items, listeners[i]);
          AppendTarget(hop, listeners[i], listenerIds);
          GatherMore(before, f, listeners, i);
        }
      }
    }

    method AppendTarget(hop: Hop, l: Listener, listenerIds: map<string, NodeRef>)
      requires Consistent()
      requires ListenerKey(l) in listenerIds && listenerIds[ListenerKey(l)] == ListenerRef(ListenerKey(l))
      modifies this
      ensures Consistent() && Content() == Plus(old(Content()), TargetPart(hop)(l))
    {
      hide HopId, ListenerKey, Summaries;
      if ListenerKey(l) in listenerIds {
        edges := edges + [LinkOf(HopId(hop), Targets, listenerIds[ListenerKey(l)], TARGETS)];
      }
    }

    /** One visit of a domain: its summary grows and its route edges are added. */
    method AppendDomain(hop: Hop, host: string)
      requires Consistent()
      modifies this
      ensures Consistent() && Content() == Plus(old(Content()), DomainPart(env, hop)(host))
    {
      hide Summaries, HopId, VisitOf, RouteEdge, AddVisit;
      VisitDomain(hop, host);
      if hop.index == 0 { edges := edges + [RouteEdge(hop, host, ProxyRef(hop.instance.containerId), ROUTES_THROUGH)]; }
      edges := edges + [RouteEdge(hop, host, HopId(hop), ROUTES_TO)];
    }

    method VisitDomain(hop: Hop, host: string)
      requires Consistent()
      modifies this
      ensures Consistent() && visits == old(visits) + [VisitOf(env, hop, host)]
      ensures nodes == old(nodes) && edges == old(edges)
    {
      VisitsGrow(visits, VisitOf(env, hop, host));
      hide Summaries, VisitOf, Extend;
      var summary := ExtendSummary(env, hop, host, if host in domains then domains[host] else EmptySummary);
      domains := domains[host := summary];
      visits := visits + [VisitOf(env, hop, host)];
    }

    method AppendDomains()
      requires Consistent()
      modifies this
      ensures Content() == Plus(old(Content()), Domains(old(visits)))
    {
      hide Gather, Plus, SortedSet, Summaries, DomainNode;
      var hosts := SortedSet(domains.Keys);
      ghost var before, f := Content(), DomainNodePart(domains);
      GatherNone(before, f, hosts);
      for i := 0 to |hosts|
        invariant Quiet() && Content() == Plus(before, Gather(f, hosts[..i]))
      {
        assert hosts[i] in hosts;
        AppendDomainNode(hosts[i]);
        GatherMore(before, f, hosts, i);
      }
    }

    method AppendDomainNode(host: string)
      requires host in domains
      modifies this
      ensures Quiet() && Content() == Plus(old(Content()), DomainNodePart(domains)(host))
    {
      hide DomainNode;
      nodes := nodes + [DomainNode(host, domains[host])];
    }

    // ----- the whole graph -----

    method AppendHost(host: HostInfo, docker: Docker)
      modifies this
      ensures Content() == Plus(old(Content()), HostPart(env, host, docker)) && Quiet()
    {
      hide ServerNode, EngineNode;
      nodes := nodes + [ServerNode(env, host, docker), EngineNode(docker)];
      edges := edges + [LinkOf(ServerRef, Runs, EngineRef, RUNS)];
    }

    method AppendHostResources(d: HostDiscovery) returns (listenerIds: map<string, NodeRef>)
      requires Content() == EmptyPart
      modifies this
      ensures Content() == HostResources(env, d) && Quiet()
      ensures KeysListeners(listenerIds, d.docker.listeners.items)
    {
      assert Plus(EmptyPart, HostPart(env, d.host, d.docker)) == HostPart(env, d.host, d.docker) by { hide HostPart; }
      hide Gather, Plus, HostPart, ServicePart, ListenerPart, KeysListeners, Units;
      AppendHost(d.host, d.docker);
      var serviceIds := AppendServices(d.docker);
      listenerIds := AppendListeners(d.docker, serviceIds);
    }

    method AppendDockerResources(docker: Docker)
      returns (containerIds: map<string, NodeRef>, published: seq<Published>)
      modifies this
      ensures Content() == Plus(old(Content()), DockerResources(docker)) && Quiet()
      ensures KeysContainers(containerIds, SortedContainers(docker))
      ensures published == FlatMap(PublishedOf, SortedContainers(docker))
    {
      hide Gather, Plus, ProjectPart, ContainerPart, NetworkPart, KeysContainers, Projects, Members, FlatMap, SortBy, SortedSet;
      ghost var before := Content();
      var projects := Projects(docker);
      var projectIds := AppendProjects(docker, projects);
      var members;
      members, containerIds, published := AppendContainers(docker, projects, projectIds);
      AppendNetworks(docker, members);
      ghost var a := Gather(ProjectPart(docker, projects), SortedSet(projects.Keys));
      ghost var b := Gather(ContainerPart(projects), SortedContainers(docker));
      ghost var c := Gather(NetworkPart(docker, members), SortedSet(members.Keys));
      PlusAssociates(before, a, b);
      PlusAssociates(before, Plus(a, b), c);
    }
  }

  lemma NoListeners()
    ensures forall items: seq<Listener> :: KeysListeners(map[], items[..0])
  {
  }

  lemma OneMoreListener(ids: map<string, NodeRef>, items: seq<Listener>, l: Listener)
    requires KeysListeners(ids, items)
    ensures KeysListeners(ids[ListenerKey(l) := ListenerRef(ListenerKey(l))], items + [l])
  {
    hide ListenerKey;
    forall k | k in ids ensures exists x :: x in items + [l] && ListenerKey(x) == k {
      var x :| x in items && ListenerKey(x) == k;
      assert x in items + [l];
    }
    assert l in items + [l];
  }

  ghost predicate KeysListeners(ids: map<string, NodeRef>, items: seq<Listener>) {
    && (forall l :: l in items ==> ListenerKey(l) in ids)
    && (forall k :: k in ids ==> ids[k] == ListenerRef(k) && exists l :: l in items && ListenerKey(l) == k)
  }

  ghost predicate KeysContainers(ids: map<string, NodeRef>, containers: seq<Container>) {
    && (forall c :: c in containers ==> c.id in ids)
    && (forall k :: k in ids ==> ids[k] == ContainerRef(k) && exists c :: c in containers && c.id == k)
  }

  lemma NoContainers(containers: seq<Container>)
    ensures KeysContainers(map[], containers[..0])
    ensures GroupBy(FlatMap(UsesOf, containers[..0])) == map[]
    ensures FlatMap(PublishedOf, containers[..0]) == []
  {
  }

  lemma OneMoreContainer(ids: map<string, NodeRef>, containers: seq<Container>, c: Container)
    requires KeysContainers(ids, containers)
    ensures KeysContainers(ids[c.id := ContainerRef(c.id)], containers + [c])
  {
    forall k | k in ids ensures exists x :: x in containers + [c] && x.id == k {
      var x :| x in containers && x.id == k;
      assert x in containers + [c];
    }
    assert c in containers + [c];
  }

  lemma GroupByStep<K, V>(pairs: seq<(K, V)>, p: (K, V))
    ensures GroupBy(pairs + [p]) == AddTo(GroupBy(pairs), p.0, p.1)
  {
    assert (pairs + [p])[..|pairs|] == pairs;
  }

  /** Enters a container's name under each of its networks. */
  method JoinNetworks(members: map<string, seq<string>>, c: Container, ghost uses: seq<(string, string)>)
    returns (joined: map<string, seq<string>>)
    requires members == GroupBy(uses)
    ensures joined == GroupBy(uses + UsesOf(c))
  {
    hide GroupBy, AddTo;
    joined := members;
    assert uses + Uses(c)[..0] == uses;
    for i := 0 to |c.networks|
      invariant joined == GroupBy(uses + Uses(c)[..i])
    {
      var n := c.networks[i];
      GroupByStep(uses + Uses(c)[..i], (n, c.name));
      assert Uses(c)[..i + 1] == Uses(c)[..i] + [(n, c.name)];
      assert uses + Uses(c)[..i + 1] == uses + Uses(c)[..i] + [(n, c.name)];
      joined := AddTo(joined, n, c.name);
    }
    assert Uses(c)[..|c.networks|] == Uses(c);
  }

  lemma NoneConnected(network: string, containers: seq<Container>)
    ensures Map(ConnectionOf(network), Filter(OnNetwork(network), containers[..0])) == []
  {
  }

  lemma ConnectedStep(network: string, containers: seq<Container>, i: nat)
    requires i < |containers|
    ensures Map(ConnectionOf(network), Filter(OnNetwork(network), containers[..i + 1])) ==
      Map(ConnectionOf(network), Filter(OnNetwork(network), containers[..i]))
        + if network in containers[i].networks then [ConnectionOf(network)(containers[i])] else []
  {
    FilterStep(OnNetwork(network), containers, i);
    var kept := Filter(OnNetwork(network), containers[..i]);
    assert (kept + [containers[i]])[..|kept|] == kept;
    assert kept + [] == kept;
  }

  /** `groupBy` of the published ports that have a binding. */
  method GroupPorts(published: seq<Published>) returns (groups: map<Binding, seq<NodeRef>>)
    ensures groups == PortsByBinding(published)
  {
    hide GroupBy, AddTo, PortBinding, FilterMap;
    groups := map[];
    NoneBound(published);
    for i := 0 to |published|
      invariant groups == GroupBy(FilterMap(BindingPair, published[..i]))
    {
      FilterMapStep(BindingPair, published, i);
      var pair := BindingPair(published[i]);
      if pair.Some? {
        GroupByStep(FilterMap(BindingPair, published[..i]), pair.value);
        groups := AddTo(groups, pair.value.0, pair.value.1);
      }
    }
    assert published[..|published|] == published;
  }

  lemma NoneBound(published: seq<Published>)
    ensures GroupBy(FilterMap(BindingPair, published[..0])) == map[]
  {
  }

  lemma KnownListener(ids: map<string, NodeRef>, items: seq<Listener>, l: Listener)
    requires KeysListeners(ids, items) && l in items
    ensures ListenerKey(l) in ids && ids[ListenerKey(l)] == ListenerRef(ListenerKey(l))
  {
    hide ListenerKey;
  }

  lemma KnownIds(ids: map<string, NodeRef>, docker: Docker, id: string)
    requires KeysContainers(ids, SortedContainers(docker))
    ensures id in ids <==> KnownContainer(docker, id)
    ensures id in ids ==> ids[id] == ContainerRef(id)
  {
    SortByElements(ContainerLe, docker.containers);
    hide SortBy, ContainerLe;
    if c :| c in docker.containers && c.id == id { assert c in SortedContainers(docker); }
  }

  lemma HopRoute(env: Env, docker: Docker, instance: CaddyInstance, route: CaddyRoute, index: nat, upstream: CaddyUpstream)
    ensures HopOf(env, docker, instance, route, index, upstream).route == route
  {
    hide Resolve, ResolveHost;
  }

  /** Enters one visit into the summary of its domain. */
  method ExtendSummary(env: Env, hop: Hop, host: string, summary: Summary) returns (s: Summary)
    ensures VisitOf(env, hop, host).host == host
    ensures s == Extend(summary, VisitOf(env, hop, host))
  {
    hide RouteText, RoutePaths, DialText, OutcomeName, SoleService;
    s := summary.(routeIds := summary.routeIds + {env.identity(RouteText(hop.instance, hop.route))});
    s := s.(paths := s.paths + Elems(RoutePaths(hop.route)));
    s := s.(upstreams := s.upstreams + {DialText(hop)}, resolutions := s.resolutions + {OutcomeName(hop)});
    s := s.(proxies := s.proxies + {hop.instance.containerName});
    if hop.resolution.container.Some? { s := s.(targets := s.targets + {hop.resolution.container.value.name}); }
    if SoleService(hop).Some? { s := s.(services := s.services + {SoleService(hop).value}); }
  }

  /** The listeners a host target resolves to are discovered ones. */
  lemma HostListenersKnown(dial: Dial, systemd: Systemd, listeners: Listeners)
    ensures forall l :: l in ResolveHost(dial, systemd, listeners).listeners ==> l in listeners.items
  {
    FilterElements(Eligible(dial.port), listeners.items);
    SortByElements(ListenerLe, Filter(Eligible(dial.port), listeners.items));
    hide SortBy, Filter, DistinctBy, FilterMap, AssociateBy;
  }

  lemma ResolvedListenersKnown(env: Env, docker: Docker, instance: CaddyInstance, route: CaddyRoute, index: nat, upstream: CaddyUpstream)
    ensures var host := HopOf(env, docker, instance, route, index, upstream).host;
      host.Some? ==> forall l :: l in host.value.listeners ==> l in docker.listeners.items
  {
    hide Resolve, ResolveHost;
    var hop := HopOf(env, docker, instance, route, index, upstream);
    if hop.host.Some? { HostListenersKnown(hop.resolution.dial.value, docker.systemd, docker.listeners); }
  }

  lemma VisitsGrow(visits: seq<Visit>, v: Visit)
    ensures Summaries(visits + [v]) == AddVisit(Summaries(visits), v)
  {
    assert (visits + [v])[..|visits|] == visits;
  }

  /** `create` */
  method Create(env: Env, d: HostDiscovery) returns (graph: InfraGraph)
    ensures graph == Written(env, d.host, GraphOf(env, d))
  {
    hide Gather, Plus, HostResources, DockerResources, Correlations, Routing, Domains, Map, KeysListeners, KeysContainers, Summaries, FlatMap;
    var builder := new GraphBuilder(env);
    var listenerIds := builder.AppendHostResources(d);
    var server := ServerText(env, d.host);
    if d.docker.state == AVAILABLE {
      AppendDocker(builder, d, listenerIds);
    }
    graph := InfraGraph(Map(TextNode(env, server), builder.nodes), Map(TextEdge(env, server), builder.edges));
  }

  /** The part of `create` that needs a reachable Docker engine. */
  method AppendDocker(builder: GraphBuilder, d: HostDiscovery, listenerIds: map<string, NodeRef>)
    requires d.docker.state == AVAILABLE && builder.Consistent() && builder.visits == []
    requires builder.Content() == HostResources(builder.env, d) && KeysListeners(listenerIds, d.docker.listeners.items)
    modifies builder
    ensures builder.Content() == GraphOf(builder.env, d)
  {
    hide Gather, HostResources, DockerResources, Routing, Domains, KeysListeners, KeysContainers, Summaries, FlatMap, CorrelationPart, PortsByBinding;
    ghost var before := builder.Content();
    var containerIds, published := builder.AppendDockerResources(d.docker);
    builder.AppendPublishedListenerCorrelations(published, d.docker.listeners.items, listenerIds);
    builder.AppendCaddyRouting(d.docker, containerIds, listenerIds);
    builder.AppendDomains();
  }
}

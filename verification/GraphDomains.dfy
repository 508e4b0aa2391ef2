/** The domain nodes of the built graph: which there are, what they sum up, and the edges they count. */
module GraphDomains {
  import opened Ordering
  import opened Collections
  import opened Graphs
  import opened Texts
  import opened Discovery
  import opened GraphIds
  import opened GraphSpec
  import opened GraphRouting
  import opened GraphParts
  import opened GraphEnds
  import opened GraphAccounting
  import opened GraphTypes

  // ----- the upstreams that serve a domain -----

  /** One upstream of one route of one discovered proxy, resolved. */
  predicate HopIn(env: Env, docker: Docker, hop: Hop) {
    && hop.instance in docker.caddy.instances && hop.route in hop.instance.routes
    && hop.index < |RouteUpstreams(hop.route)|
    && hop == HopOf(env, docker, hop.instance, hop.route, hop.index, RouteUpstreams(hop.route)[hop.index])
  }

  predicate Serves(env: Env, docker: Docker, hop: Hop, host: string) { HopIn(env, docker, hop) && host in RouteHosts(env, hop.route) }

  /** The edge from a domain through its proxy, drawn with the first upstream of a route. */
  function ThroughEdge(hop: Hop, host: string): RefEdge { RouteEdge(hop, host, ProxyRef(hop.instance.containerId), ROUTES_THROUGH) }

  /** What the parts of routes contribute: visits, and edges through a proxy. */
  ghost predicate Brings(p: Part, env: Env, hop: Hop, host: string) {
    VisitOf(env, hop, host) in p.visits && (hop.index == 0 ==> ThroughEdge(hop, host) in p.edges)
  }

  /** Every visit and every edge through a proxy comes from an upstream that satisfies `from`. */
  ghost predicate ComesFrom(p: Part, env: Env, from: Hop -> bool) {
    && (forall v :: v in p.visits ==> exists hop :: from(hop) && v.host in RouteHosts(env, hop.route) && v == VisitOf(env, hop, v.host))
    && (forall e :: e in p.edges && e.relation == ROUTES_THROUGH ==>
          exists hop, host :: from(hop) && hop.index == 0 && host in RouteHosts(env, hop.route) && e == ThroughEdge(hop, host))
  }

  lemma PlusComesFrom(p: Part, q: Part, env: Env, from: Hop -> bool)
    requires ComesFrom(p, env, from) && ComesFrom(q, env, from)
    ensures ComesFrom(Plus(p, q), env, from)
  {
    hide RouteHosts, VisitOf, ThroughEdge;
  }

  lemma {:induction false} GatherComesFrom<T>(f: T -> Part, s: seq<T>, env: Env, from: Hop -> bool)
    requires forall x :: x in s ==> ComesFrom(f(x), env, from)
    ensures ComesFrom(Gather(f, s), env, from)
  {
    if s != [] {
      var n := |s| - 1;
      assert s == s[..n] + [s[n]];
      hide ComesFrom;
      forall x | x in s[..n] ensures ComesFrom(f(x), env, from) { assert x in s; }
      GatherComesFrom(f, s[..n], env, from);
      assert s[n] in s;
      PlusComesFrom(Gather(f, s[..n]), f(s[n]), env, from);
    }
  }

  lemma {:induction false} GatherBrings<T>(f: T -> Part, s: seq<T>, x: T, env: Env, hop: Hop, host: string)
    requires x in s && Brings(f(x), env, hop, host)
    ensures Brings(Gather(f, s), env, hop, host)
  {
    var k := |s| - 1;
    assert s == s[..k] + [s[k]];
    hide VisitOf, ThroughEdge;
    if x in s[..k] { GatherBrings(f, s[..k], x, env, hop, host); }
  }

  lemma Unvisited(p: Part, env: Env, from: Hop -> bool)
    requires p.visits == [] && forall e :: e in p.edges ==> e.relation != ROUTES_THROUGH
    ensures ComesFrom(p, env, from)
  {
  }

  // ----- one upstream -----

  lemma DomainPartShape(env: Env, hop: Hop, host: string)
    ensures var p := DomainPart(env, hop)(host);
      && p.visits == [VisitOf(env, hop, host)] && VisitOf(env, hop, host).host == host
      && forall e :: e in p.edges && e.relation == ROUTES_THROUGH <==> hop.index == 0 && e == ThroughEdge(hop, host)
  {
    VisitHost(env, hop, host);
    hide VisitOf, RouteText, HopId;
  }

  lemma DomainComesFrom(env: Env, hop: Hop, host: string, from: Hop -> bool)
    requires from(hop) && host in RouteHosts(env, hop.route)
    ensures ComesFrom(DomainPart(env, hop)(host), env, from) && Brings(DomainPart(env, hop)(host), env, hop, host)
  {
    DomainPartShape(env, hop, host);
    hide RouteHosts, DomainPart, VisitOf, ThroughEdge;
    assert ThroughEdge(hop, host).relation == ROUTES_THROUGH by { ThroughFacts(hop, host); }
  }

  lemma HopBase(env: Env, docker: Docker, hop: Hop, from: Hop -> bool)
    ensures ComesFrom(Plus(HopHead(env, docker, hop), HopTargets(hop)), env, from)
  {
    var head, targets := HopHead(env, docker, hop), HopTargets(hop);
    hide HopNode, HopId, KnownContainer, ListenerKey, ComesFrom, Gather;
    Unvisited(head, env, from);
    if hop.host.Some? {
      var f, s := TargetPart(hop), hop.host.value.listeners;
      forall l ensures ComesFrom(f(l), env, from) { Unvisited(f(l), env, from); }
      GatherComesFrom(f, s, env, from);
    } else {
      Unvisited(EmptyPart, env, from);
    }
    hide HopHead, HopTargets;
    PlusComesFrom(head, targets, env, from);
  }

  lemma HopContributes(env: Env, docker: Docker, instance: CaddyInstance, route: CaddyRoute, u: (nat, CaddyUpstream), from: Hop -> bool)
    requires from(HopOf(env, docker, instance, route, u.0, u.1))
    ensures ComesFrom(HopPart(env, docker, instance, route)(u), env, from)
    ensures forall host :: host in RouteHosts(env, route) ==>
      Brings(HopPart(env, docker, instance, route)(u), env, HopOf(env, docker, instance, route, u.0, u.1), host)
  {
    var hop := HopOf(env, docker, instance, route, u.0, u.1);
    var base, f, hosts := Plus(HopHead(env, docker, hop), HopTargets(hop)), DomainPart(env, hop), RouteHosts(env, route);
    assert hop.route == route;
    HopBase(env, docker, hop, from);
    hide HopOf, RouteHosts, HopHead, HopTargets, DomainPart, Gather, ComesFrom, Brings;
    forall host | host in hosts ensures ComesFrom(f(host), env, from) && Brings(Gather(f, hosts), env, hop, host) {
      DomainComesFrom(env, hop, host, from);
      GatherBrings(f, hosts, host, env, hop, host);
    }
    GatherComesFrom(f, hosts, env, from);
    PlusComesFrom(base, Gather(f, hosts), env, from);
    forall host | host in hosts ensures Brings(Plus(base, Gather(f, hosts)), env, hop, host) { BringsAfter(base, Gather(f, hosts), env, hop, host); }
  }

  lemma BringsAfter(p: Part, q: Part, env: Env, hop: Hop, host: string)
    requires Brings(q, env, hop, host)
    ensures Brings(Plus(p, q), env, hop, host)
  {
    hide VisitOf, ThroughEdge;
  }

  // ----- all upstreams -----

  lemma RouteContributes(env: Env, docker: Docker, instance: CaddyInstance, route: CaddyRoute, from: Hop -> bool)
    requires forall i: nat :: i < |RouteUpstreams(route)| ==> from(HopOf(env, docker, instance, route, i, RouteUpstreams(route)[i]))
    ensures ComesFrom(RoutePart(env, docker, instance)(route), env, from)
    ensures forall i: nat, host :: i < |RouteUpstreams(route)| && host in RouteHosts(env, route) ==>
      Brings(RoutePart(env, docker, instance)(route), env, HopOf(env, docker, instance, route, i, RouteUpstreams(route)[i]), host)
  {
    var f, upstreams := HopPart(env, docker, instance, route), RouteUpstreams(route);
    var s := Indexed(upstreams);
    hide HopPart, RouteUpstreams, Gather, ComesFrom, Brings, HopOf, RouteHosts;
    forall u | u in s ensures ComesFrom(f(u), env, from) { HopContributes(env, docker, instance, route, u, from); }
    GatherComesFrom(f, s, env, from);
    forall i: nat, host | i < |upstreams| && host in RouteHosts(env, route)
      ensures Brings(Gather(f, s), env, HopOf(env, docker, instance, route, i, upstreams[i]), host)
    {
      assert s[i] in s && s[i] == (i, upstreams[i]);
      HopContributes(env, docker, instance, route, s[i], from);
      GatherBrings(f, s, s[i], env, HopOf(env, docker, instance, route, i, upstreams[i]), host);
    }
  }

  lemma RoutesContribute(env: Env, docker: Docker, instance: CaddyInstance, s: seq<CaddyRoute>)
    requires instance in docker.caddy.instances && forall r :: r in s <==> r in instance.routes
    ensures var routes := Gather(RoutePart(env, docker, instance), s);
      && ComesFrom(routes, env, (hop: Hop) => HopIn(env, docker, hop))
      && forall hop, host :: Serves(env, docker, hop, host) && hop.instance == instance ==> Brings(routes, env, hop, host)
  {
    var from := (hop: Hop) => HopIn(env, docker, hop);
    var f := RoutePart(env, docker, instance);
    hide RoutePart, Gather, ComesFrom, Brings, RouteHosts, RouteUpstreams;
    forall r | r in s ensures ComesFrom(f(r), env, from) {
      HopsIn(env, docker, instance, r);
      RouteContributes(env, docker, instance, r, from);
    }
    GatherComesFrom(f, s, env, from);
    forall hop, host | Serves(env, docker, hop, host) && hop.instance == instance ensures Brings(Gather(f, s), env, hop, host) {
      HopsIn(env, docker, instance, hop.route);
      RouteContributes(env, docker, instance, hop.route, from);
      GatherBrings(f, s, hop.route, env, hop, host);
    }
  }

  lemma InstanceContributes(env: Env, docker: Docker, instance: CaddyInstance)
    requires instance in docker.caddy.instances
    ensures ComesFrom(InstancePart(env, docker)(instance), env, (hop: Hop) => HopIn(env, docker, hop))
    ensures forall hop, host :: Serves(env, docker, hop, host) && hop.instance == instance ==> Brings(InstancePart(env, docker)(instance), env, hop, host)
  {
    var from := (hop: Hop) => HopIn(env, docker, hop);
    var proxy, s := ProxyPart(env, docker, instance), SortBy(RouteLe, instance.routes);
    var routes := Gather(RoutePart(env, docker, instance), s);
    SortByElements(RouteLe, instance.routes);
    assert ComesFrom(proxy, env, from) by { hide ProxyNode, KnownContainer, ComesFrom; Unvisited(proxy, env, from); }
    hide ProxyPart, RoutePart, Gather, SortBy, ComesFrom, Brings, Serves, HopIn;
    RoutesContribute(env, docker, instance, s);
    PlusComesFrom(proxy, routes, env, from);
    forall hop, host | Serves(env, docker, hop, host) && hop.instance == instance ensures Brings(Plus(proxy, routes), env, hop, host) {
      BringsAfter(proxy, routes, env, hop, host);
    }
  }

  lemma HopsIn(env: Env, docker: Docker, instance: CaddyInstance, route: CaddyRoute)
    requires instance in docker.caddy.instances && route in instance.routes
    ensures forall i: nat :: i < |RouteUpstreams(route)| ==> HopIn(env, docker, HopOf(env, docker, instance, route, i, RouteUpstreams(route)[i]))
  {
    forall i: nat | i < |RouteUpstreams(route)| ensures HopIn(env, docker, HopOf(env, docker, instance, route, i, RouteUpstreams(route)[i])) {
      var hop := HopOf(env, docker, instance, route, i, RouteUpstreams(route)[i]);
      assert hop.instance == instance && hop.route == route && hop.index == i;
    }
  }

  /** The visits and the edges through a proxy are exactly those of the upstreams that serve a domain. */
  lemma RoutingContributes(env: Env, docker: Docker)
    ensures ComesFrom(Routing(env, docker), env, (hop: Hop) => HopIn(env, docker, hop))
    ensures forall hop, host :: Serves(env, docker, hop, host) ==> Brings(Routing(env, docker), env, hop, host)
  {
    var f, s := InstancePart(env, docker), SortBy(InstanceLe, docker.caddy.instances);
    SortByElements(InstanceLe, docker.caddy.instances);
    hide InstancePart, Gather, SortBy, ComesFrom, Brings, Serves;
    forall i | i in s ensures ComesFrom(f(i), env, (hop: Hop) => HopIn(env, docker, hop)) { InstanceContributes(env, docker, i); }
    GatherComesFrom(f, s, env, (hop: Hop) => HopIn(env, docker, hop));
    forall hop, host | Serves(env, docker, hop, host) ensures Brings(Gather(f, s), env, hop, host) {
      assert hop.instance in docker.caddy.instances by { ServesInstance(env, docker, hop, host); }
      InstanceContributes(env, docker, hop.instance);
      GatherBrings(f, s, hop.instance, env, hop, host);
    }
  }

  lemma ServesInstance(env: Env, docker: Docker, hop: Hop, host: string)
    requires Serves(env, docker, hop, host)
    ensures hop.instance in docker.caddy.instances
  {
  }

  lemma DockerVisitsNothing(docker: Docker)
    ensures DockerResources(docker).visits == [] && Correlations(docker).visits == []
  {
    var projects, members := Projects(docker), Members(docker);
    var byBinding := PortsByBinding(FlatMap(PublishedOf, SortedContainers(docker)));
    hide Projects, Members, SortedSet, SortBy, Gather, With, Count, PortsByBinding, FlatMap, ListenerBinding, ListenerKey;
    forall c ensures ContainerPart(projects)(c).visits == [] {
      hide ContainerNode, PortNode, PortId, MountNode, MountId;
      GatherVisitsNothing(PortPart(c), Indexed(c.ports));
      GatherVisitsNothing(MountPart(c), Indexed(c.mounts));
    }
    hide ContainerPart;
    GatherVisitsNothing(ProjectPart(docker, projects), SortedSet(projects.Keys));
    GatherVisitsNothing(ContainerPart(projects), SortedContainers(docker));
    GatherVisitsNothing(NetworkPart(docker, members), SortedSet(members.Keys));
    GatherVisitsNothing(CorrelationPart(byBinding), docker.listeners.items);
  }

  lemma VisitsExact(env: Env, d: HostDiscovery, v: Visit)
    ensures v in Routed(env, d).visits <==> exists hop :: Serves(env, d.docker, hop, v.host) && v == VisitOf(env, hop, v.host)
  {
    HostVisitsNothing(env, d);
    DockerVisitsNothing(d.docker);
    RoutingContributes(env, d.docker);
    hide HostResources, DockerResources, Correlations, Routing, HopIn, RouteHosts, VisitOf, ThroughEdge;
    assert Routed(env, d).visits == Routing(env, d.docker).visits;
  }

  // ----- what a domain node sums up -----

  ghost predicate Served(env: Env, docker: Docker, host: string) { exists hop :: Serves(env, docker, hop, host) }

  /** The seven things a domain node says about its routes. */
  datatype Aspect = RouteIds | Paths | Upstreams | Resolutions | ProxyNames | Containers | Services

  function Summed(s: Summary, a: Aspect): set<string> {
    match a
    case RouteIds => s.routeIds
    case Paths => s.paths
    case Upstreams => s.upstreams
    case Resolutions => s.resolutions
    case ProxyNames => s.proxies
    case Containers => s.targets
    case Services => s.services
  }

  /** What one upstream of a route says about the domains it serves. */
  predicate HopSays(env: Env, hop: Hop, a: Aspect, t: string) {
    match a
    case RouteIds => t == env.identity(RouteText(hop.instance, hop.route))
    case Paths => t in hop.route.paths
    case Upstreams => t == DialText(hop)
    case Resolutions => t == OutcomeName(hop)
    case ProxyNames => t == hop.instance.containerName
    case Containers => hop.resolution.container.Some? && t == hop.resolution.container.value.name
    case Services => SoleService(hop) == Some(t)
  }

  predicate VisitSays(v: Visit, a: Aspect, t: string) {
    match a
    case RouteIds => t == v.routeId
    case Paths => t in v.paths
    case Upstreams => t == v.dial
    case Resolutions => t == v.resolution
    case ProxyNames => t == v.proxy
    case Containers => v.target == Some(t)
    case Services => v.service == Some(t)
  }

  /** A summary holds what the upstreams that serve the domain say, and nothing else. */
  ghost predicate SumsHops(env: Env, docker: Docker, host: string, s: Summary) {
    forall a, t :: t in Summed(s, a) <==> exists hop :: Serves(env, docker, hop, host) && HopSays(env, hop, a, t)
  }

  lemma VisitHost(env: Env, hop: Hop, host: string)
    ensures VisitOf(env, hop, host).host == host
  {
  }

  /** The upstream behind a visit, and the visit of an upstream. */
  lemma VisitSource(env: Env, d: HostDiscovery, host: string)
    ensures forall v :: v in Routed(env, d).visits && v.host == host ==> exists hop :: Serves(env, d.docker, hop, host) && v == VisitOf(env, hop, host)
    ensures forall hop :: Serves(env, d.docker, hop, host) ==> VisitOf(env, hop, host) in Routed(env, d).visits && VisitOf(env, hop, host).host == host
  {
    forall hop ensures VisitOf(env, hop, host).host == host { VisitHost(env, hop, host); }
    hide Routed, Serves, VisitOf;
    forall v | v in Routed(env, d).visits && v.host == host ensures exists hop :: Serves(env, d.docker, hop, host) && v == VisitOf(env, hop, host) {
      VisitsExact(env, d, v);
    }
    forall hop | Serves(env, d.docker, hop, host) ensures VisitOf(env, hop, host) in Routed(env, d).visits {
      VisitsExact(env, d, VisitOf(env, hop, host));
    }
  }

  lemma PathListed(route: CaddyRoute)
    ensures forall t :: t in RoutePaths(route) <==> t in route.paths
  {
    SortedSetDistinct(Elems(route.paths));
    hide SortedSet;
  }

  lemma SumsSay(visits: seq<Visit>, host: string, s: Summary, a: Aspect, t: string)
    requires Sums(visits, host, s)
    ensures t in Summed(s, a) <==> exists v :: v in visits && v.host == host && VisitSays(v, a, t)
  {
    match a
    case RouteIds =>
    case Paths =>
    case Upstreams =>
    case Resolutions =>
    case ProxyNames =>
    case Containers =>
    case Services =>
  }

  lemma VisitOfSays(env: Env, hop: Hop, host: string, a: Aspect, t: string)
    ensures VisitSays(VisitOf(env, hop, host), a, t) <==> HopSays(env, hop, a, t)
  {
    PathListed(hop.route);
    hide RoutePaths, RouteText, DialText, OutcomeName, SoleService;
  }

  lemma HopsSummed(env: Env, d: HostDiscovery, host: string, s: Summary)
    requires Sums(Routed(env, d).visits, host, s)
    ensures SumsHops(env, d.docker, host, s)
  {
    VisitSource(env, d, host);
    hide Routed, Serves, VisitOf, VisitSays, HopSays, Summed, Sums;
    var visits := Routed(env, d).visits;
    forall a, t ensures t in Summed(s, a) <==> exists hop :: Serves(env, d.docker, hop, host) && HopSays(env, hop, a, t) {
      SumsSay(visits, host, s, a, t);
      forall hop ensures VisitSays(VisitOf(env, hop, host), a, t) <==> HopSays(env, hop, a, t) { VisitOfSays(env, hop, host, a, t); }
    }
  }

  /** The graph has a node for a domain exactly when Docker is reachable and some route serves the domain. */
  lemma DomainShownExactly(env: Env, d: HostDiscovery, host: string)
    ensures (exists n :: n in GraphOf(env, d).nodes && n.id == DomainRef(host)) <==> d.docker.state == AVAILABLE && Served(env, d.docker, host)
  {
    hide GraphOf, Served, Serves, SumsHops, DomainNode;
    GraphTyped(env, d);
    if d.docker.state == AVAILABLE && Served(env, d.docker, host) { ServedShown(env, d, host); }
    if n :| n in GraphOf(env, d).nodes && n.id == DomainRef(host) {
      var h, s := DomainSummarised(env, d, n);
    }
  }

  lemma ServedShown(env: Env, d: HostDiscovery, host: string)
    requires d.docker.state == AVAILABLE && Served(env, d.docker, host)
    ensures exists n :: n in GraphOf(env, d).nodes && n.id == DomainRef(host)
  {
    hide Routed, Serves, Domains, VisitOf, Summaries, Sums, DomainNode;
    var visits := Routed(env, d).visits;
    VisitSource(env, d, host);
    SummariesExact(visits, host);
    DomainNodeListed(visits, host);
    DomainNamed(host, Summaries(visits)[host]);
    assert DomainNode(host, Summaries(visits)[host]) in GraphOf(env, d).nodes;
  }

  lemma DomainNodeListed(visits: seq<Visit>, host: string)
    requires host in Summaries(visits)
    ensures DomainNode(host, Summaries(visits)[host]) in Domains(visits).nodes
  {
    var domains := Summaries(visits);
    hide Summaries, DomainNode, Gather, SortedSet;
    GatherNodes(DomainNodePart(domains), SortedSet(domains.Keys), host, DomainNode(host, domains[host]));
  }

  lemma DomainNamed(host: string, s: Summary)
    ensures DomainNode(host, s).id == DomainRef(host)
  {
    hide Listed, Overall, SortedSet;
  }

  lemma {:induction false} GatherNodeOrigin<T>(f: T -> Part, s: seq<T>, n: RefNode) returns (x: T)
    requires n in Gather(f, s).nodes
    ensures x in s && n in f(x).nodes
  {
    var k := |s| - 1;
    assert s == s[..k] + [s[k]];
    if n in f(s[k]).nodes { x := s[k]; } else { x := GatherNodeOrigin(f, s[..k], n); }
  }

  lemma DomainNodeOrigin(visits: seq<Visit>, n: RefNode) returns (host: string)
    requires n in Domains(visits).nodes
    ensures host in Summaries(visits) && n == DomainNode(host, Summaries(visits)[host])
  {
    var domains := Summaries(visits);
    hide Summaries, DomainNode, Gather, SortedSet;
    host := GatherNodeOrigin(DomainNodePart(domains), SortedSet(domains.Keys), n);
  }

  /**
    A domain node of the graph shows the summary of everything that the upstreams serving the domain say: their
    routes, paths, addresses, outcomes, proxies, containers and services.
   */
  lemma DomainSummarised(env: Env, d: HostDiscovery, n: RefNode) returns (host: string, s: Summary)
    requires n in GraphOf(env, d).nodes && n.nodeType == DOMAIN
    ensures n == DomainNode(host, s) && n.id == DomainRef(host)
    ensures d.docker.state == AVAILABLE && Served(env, d.docker, host) && SumsHops(env, d.docker, host, s)
  {
    HostResourcesTyped(env, d);
    TypedNodes(HostResources(env, d), false);
    RoutedTyped(env, d);
    TypedNodes(Routed(env, d), false);
    hide Typed, HostResources, Routed, Serves, SumsHops, Sums, Domains;
    var visits := Routed(env, d).visits;
    host := DomainNodeOrigin(visits, n);
    s := Summaries(visits)[host];
    DomainNamed(host, s);
    SummariesExact(visits, host);
    HopsSummed(env, d, host, s);
    VisitSource(env, d, host);
  }

  // ----- the routes that a domain node counts -----

  /** The routes on the edges that lead from a domain through a proxy. */
  ghost function RoutesThrough(p: Part, host: string): set<string> {
    set e | e in p.edges && e.relation == ROUTES_THROUGH && e.source == DomainRef(host) && e.id.RouteLink? :: e.id.route
  }

  lemma InRouting(env: Env, d: HostDiscovery, e: RefEdge)
    requires d.docker.state == AVAILABLE && e.relation == ROUTES_THROUGH
    ensures e in GraphOf(env, d).edges <==> e in Routing(env, d.docker).edges
  {
    hide DockerResources, Correlations, Routing, Domains, GraphAccounting.Uses, HostResources;
    DockerUses(d.docker);
    CorrelationsUse(d.docker);
    DomainsUse(Routed(env, d).visits);
    HostUses(env, d);
    UsedRelations(DockerResources(d.docker), DockerRelations);
    UsedRelations(Correlations(d.docker), {PUBLISHED_AS});
    UsedRelations(Domains(Routed(env, d).visits), {});
    UsedRelations(HostResources(env, d), ResourceRelations);
  }

  /** The first upstream of the same route, which draws the edge through the proxy. */
  lemma FirstUpstream(env: Env, docker: Docker, hop: Hop, host: string) returns (first: Hop)
    requires Serves(env, docker, hop, host)
    ensures Serves(env, docker, first, host) && first.index == 0 && first.instance == hop.instance && first.route == hop.route
  {
    first := HopOf(env, docker, hop.instance, hop.route, 0, RouteUpstreams(hop.route)[0]);
    hide RouteHosts, RouteUpstreams, Resolve, ResolveHost;
  }

  lemma ThroughFacts(hop: Hop, host: string)
    ensures var e := ThroughEdge(hop, host);
      e.relation == ROUTES_THROUGH && e.source == DomainRef(host) && e.id == RouteLink(host, RouteText(hop.instance, hop.route), e.target)
  {
    hide RouteText;
  }

  lemma RoutesThroughExact(env: Env, d: HostDiscovery, host: string, t: string)
    requires d.docker.state == AVAILABLE
    ensures t in RoutesThrough(GraphOf(env, d), host) <==>
      exists hop :: Serves(env, d.docker, hop, host) && t == RouteText(hop.instance, hop.route)
  {
    RoutingContributes(env, d.docker);
    hide GraphOf, Routing, HopIn, RouteHosts, VisitOf, ThroughEdge, RouteText;
    var g := GraphOf(env, d);
    if t in RoutesThrough(g, host) {
      var e :| e in g.edges && e.relation == ROUTES_THROUGH && e.source == DomainRef(host) && e.id.RouteLink? && e.id.route == t;
      InRouting(env, d, e);
      var hop, served :| HopIn(env, d.docker, hop) && hop.index == 0 && served in RouteHosts(env, hop.route) && e == ThroughEdge(hop, served);
      ThroughFacts(hop, served);
      assert Serves(env, d.docker, hop, host);
    }
    if hop :| Serves(env, d.docker, hop, host) && t == RouteText(hop.instance, hop.route) {
      var first := FirstUpstream(env, d.docker, hop, host);
      ThroughFacts(first, host);
      InRouting(env, d, ThroughEdge(first, host));
      assert Brings(Routing(env, d.docker), env, first, host);
    }
  }

  lemma {:induction false} ImageSize(f: string -> string, a: set<string>, b: set<string>)
    requires (forall x, y :: f(x) == f(y) ==> x == y) && b == set x | x in a :: f(x)
    ensures |a| == |b|
  {
    if a != {} {
      var x :| x in a;
      ImageSize(f, a - {x}, b - {f(x)});
    }
  }

  lemma RouteCountShown(host: string, s: Summary)
    ensures var n := DomainNode(host, s); "route count" in n.metadata && n.metadata["route count"] == Decimal(|s.routeIds|)
  {
    hide Overall, SortedSet;
    var counted := map["domain" := host, "route count" := Decimal(|s.routeIds|)];
    assert "route count" != "paths" && "route count" != "resolution";
  }

  lemma SummedRoutes(env: Env, d: HostDiscovery, host: string, s: Summary)
    requires d.docker.state == AVAILABLE && SumsHops(env, d.docker, host, s)
    ensures s.routeIds == set t | t in RoutesThrough(GraphOf(env, d), host) :: env.identity(t)
  {
    hide GraphOf, Serves, RoutesThrough, RouteText;
    var routes := RoutesThrough(GraphOf(env, d), host);
    forall x | x in s.routeIds ensures exists t :: t in routes && env.identity(t) == x {
      assert x in Summed(s, RouteIds);
      var hop :| Serves(env, d.docker, hop, host) && HopSays(env, hop, RouteIds, x);
      RoutesThroughExact(env, d, host, RouteText(hop.instance, hop.route));
    }
    forall t | t in routes ensures env.identity(t) in s.routeIds {
      RoutesThroughExact(env, d, host, t);
      var hop :| Serves(env, d.docker, hop, host) && t == RouteText(hop.instance, hop.route);
      assert HopSays(env, hop, RouteIds, env.identity(t));
      assert env.identity(t) in Summed(s, RouteIds);
    }
  }

  /** The "route count" of a domain node is the number of routes on its edges through proxies, in the whole graph. */
  lemma RouteCounts(env: Env, d: HostDiscovery, n: RefNode) returns (host: string)
    requires IsIdentity(env.identity) && n in GraphOf(env, d).nodes && n.nodeType == DOMAIN
    ensures n.id == DomainRef(host) && "route count" in n.metadata
    ensures n.metadata["route count"] == Decimal(|RoutesThrough(GraphOf(env, d), host)|)
  {
    hide GraphOf, DomainNode, SumsHops, RoutesThrough, Served;
    var s: Summary;
    host, s := DomainSummarised(env, d, n);
    RouteCountShown(host, s);
    SummedRoutes(env, d, host, s);
    ImageSize(env.identity, RoutesThrough(GraphOf(env, d), host), s.routeIds);
  }
}

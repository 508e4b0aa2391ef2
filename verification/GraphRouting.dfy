/** Caddy routes in the graph: how upstreams resolve, and the parts, visits and domains they contribute. */
module GraphRouting {
  import opened Ordering
  import opened Collections
  import opened Graphs
  import opened Texts
  import opened Discovery
  import opened GraphIds
  import opened GraphSpec

  // ----- resolving an upstream to a container -----

  datatype ResolutionState = RESOLVED | UNRESOLVED | AMBIGUOUS | HOST_TARGET | DYNAMIC

  datatype Resolution = Resolution(
    state: ResolutionState, dial: Option<Dial>, container: Option<Container>,
    matchingReason: Option<string>, sharedNetwork: Option<string>)

  function StateName(s: ResolutionState): string {
    match s
    case RESOLVED => "RESOLVED"
    case UNRESOLVED => "UNRESOLVED"
    case AMBIGUOUS => "AMBIGUOUS"
    case HOST_TARGET => "HOST_TARGET"
    case DYNAMIC => "DYNAMIC"
  }

  function Plain(state: ResolutionState, dial: Option<Dial>): Resolution { Resolution(state, dial, None, None, None) }

  function HasId(id: string): Container -> bool { (c: Container) => c.id == id }

  function Named(host: string): Container -> bool { (c: Container) => Lower(c.name) == Lower(host) }

  function Serving(host: string): Container -> bool {
    (c: Container) => c.compose.Some? && c.compose.value.service.Some? && Lower(c.compose.value.service.value) == Lower(host)
  }

  predicate OpensPort(c: Container, port: nat) {
    exists p :: p in c.ports && Lower(p.protocol) == "tcp" && ToInt(p.containerPort) == Some(port as int)
  }

  function OpensPortOf(port: nat): Container -> bool { (c: Container) => OpensPort(c, port) }

  /** The first network in alphabetical order that a candidate shares with the proxy. */
  function SharedNetwork(proxy: Container): Container -> Option<(Container, string)> {
    (c: Container) =>
      var shared := (set n | n in c.networks && n in proxy.networks);
      if shared == {} then None else Some((c, SortedSet(shared)[0]))
  }

  function Select(candidates: seq<Container>, proxy: Container, dial: Dial, reason: string): Resolution {
    var reachable := FilterMap(SharedNetwork(proxy), Filter(OpensPortOf(dial.port), candidates));
    if reachable == [] then Plain(UNRESOLVED, Some(dial))
    else if |reachable| > 1 then Plain(AMBIGUOUS, Some(dial))
    else
      var (container, network) := reachable[0];
      Resolution(RESOLVED, Some(dial), Some(container), Some(reason + " on shared network " + network), Some(network))
  }

  /** `CaddyUpstreamResolver.resolve` */
  function Resolve(env: Env, instance: CaddyInstance, upstream: CaddyUpstream, docker: Docker): Resolution {
    if upstream.source != STATIC || upstream.dial.None? then Plain(UNRESOLVED, None)
    else match env.parseDial(upstream.dial.value)
      case None => Plain(UNRESOLVED, None)
      case Some(dial) =>
        if dial.kind == HOST_TARGET_DIAL then Resolution(HOST_TARGET, Some(dial), None, Some("Docker host target"), None)
        else if dial.kind != DOCKER_NAME then Plain(UNRESOLVED, Some(dial))
        else
          var proxies := Filter(HasId(instance.containerId), docker.containers);
          if |proxies| != 1 then Plain(UNRESOLVED, Some(dial))
          else
            var exact, serving := Filter(Named(dial.host), docker.containers), Filter(Serving(dial.host), docker.containers);
            if exact != [] then Select(exact, proxies[0], dial, "Exact container name and TCP port")
            else if serving != [] then Select(serving, proxies[0], dial, "Unique Compose service and TCP port")
            else Plain(UNRESOLVED, Some(dial))
  }

  // ----- resolving the host itself -----

  datatype HostState = HOST_TARGET_ONLY | HOST_LISTENER_FOUND | HOST_SERVICE | HOST_AMBIGUOUS | HOST_PARTIAL

  datatype HostResolution = HostResolution(state: HostState, listeners: seq<Listener>, services: seq<Service>)

  function HostStateName(s: HostState): string {
    match s
    case HOST_TARGET_ONLY => "HOST_TARGET"
    case HOST_LISTENER_FOUND => "HOST_LISTENER"
    case HOST_SERVICE => "HOST_SERVICE"
    case HOST_AMBIGUOUS => "HOST_AMBIGUOUS"
    case HOST_PARTIAL => "HOST_PARTIAL"
  }

  /** The state's name without its "HOST_" prefix. */
  function TargetKind(s: HostState): string { HostStateName(s)[5..] }

  function HostReason(s: HostState): string {
    match s
    case HOST_SERVICE => "Non-loopback TCP listeners share one Systemd owner."
    case HOST_LISTENER_FOUND => "Eligible host listeners lack deterministic Systemd ownership."
    case HOST_AMBIGUOUS => "Eligible host listeners do not identify one deterministic Systemd owner."
    case HOST_PARTIAL => "Listener discovery is incomplete."
    case HOST_TARGET_ONLY => "No eligible non-loopback TCP listener was discovered."
  }

  function Eligible(port: nat): Listener -> bool { (l: Listener) => l.protocol == "tcp" && l.port == port && !l.loopback }

  predicate ListenerLe(a: Listener, b: Listener) {
    if a.protocol != b.protocol then StringLe(a.protocol, b.protocol)
    else if a.localAddress != b.localAddress then StringLe(a.localAddress, b.localAddress)
    else a.port <= b.port
  }

  function OwnerAmong(services: map<string, Service>): Listener -> Option<Service> {
    (l: Listener) => if OwnedBySystemd(l) && l.systemdUnit.value in services then Some(services[l.systemdUnit.value]) else None
  }

  predicate ServiceLe(a: Service, b: Service) { StringLe(a.unit, b.unit) }

  predicate HasKey<T(==), K(==)>(key: T -> K, s: seq<T>, k: K) { exists x :: x in s && key(x) == k }

  /** `distinctBy`: the first element of every key. */
  function DistinctBy<T(==), K(==)>(key: T -> K, s: seq<T>): seq<T> {
    if s == [] then []
    else
      var front, last := DistinctBy(key, s[..|s| - 1]), s[|s| - 1];
      if HasKey(key, front, key(last)) then front else front + [last]
  }

  /** `HostTargetResolver.resolve` */
  function ResolveHost(dial: Dial, systemd: Systemd, listeners: Listeners): HostResolution {
    if dial.kind != HOST_TARGET_DIAL then HostResolution(HOST_TARGET_ONLY, [], [])
    else
      var eligible := SortBy(ListenerLe, Filter(Eligible(dial.port), listeners.items));
      if listeners.state == UNKNOWN && listeners.items == [] then HostResolution(HOST_TARGET_ONLY, [], [])
      else if listeners.state != DISCOVERED then HostResolution(HOST_PARTIAL, eligible, [])
      else if eligible == [] then HostResolution(HOST_TARGET_ONLY, [], [])
      else
        var owned := FilterMap(OwnerAmong(AssociateBy(UnitOf, systemd.services)), eligible);
        var owners := SortBy(ServiceLe, DistinctBy(UnitOf, owned));
        if owners == [] then HostResolution(HOST_LISTENER_FOUND, eligible, [])
        else if |owned| < |eligible| || |owners| > 1 then HostResolution(HOST_AMBIGUOUS, eligible, owners)
        else HostResolution(HOST_SERVICE, eligible, owners)
  }

  // ----- routes -----

  function Alphabetical(s: seq<string>): seq<string> { SortBy(StringLe, s) }

  predicate UpstreamLe(a: CaddyUpstream, b: CaddyUpstream) { StringLe(UpstreamKey(a), UpstreamKey(b)) }

  /** `canonicalKey` of a route. */
  function RouteKey(r: CaddyRoute): string {
    Join("|", [
      Join(",", Alphabetical(r.hosts)), Join(",", Alphabetical(r.paths)), BoolText(r.hostless), BoolText(r.hostMatcherUnresolved),
      Join(",", Map(UpstreamKeyOf, SortBy(UpstreamLe, r.upstreams))), BoolText(r.dynamicUpstreams)])
  }

  const RouteKeyOf := (r: CaddyRoute) => RouteKey(r)

  predicate RouteLe(a: CaddyRoute, b: CaddyRoute) { StringLe(RouteKey(a), RouteKey(b)) }

  predicate InstanceLe(a: CaddyInstance, b: CaddyInstance) {
    KeysLe([a.containerName, a.containerId], [b.containerName, b.containerId])
  }

  function RouteText(instance: CaddyInstance, route: CaddyRoute): string { instance.containerId + "|" + RouteKey(route) }

  function RouteHosts(env: Env, route: CaddyRoute): seq<string> {
    SortedSet(Elems(FilterMap(env.normalizeDomain, route.hosts)))
  }

  function RoutePaths(route: CaddyRoute): seq<string> { SortedSet(Elems(route.paths)) }

  function RouteUpstreams(route: CaddyRoute): seq<CaddyUpstream> {
    var listed := route.upstreams + if route.dynamicUpstreams then [CaddyUpstream(Some("dynamic"), UNRESOLVED_SOURCE)] else [];
    if listed == [] then [CaddyUpstream(None, UNRESOLVED_SOURCE)] else listed
  }

  /** One upstream of one route of one proxy, with what it resolves to. */
  datatype Hop = Hop(
    instance: CaddyInstance, route: CaddyRoute, index: nat, upstream: CaddyUpstream,
    resolution: Resolution, host: Option<HostResolution>)

  function HopOf(env: Env, docker: Docker, instance: CaddyInstance, route: CaddyRoute, index: nat, upstream: CaddyUpstream): Hop {
    var resolution :=
      if route.dynamicUpstreams && upstream.dial == Some("dynamic") then Plain(DYNAMIC, None)
      else Resolve(env, instance, upstream, docker);
    var host :=
      if resolution.dial.Some? && resolution.state == HOST_TARGET
      then Some(ResolveHost(resolution.dial.value, docker.systemd, docker.listeners)) else None;
    Hop(instance, route, index, upstream, resolution, host)
  }

  function DialText(hop: Hop): string {
    if hop.resolution.state == DYNAMIC then "Dynamic upstream"
    else if hop.upstream.dial.Some? then hop.upstream.dial.value
    else "Unresolved upstream"
  }

  function OutcomeName(hop: Hop): string {
    if hop.host.Some? then HostStateName(hop.host.value.state) else StateName(hop.resolution.state)
  }

  function SoleService(hop: Hop): Option<string> {
    if hop.host.Some? && |hop.host.value.services| == 1 then Some(hop.host.value.services[0].unit) else None
  }

  function HopId(hop: Hop): NodeRef {
    UpstreamRef(hop.instance.containerId, RouteText(hop.instance, hop.route), Decimal(hop.index) + ":" + UpstreamKey(hop.upstream))
  }

  function HostMetadata(m: map<string, string>, hop: Hop): map<string, string> {
    if hop.host.None? || hop.resolution.dial.None? then m
    else
      var host := hop.host.value;
      var known := m[
        "host resolution" := HostStateName(host.state)][
        "target kind" := TargetKind(host.state)][
        "matching port" := Decimal(hop.resolution.dial.value.port) + "/tcp"][
        "host resolution reason" := HostReason(host.state)];
      var listed := Listed(With(known, "host service", SoleService(hop)), "eligible listeners", Map(ListenerTitleOf, host.listeners));
      if |host.services| > 1 then listed["candidate services" := Join(", ", Map(UnitOf, host.services))] else listed
  }

  function ContainerMetadata(m: map<string, string>, container: Option<Container>): map<string, string> {
    if container.None? then m
    else
      var c := container.value;
      var named := m["container" := c.name];
      var compose := if c.compose.None? then named
        else With(With(named, "compose project", c.compose.value.project), "compose service", c.compose.value.service);
      With(compose, "container state", c.state)
  }

  function HopNode(env: Env, hop: Hop): RefNode {
    var base := HostMetadata(map["dial" := DialText(hop), "resolution" := StateName(hop.resolution.state)], hop);
    var route := base[
      "route id" := env.identity(RouteText(hop.instance, hop.route))][
      "backend set size" := Decimal(|RouteUpstreams(hop.route)|)];
    var matched := Listed(Listed(route, "domains", RouteHosts(env, hop.route)), "paths", RoutePaths(hop.route));
    RefNode(HopId(hop), DialText(hop), UPSTREAM,
      ContainerMetadata(
        With(With(matched, "matching reason", hop.resolution.matchingReason), "shared network", hop.resolution.sharedNetwork),
        hop.resolution.container))
  }

  // ----- parts -----

  function TargetPart(hop: Hop): Listener -> Part {
    (l: Listener) => Part([], [LinkOf(HopId(hop), Targets, ListenerRef(ListenerKey(l)), TARGETS)], [])
  }

  function RouteEdge(hop: Hop, host: string, target: NodeRef, relation: RelationType): RefEdge {
    RefEdge(RouteLink(host, RouteText(hop.instance, hop.route), target), DomainRef(host), target, relation)
  }

  function VisitOf(env: Env, hop: Hop, host: string): Visit {
    Visit(host, env.identity(RouteText(hop.instance, hop.route)), RoutePaths(hop.route), DialText(hop), OutcomeName(hop),
      hop.instance.containerName,
      if hop.resolution.container.Some? then Some(hop.resolution.container.value.name) else None, SoleService(hop))
  }

  /** A domain served by a route: it is routed through the proxy once, and to every upstream. */
  function DomainPart(env: Env, hop: Hop): string -> Part {
    (host: string) =>
      Part([],
        (if hop.index == 0 then [RouteEdge(hop, host, ProxyRef(hop.instance.containerId), ROUTES_THROUGH)] else [])
          + [RouteEdge(hop, host, HopId(hop), ROUTES_TO)],
        [VisitOf(env, hop, host)])
  }

  function KnownContainer(docker: Docker, id: string): bool { exists c :: c in docker.containers && c.id == id }

  function HopPart(env: Env, docker: Docker, instance: CaddyInstance, route: CaddyRoute): ((nat, CaddyUpstream)) -> Part {
    (u: (nat, CaddyUpstream)) =>
      var hop := HopOf(env, docker, instance, route, u.0, u.1);
      Plus(Plus(HopHead(env, docker, hop), HopTargets(hop)), Gather(DomainPart(env, hop), RouteHosts(env, route)))
  }

  function HopHead(env: Env, docker: Docker, hop: Hop): Part {
    Part([HopNode(env, hop)], [LinkOf(ProxyRef(hop.instance.containerId), Proxies, HopId(hop), PROXIES_TO)] + Resolving(docker, hop), [])
  }

  /** The edge to the container an upstream resolves to. */
  function Resolving(docker: Docker, hop: Hop): seq<RefEdge> {
    var container := hop.resolution.container;
    if container.Some? && KnownContainer(docker, container.value.id)
    then [LinkOf(HopId(hop), Resolves, ContainerRef(container.value.id), RESOLVES_TO)] else []
  }

  function HopTargets(hop: Hop): Part {
    if hop.host.Some? then Gather(TargetPart(hop), hop.host.value.listeners) else EmptyPart
  }

  function RoutePart(env: Env, docker: Docker, instance: CaddyInstance): CaddyRoute -> Part {
    (route: CaddyRoute) => Gather(HopPart(env, docker, instance, route), Indexed(RouteUpstreams(route)))
  }

  const HostsOf := (r: CaddyRoute) => r.hosts

  function ProxyNode(env: Env, instance: CaddyInstance): RefNode {
    var domains := Elems(FilterMap(env.normalizeDomain, FlatMap(HostsOf, instance.routes)));
    var metadata := map[
      "proxy" := "Caddy", "container name" := instance.containerName, "discovery status" := CaddyStateName(instance.state),
      "route count" := Decimal(|instance.routes|), "domain count" := Decimal(|domains|)];
    RefNode(ProxyRef(instance.containerId), instance.containerName, REVERSE_PROXY, With(metadata, "image", instance.image))
  }

  function ProxyPart(env: Env, docker: Docker, instance: CaddyInstance): Part {
    Part([ProxyNode(env, instance)],
      if KnownContainer(docker, instance.containerId)
      then [LinkOf(ContainerRef(instance.containerId), Runs, ProxyRef(instance.containerId), RUNS)] else [], [])
  }

  function InstancePart(env: Env, docker: Docker): CaddyInstance -> Part {
    (instance: CaddyInstance) =>
      Plus(ProxyPart(env, docker, instance), Gather(RoutePart(env, docker, instance), SortBy(RouteLe, instance.routes)))
  }

  // ----- domains -----

  datatype Summary = Summary(
    routeIds: set<string>, paths: set<string>, upstreams: set<string>, resolutions: set<string>,
    proxies: set<string>, targets: set<string>, services: set<string>)

  const EmptySummary := Summary({}, {}, {}, {}, {}, {}, {})

  function OptionSet(o: Option<string>): set<string> { if o.Some? then {o.value} else {} }

  function Extend(s: Summary, v: Visit): Summary {
    Summary(s.routeIds + {v.routeId}, s.paths + Elems(v.paths), s.upstreams + {v.dial}, s.resolutions + {v.resolution},
      s.proxies + {v.proxy}, s.targets + OptionSet(v.target), s.services + OptionSet(v.service))
  }

  function AddVisit(domains: map<string, Summary>, v: Visit): map<string, Summary> {
    domains[v.host := Extend(if v.host in domains then domains[v.host] else EmptySummary, v)]
  }

  /** The domain summaries after a list of visits. */
  function Summaries(visits: seq<Visit>): map<string, Summary> {
    if visits == [] then map[] else AddVisit(Summaries(visits[..|visits| - 1]), visits[|visits| - 1])
  }

  function Overall(resolutions: set<string>): string {
    if |resolutions| == 1 then SortedSet(resolutions)[0]
    else if "AMBIGUOUS" in resolutions then "AMBIGUOUS"
    else if "UNRESOLVED" in resolutions || resolutions == {} then "UNRESOLVED"
    else "MIXED"
  }

  function DomainNode(host: string, s: Summary): RefNode {
    var counted := map["domain" := host, "route count" := Decimal(|s.routeIds|)];
    var resolved := Listed(counted, "paths", SortedSet(s.paths))["resolution" := Overall(s.resolutions)];
    var routed := Listed(Listed(resolved, "upstreams", SortedSet(s.upstreams)), "caddy instance", SortedSet(s.proxies));
    RefNode(DomainRef(host), host, DOMAIN,
      Listed(Listed(routed, "resolved containers", SortedSet(s.targets)), "resolved host services", SortedSet(s.services)))
  }

  function DomainNodePart(domains: map<string, Summary>): string -> Part {
    (host: string) => if host in domains then Part([DomainNode(host, domains[host])], [], []) else EmptyPart
  }

  // ----- the whole graph -----

  function HostResources(env: Env, d: HostDiscovery): Part {
    Plus(Plus(HostPart(env, d.host, d.docker), Gather(ServicePart(d.docker), d.docker.systemd.services)),
      Gather(ListenerPart(d.docker), d.docker.listeners.items))
  }

  function DockerResources(docker: Docker): Part {
    var projects, members := Projects(docker), Members(docker);
    Plus(Plus(
        Gather(ProjectPart(docker, projects), SortedSet(projects.Keys)),
        Gather(ContainerPart(projects), SortedContainers(docker))),
      Gather(NetworkPart(docker, members), SortedSet(members.Keys)))
  }

  function Correlations(docker: Docker): Part {
    Gather(CorrelationPart(PortsByBinding(FlatMap(PublishedOf, SortedContainers(docker)))), docker.listeners.items)
  }

  function Routing(env: Env, docker: Docker): Part { Gather(InstancePart(env, docker), SortBy(InstanceLe, docker.caddy.instances)) }

  function Domains(visits: seq<Visit>): Part {
    var domains := Summaries(visits);
    Gather(DomainNodePart(domains), SortedSet(domains.Keys))
  }

  /** Everything a reachable Docker engine adds, apart from the domains. */
  function Routed(env: Env, d: HostDiscovery): Part {
    Plus(Plus(Plus(HostResources(env, d), DockerResources(d.docker)), Correlations(d.docker)), Routing(env, d.docker))
  }

  /** `create`, before identifiers are written out as text. */
  function GraphOf(env: Env, d: HostDiscovery): Part {
    if d.docker.state != AVAILABLE then HostResources(env, d)
    else Plus(Routed(env, d), Domains(Routed(env, d).visits))
  }

  function TextNode(env: Env, server: string): RefNode -> InfraNode {
    (n: RefNode) => InfraNode(NodeText(env.identity, server, n.id), n.title, n.nodeType, n.metadata)
  }

  function TextEdge(env: Env, server: string): RefEdge -> InfraEdge {
    (e: RefEdge) => InfraEdge(EdgeText(env.identity, server, e.id),
      NodeText(env.identity, server, e.source), NodeText(env.identity, server, e.target), e.relation)
  }

  function Written(env: Env, host: HostInfo, part: Part): InfraGraph {
    var server := ServerText(env, host);
    InfraGraph(Map(TextNode(env, server), part.nodes), Map(TextEdge(env, server), part.edges))
  }
}

/**
  The graph of one host discovery, as the list of parts it consists of.

  Every part contributes nodes, edges and visits of domains; `GraphFactory` shows that the nested
  loops build exactly this graph.
 */
module GraphSpec {
  import opened Ordering
  import opened Collections
  import opened Graphs
  import opened Texts
  import opened Discovery
  import opened GraphIds

  datatype RefNode = RefNode(id: NodeRef, title: string, nodeType: NodeType, metadata: map<string, string>)

  datatype RefEdge = RefEdge(id: EdgeRef, source: NodeRef, target: NodeRef, relation: RelationType)

  /** One route of one proxy that serves a domain through one upstream. */
  datatype Visit = Visit(
    host: string, routeId: string, paths: seq<string>, dial: string, resolution: string,
    proxy: string, target: Option<string>, service: Option<string>)

  datatype Part = Part(nodes: seq<RefNode>, edges: seq<RefEdge>, visits: seq<Visit>)

  const EmptyPart := Part([], [], [])

  function Plus(a: Part, b: Part): Part { Part(a.nodes + b.nodes, a.edges + b.edges, a.visits + b.visits) }

  /** The parts of all elements, in order. */
  function Gather<T>(f: T -> Part, s: seq<T>): Part {
    if s == [] then EmptyPart else Plus(Gather(f, s[..|s| - 1]), f(s[|s| - 1]))
  }

  lemma GatherStep<T>(f: T -> Part, s: seq<T>, k: nat)
    requires k < |s|
    ensures Gather(f, s[..k + 1]) == Plus(Gather(f, s[..k]), f(s[k]))
  {
    assert s[..k + 1][..k] == s[..k];
  }

  /** `groupBy`, with the values of a key in order. */
  function GroupBy<K, V>(pairs: seq<(K, V)>): map<K, seq<V>> {
    if pairs == [] then map[]
    else
      var groups := GroupBy(pairs[..|pairs| - 1]);
      AddTo(groups, pairs[|pairs| - 1].0, pairs[|pairs| - 1].1)
  }

  function Group<K, V>(groups: map<K, seq<V>>, key: K): seq<V> { if key in groups then groups[key] else [] }

  function AddTo<K, V>(groups: map<K, seq<V>>, key: K, value: V): map<K, seq<V>> {
    groups[key := Group(groups, key) + [value]]
  }

  /** A dial address and an upstream as they parse; normalising text is left to the environment. */
  datatype DialKind = DOCKER_NAME | HOST_TARGET_DIAL | LOOPBACK | IP_ADDRESS

  datatype Dial = Dial(host: string, port: nat, kind: DialKind)

  datatype Env = Env(
    target: Target,
    identity: string -> string,
    normalizeDomain: string -> Option<string>,
    parseDial: string -> Option<Dial>)

  function LinkOf(source: NodeRef, verb: Verb, target: NodeRef, relation: RelationType): RefEdge {
    RefEdge(Link(source, verb, target), source, target, relation)
  }

  function With(m: map<string, string>, key: string, value: Option<string>): map<string, string> {
    if value.Some? then m[key := value.value] else m
  }

  function Listed(m: map<string, string>, key: string, values: seq<string>): map<string, string> {
    if values == [] then m else m[key := Join(", ", values)]
  }

  // ----- host -----

  function Present(values: seq<Option<string>>): seq<string> { FilterMap((v: Option<string>) => v, values) }

  function ServerText(env: Env, host: HostInfo): string {
    env.target.host + ":" + Decimal(env.target.port) + ":" + env.target.username + ":" + host.hostname
  }

  function ServerNode(env: Env, host: HostInfo, docker: Docker): RefNode {
    var identity := map["hostname" := host.hostname, "ssh host" := env.target.host, "ssh username" := env.target.username];
    var system := With(With(identity, "operating system", host.osName), "os version", host.osVersion);
    var kernel := if host.kernelName.None? then None else Some(Join(" ", Present([host.kernelName, host.kernelVersion])));
    var machine := With(With(system, "kernel", kernel), "architecture", host.architecture);
    var states := machine[
      "systemd discovery status" := OptionalStateName(docker.systemd.state)][
      "listener discovery status" := OptionalStateName(docker.listeners.state)];
    RefNode(ServerRef, host.hostname, SERVER,
      Reasons(Reasons(states, "systemd status reasons", docker.systemd.statusReasons),
        "listener status reasons", docker.listeners.statusReasons))
  }

  function Reasons(m: map<string, string>, key: string, reasons: seq<StatusReason>): map<string, string> {
    if reasons == [] then m else m[key := Join(",", Map(ReasonName, reasons))]
  }

  function EngineNode(docker: Docker): RefNode {
    var states := map[
      "discovery status" := DockerStatusText(docker.state),
      "docker discovery state" := DockerStateName(docker.state),
      "caddy discovery status" := CaddyStatusText(docker.caddy.state),
      "caddy discovery state" := CaddyStateName(docker.caddy.state)];
    RefNode(EngineRef, if docker.state == AVAILABLE then "Docker" else "Docker unavailable", DOCKER_ENGINE,
      With(states, "docker version", docker.engineVersion))
  }

  function HostPart(env: Env, host: HostInfo, docker: Docker): Part {
    Part([ServerNode(env, host, docker), EngineNode(docker)], [LinkOf(ServerRef, Runs, EngineRef, RUNS)], [])
  }

  // ----- services and listeners -----

  predicate OwnedBySystemd(l: Listener) { l.ownership == SYSTEMD_OWNED && l.systemdUnit.Some? }

  function ListensFor(unit: string): Listener -> bool {
    (l: Listener) => OwnedBySystemd(l) && l.systemdUnit.value == unit
  }

  function ServiceNode(systemd: Systemd, s: Service, count: nat): RefNode {
    var loaded := With(With(map["unit" := s.unit], "description", s.description), "load state", s.loadState);
    var active := With(With(loaded, "active state", s.activeState), "sub state", s.subState);
    var file := With(With(active, "unit file state", s.unitFileState), "service type", s.serviceType);
    var owner := With(With(With(file, "user", s.user), "group", s.group), "control group", s.controlGroup);
    RefNode(ServiceRef(s.unit), s.unit, SYSTEMD_SERVICE,
      owner["listener count" := Decimal(count)]["discovery status" := OptionalStateName(systemd.state)])
  }

  function ServicePart(docker: Docker): Service -> Part {
    (s: Service) => Part(
      [ServiceNode(docker.systemd, s, Count(ListensFor(s.unit), docker.listeners.items))],
      [LinkOf(ServerRef, Runs, ServiceRef(s.unit), RUNS)], [])
  }

  function ListenerTitle(l: Listener): string {
    (if ':' in l.localAddress then "[" + l.localAddress + "]" else l.localAddress) + ":" + Decimal(l.port) + "/" + l.protocol
  }

  const ListenerTitleOf := (l: Listener) => ListenerTitle(l)

  function ListenerNode(listeners: Listeners, l: Listener): RefNode {
    var bind := map[
      "protocol" := l.protocol, "local address" := l.localAddress, "port" := Decimal(l.port), "bind" := ListenerTitle(l),
      "wildcard" := BoolText(l.wildcard), "loopback" := BoolText(l.loopback), "ownership state" := OwnershipName(l.ownership)];
    RefNode(ListenerRef(ListenerKey(l)), ListenerTitle(l), HOST_LISTENER,
      With(With(bind, "systemd unit", l.systemdUnit), "process name", l.processName)[
        "discovery status" := OptionalStateName(listeners.state)])
  }

  function Units(systemd: Systemd): set<string> { set s | s in systemd.services :: s.unit }

  /** A listener and, when its owning unit was discovered, the two edges between them. */
  function ListenerPart(docker: Docker): Listener -> Part {
    (l: Listener) =>
      var id := ListenerRef(ListenerKey(l));
      Part([ListenerNode(docker.listeners, l)],
        [LinkOf(ServerRef, Contains, id, CONTAINS)]
          + if OwnedBySystemd(l) && l.systemdUnit.value in Units(docker.systemd) then
              [LinkOf(ServiceRef(l.systemdUnit.value), Listens, id, LISTENS_ON),
               LinkOf(id, OwnedBy, ServiceRef(l.systemdUnit.value), OWNED_BY)]
            else [], [])
  }

  // ----- projects -----

  const ProjectName := (p: ComposeProject) => p.project

  const ContainerProject := (c: Container) =>
    if c.compose.Some? && c.compose.value.project.Some?
    then Some(ComposeProject(c.compose.value.project.value, c.compose.value.workingDirectory, c.compose.value.configFiles))
    else None

  function Projects(docker: Docker): map<string, ComposeProject> {
    AssociateBy(ProjectName, docker.composeProjects + FilterMap(ContainerProject, docker.containers))
  }

  function InProject(project: string): Container -> bool {
    (c: Container) => c.compose.Some? && c.compose.value.project == Some(project)
  }

  function ProjectPart(docker: Docker, projects: map<string, ComposeProject>): string -> Part {
    (project: string) =>
      if project !in projects then EmptyPart
      else
        var info := projects[project];
        var named := With(With(map["project" := project], "working directory", info.workingDirectory), "config files", info.configFiles);
        var count := Count(InProject(project), docker.containers);
        Part([RefNode(ProjectRef(project), project, DOCKER_COMPOSE_PROJECT, named["container count" := Decimal(count)])],
          [LinkOf(EngineRef, Contains, ProjectRef(project), CONTAINS)], [])
  }

  // ----- containers -----

  predicate ContainerLe(a: Container, b: Container) { StringLe(a.id, b.id) }

  function SortedContainers(docker: Docker): seq<Container> { SortBy(ContainerLe, docker.containers) }

  function PortTitle(p: Port): string {
    p.containerPort + "/" + p.protocol
      + if p.hostPort.Some? then " \U{2192} " + (if p.hostIp.Some? then p.hostIp.value else "host") + ":" + p.hostPort.value else " internal"
  }

  const PortTitleOf := (p: Port) => PortTitle(p)

  function MountTitle(m: Mount): string {
    (if m.name.Some? then m.name.value else if m.source.Some? then m.source.value else m.mountType) + " \U{2192} " + m.destination
  }

  const MountTitleOf := (m: Mount) => MountTitle(m)

  function ContainerNode(c: Container): RefNode {
    var short := if |c.id| <= 12 then c.id else c.id[..12];
    var state := With(With(With(map["container id" := short], "image", c.image), "state", c.state), "restart policy", c.restartPolicy);
    var compose := if c.compose.None? then state
      else With(With(state, "compose project", c.compose.value.project), "compose service", c.compose.value.service);
    RefNode(ContainerRef(c.id), c.name, DOCKER_CONTAINER,
      Listed(Listed(Listed(compose, "ports", Map(PortTitleOf, c.ports)), "networks", c.networks), "mounts", Map(MountTitleOf, c.mounts)))
  }

  function PortText(p: Port): string {
    p.containerPort + "/" + p.protocol + ":" + OrNull(p.hostIp) + ":" + OrNull(p.hostPort)
  }

  function PortId(c: Container, index: nat, p: Port): NodeRef { PortRef(c.id, Decimal(index) + ":" + PortText(p)) }

  function PortNode(id: NodeRef, p: Port): RefNode {
    var base := map["container port" := p.containerPort, "protocol" := p.protocol];
    RefNode(id, PortTitle(p), PORT,
      if p.hostPort.None? then base["exposure" := "internal only"]
      else base["host binding" := Join(":", Present([p.hostIp, p.hostPort]))]["exposure" := "published"])
  }

  function MountText(m: Mount): string {
    m.mountType + ":" + OrNull(m.source) + ":" + OrNull(m.name) + ":" + m.destination
  }

  function MountId(c: Container, index: nat, m: Mount): NodeRef { MountRef(c.id, Decimal(index) + ":" + MountText(m)) }

  function MountNode(id: NodeRef, m: Mount): RefNode {
    RefNode(id, MountTitle(m), MOUNT,
      With(With(map["type" := m.mountType], "source", m.source), "volume name", m.name)[
        "destination" := m.destination]["access" := if m.readOnly then "read-only" else "read-write"])
  }

  function PortPart(c: Container): ((nat, Port)) -> Part {
    (p: (nat, Port)) =>
      var id := PortId(c, p.0, p.1);
      Part([PortNode(id, p.1)], [LinkOf(ContainerRef(c.id), Exposes, id, EXPOSES)], [])
  }

  function MountPart(c: Container): ((nat, Mount)) -> Part {
    (m: (nat, Mount)) =>
      var id := MountId(c, m.0, m.1);
      Part([MountNode(id, m.1)], [LinkOf(ContainerRef(c.id), Mounts, id, MOUNTS)], [])
  }

  /** `forEachIndexed` */
  function Indexed<T>(s: seq<T>): (r: seq<(nat, T)>)
    ensures |r| == |s| && forall i :: 0 <= i < |s| ==> r[i] == (i, s[i])
  {
    seq(|s|, i requires 0 <= i < |s| => (i, s[i]))
  }

  function ParentPart(projects: map<string, ComposeProject>, c: Container): Part {
    var project := ContainerProject(c);
    Part([ContainerNode(c)],
      [if project.Some? && project.value.project in projects
       then LinkOf(ProjectRef(project.value.project), Contains, ContainerRef(c.id), CONTAINS)
       else LinkOf(EngineRef, Runs, ContainerRef(c.id), RUNS)], [])
  }

  function ContainerPart(projects: map<string, ComposeProject>): Container -> Part {
    (c: Container) =>
      Plus(Plus(ParentPart(projects, c), Gather(PortPart(c), Indexed(c.ports))), Gather(MountPart(c), Indexed(c.mounts)))
  }

  /** A published port and the binding it claims. */
  datatype Published = Published(id: NodeRef, port: Port)

  function PublishedPort(c: Container): ((nat, Port)) -> Option<Published> {
    (p: (nat, Port)) => if p.1.hostPort.Some? then Some(Published(PortId(c, p.0, p.1), p.1)) else None
  }

  const PublishedOf := (c: Container) => FilterMap(PublishedPort(c), Indexed(c.ports))

  // ----- networks -----

  function Uses(c: Container): seq<(string, string)> { Map((n: string) => (n, c.name), c.networks) }

  const UsesOf := (c: Container) => Uses(c)

  /** The container names on every network, in container order. */
  function Members(docker: Docker): map<string, seq<string>> { GroupBy(FlatMap(UsesOf, SortedContainers(docker))) }

  function OnNetwork(network: string): Container -> bool { (c: Container) => network in c.networks }

  function ConnectionOf(network: string): Container -> RefEdge {
    (c: Container) => LinkOf(ContainerRef(c.id), Network, NetworkRef(network), CONNECTED_TO)
  }

  function NetworkNode(members: map<string, seq<string>>, network: string): RefNode {
    RefNode(NetworkRef(network), network, NETWORK,
      map["network" := network, "connected containers" := Join(", ", SortBy(StringLe, Group(members, network)))])
  }

  function NetworkPart(docker: Docker, members: map<string, seq<string>>): string -> Part {
    (network: string) =>
      Part([NetworkNode(members, network)], Map(ConnectionOf(network), Filter(OnNetwork(network), docker.containers)), [])
  }

  // ----- published listeners -----

  datatype Binding = Binding(protocol: string, address: string, port: int)

  function Unbracketed(s: string): string {
    if |s| >= 2 && s[0] == '[' && s[|s| - 1] == ']' then s[1..|s| - 1] else s
  }

  /** `bindingKey` of a port: only a published TCP or UDP port with an address and a valid number has one. */
  function PortBinding(p: Port): Option<Binding> {
    if p.hostIp.None? || p.hostPort.None? then None
    else
      var address, port := Unbracketed(p.hostIp.value), ToInt(p.hostPort.value);
      if Trim(address) == "" || port.None? || !(1 <= port.value <= 65535) || Lower(p.protocol) !in ["tcp", "udp"] then None
      else Some(Binding(Lower(p.protocol), Lower(address), port.value))
  }

  function ListenerBinding(l: Listener): Binding { Binding(Lower(l.protocol), Lower(l.localAddress), l.port) }

  const BindingPair := (p: Published) =>
    match PortBinding(p.port) case None => None case Some(binding) => Some((binding, p.id))

  function PortsByBinding(ports: seq<Published>): map<Binding, seq<NodeRef>> { GroupBy(FilterMap(BindingPair, ports)) }

  function CorrelationPart(byBinding: map<Binding, seq<NodeRef>>): Listener -> Part {
    (l: Listener) =>
      var matches := Group(byBinding, ListenerBinding(l));
      if |matches| != 1 then EmptyPart
      else Part([], [LinkOf(matches[0], PublishedAs, ListenerRef(ListenerKey(l)), PUBLISHED_AS)], [])
  }
}

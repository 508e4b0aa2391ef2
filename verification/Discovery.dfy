/** What one scan of a host discovers. */
module Discovery {
  import opened Collections
  import opened Texts

  datatype HostInfo = HostInfo(
    hostname: string, osName: Option<string>, osVersion: Option<string>,
    kernelName: Option<string>, kernelVersion: Option<string>, architecture: Option<string>)

  datatype ComposeProject = ComposeProject(project: string, workingDirectory: Option<string>, configFiles: Option<string>)

  datatype ContainerCompose = ContainerCompose(
    project: Option<string>, service: Option<string>, workingDirectory: Option<string>, configFiles: Option<string>)

  datatype Port = Port(containerPort: string, protocol: string, hostIp: Option<string>, hostPort: Option<string>)

  datatype Mount = Mount(mountType: string, source: Option<string>, destination: string, name: Option<string>, readOnly: bool)

  datatype Container = Container(
    id: string, name: string, image: Option<string>, state: Option<string>, restartPolicy: Option<string>,
    compose: Option<ContainerCompose>, ports: seq<Port>, mounts: seq<Mount>, networks: seq<string>)

  datatype DockerState = AVAILABLE | HELPER_NOT_INSTALLED | HELPER_NOT_AUTHORIZED | DOCKER_UNAVAILABLE | SCAN_FAILED

  datatype CaddyState =
    | NOT_DETECTED | CADDY_DISCOVERED | CONFIG_MOUNT_MISSING | CONFIG_UNAVAILABLE | CONFIG_TOO_LARGE
    | CONFIG_INVALID | CADDY_PARTIAL | CADDY_AMBIGUOUS | CADDY_MALFORMED | CADDY_UNKNOWN

  datatype UpstreamSource = STATIC | UNRESOLVED_SOURCE

  datatype CaddyUpstream = CaddyUpstream(dial: Option<string>, source: UpstreamSource)

  datatype CaddyRoute = CaddyRoute(
    hosts: seq<string>, paths: seq<string>, hostless: bool, hostMatcherUnresolved: bool,
    upstreams: seq<CaddyUpstream>, dynamicUpstreams: bool)

  datatype CaddyInstance = CaddyInstance(
    containerId: string, containerName: string, image: Option<string>, state: CaddyState, routes: seq<CaddyRoute>)

  datatype Caddy = Caddy(state: CaddyState, instances: seq<CaddyInstance>)

  datatype OptionalState = DISCOVERED | PARTIAL | NOT_AVAILABLE | NOT_SYSTEMD | COMMAND_FAILED | MALFORMED | UNKNOWN

  datatype StatusReason =
    | REASON_COMMAND_FAILED | TRUNCATED | LIST_ROW_MALFORMED | SHOW_RECORD_MISSING | SHOW_RECORD_MALFORMED
    | LISTENER_ROW_MALFORMED | LISTENER_PROTOCOL_UNSUPPORTED | LISTENER_ADDRESS_UNSUPPORTED | LISTENER_PORT_INVALID
    | REASON_UNKNOWN

  datatype Service = Service(
    unit: string, description: Option<string>, loadState: Option<string>, activeState: Option<string>,
    subState: Option<string>, unitFileState: Option<string>, serviceType: Option<string>,
    user: Option<string>, group: Option<string>, controlGroup: Option<string>)

  datatype Systemd = Systemd(state: OptionalState, statusReasons: seq<StatusReason>, services: seq<Service>)

  datatype Ownership = SYSTEMD_OWNED | OWNER_UNRESOLVED | OWNER_AMBIGUOUS | OWNER_UNKNOWN

  datatype Listener = Listener(
    protocol: string, localAddress: string, port: nat, wildcard: bool, loopback: bool,
    ownership: Ownership, systemdUnit: Option<string>, processName: Option<string>)

  datatype Listeners = Listeners(state: OptionalState, statusReasons: seq<StatusReason>, items: seq<Listener>)

  datatype Docker = Docker(
    state: DockerState, engineVersion: Option<string>, composeProjects: seq<ComposeProject>, containers: seq<Container>,
    caddy: Caddy, systemd: Systemd, listeners: Listeners)

  datatype Target = Target(host: string, port: nat, username: string)

  datatype HostDiscovery = HostDiscovery(host: HostInfo, docker: Docker)

  // ----- names -----

  function DockerStateName(s: DockerState): string {
    match s
    case AVAILABLE => "AVAILABLE"
    case HELPER_NOT_INSTALLED => "HELPER_NOT_INSTALLED"
    case HELPER_NOT_AUTHORIZED => "HELPER_NOT_AUTHORIZED"
    case DOCKER_UNAVAILABLE => "DOCKER_UNAVAILABLE"
    case SCAN_FAILED => "SCAN_FAILED"
  }

  function DockerStatusText(s: DockerState): string {
    match s
    case AVAILABLE => "Docker discovered"
    case HELPER_NOT_INSTALLED => "Docker helper not installed"
    case HELPER_NOT_AUTHORIZED => "Docker access not configured"
    case DOCKER_UNAVAILABLE => "Docker unavailable"
    case SCAN_FAILED => "Docker scan partial"
  }

  function CaddyStateName(s: CaddyState): string {
    match s
    case NOT_DETECTED => "NOT_DETECTED"
    case CADDY_DISCOVERED => "DISCOVERED"
    case CONFIG_MOUNT_MISSING => "CONFIG_MOUNT_MISSING"
    case CONFIG_UNAVAILABLE => "CONFIG_UNAVAILABLE"
    case CONFIG_TOO_LARGE => "CONFIG_TOO_LARGE"
    case CONFIG_INVALID => "CONFIG_INVALID"
    case CADDY_PARTIAL => "PARTIAL"
    case CADDY_AMBIGUOUS => "AMBIGUOUS"
    case CADDY_MALFORMED => "MALFORMED"
    case CADDY_UNKNOWN => "UNKNOWN"
  }

  function CaddyStatusText(s: CaddyState): string {
    match s
    case NOT_DETECTED => "Caddy not detected"
    case CADDY_DISCOVERED => "Caddy routes discovered"
    case CADDY_PARTIAL => "Caddy discovery partial"
    case CONFIG_MOUNT_MISSING => "Caddy config mount missing"
    case CONFIG_UNAVAILABLE => "Caddy config unavailable"
    case CONFIG_TOO_LARGE => "Caddy config too large"
    case CONFIG_INVALID => "Caddy config invalid"
    case CADDY_MALFORMED => "Caddy config invalid"
    case CADDY_AMBIGUOUS => "Caddy discovery ambiguous"
    case CADDY_UNKNOWN => "Caddy status unknown"
  }

  function OptionalStateName(s: OptionalState): string {
    match s
    case DISCOVERED => "DISCOVERED"
    case PARTIAL => "PARTIAL"
    case NOT_AVAILABLE => "NOT_AVAILABLE"
    case NOT_SYSTEMD => "NOT_SYSTEMD"
    case COMMAND_FAILED => "COMMAND_FAILED"
    case MALFORMED => "MALFORMED"
    case UNKNOWN => "UNKNOWN"
  }

  const ReasonName := (r: StatusReason) =>
    match r
    case REASON_COMMAND_FAILED => "COMMAND_FAILED"
    case TRUNCATED => "TRUNCATED"
    case LIST_ROW_MALFORMED => "LIST_ROW_MALFORMED"
    case SHOW_RECORD_MISSING => "SHOW_RECORD_MISSING"
    case SHOW_RECORD_MALFORMED => "SHOW_RECORD_MALFORMED"
    case LISTENER_ROW_MALFORMED => "LISTENER_ROW_MALFORMED"
    case LISTENER_PROTOCOL_UNSUPPORTED => "LISTENER_PROTOCOL_UNSUPPORTED"
    case LISTENER_ADDRESS_UNSUPPORTED => "LISTENER_ADDRESS_UNSUPPORTED"
    case LISTENER_PORT_INVALID => "LISTENER_PORT_INVALID"
    case REASON_UNKNOWN => "UNKNOWN"

  function OwnershipName(o: Ownership): string {
    match o
    case SYSTEMD_OWNED => "SYSTEMD_SERVICE"
    case OWNER_UNRESOLVED => "UNRESOLVED"
    case OWNER_AMBIGUOUS => "AMBIGUOUS"
    case OWNER_UNKNOWN => "UNKNOWN"
  }

  function BoolText(b: bool): string { if b then "true" else "false" }

  // ----- canonical keys -----

  function ListenerKey(l: Listener): string { l.protocol + "|" + l.localAddress + "|" + Decimal(l.port) }

  function UpstreamKey(u: CaddyUpstream): string {
    (if u.source == STATIC then "STATIC" else "UNRESOLVED") + ":" + OrEmpty(u.dial)
  }

  const UpstreamKeyOf := (u: CaddyUpstream) => UpstreamKey(u)
  const ListenerKeyOf := (l: Listener) => ListenerKey(l)
  const UnitOf := (s: Service) => s.unit
  const ContainerIdOf := (c: Container) => c.id
  const InstanceIdOf := (i: CaddyInstance) => i.containerId
}

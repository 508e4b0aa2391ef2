/**
  Reading the helper's report: an allowlist over parsed JSON with per-entry fault isolation.

  The text sanitizers are left to `Rules`; malformed entries are dropped and lower the section's state.
 */
module HelperParser {
  import opened Ordering
  import opened Collections
  import opened Texts
  import opened JsonData
  import opened Discovery
  import opened GraphRouting

  datatype Rules = Rules(canonicalUnit: string -> bool, normalizeDomain: string -> Option<string>)

  // ----- fields -----

  function Int(o: Fields, name: string): Option<int> { if name in o && o[name].Prim? then ToInt(o[name].content) else None }

  function Bool(o: Fields, name: string): Option<bool> {
    if name !in o || !o[name].Prim? then None
    else if Lower(o[name].content) == "true" then Some(true)
    else if Lower(o[name].content) == "false" then Some(false)
    else None
  }

  predicate IsControl(c: char) { c < ' ' || c == '\U{007F}' }

  function NotBlank(o: Option<string>): Option<string> { if o.Some? && Trim(o.value) != "" then o else None }

  function Bounded(o: Option<string>, limit: nat): Option<string> {
    if o.Some? && |o.value| <= limit && forall i :: 0 <= i < |o.value| ==> !IsControl(o.value[i]) then o else None
  }

  /** `safeString` */
  function SafeText(o: Fields, name: string, limit: nat): Option<string> { Bounded(NotBlank(Text(o, name)), limit) }

  function Compact(o: Option<string>): Option<string> {
    if o.Some? && forall i :: 0 <= i < |o.value| ==> !IsBlank(o.value[i]) then o else None
  }

  // ----- states -----

  function OptionalStateOf(name: string): OptionalState {
    if name == "DISCOVERED" then DISCOVERED
    else if name == "PARTIAL" then PARTIAL
    else if name == "NOT_AVAILABLE" then NOT_AVAILABLE
    else if name == "NOT_SYSTEMD" then NOT_SYSTEMD
    else if name == "COMMAND_FAILED" then COMMAND_FAILED
    else if name == "MALFORMED" then MALFORMED
    else UNKNOWN
  }

  function CaddyStateOf(name: string): CaddyState {
    if name == "NOT_DETECTED" then NOT_DETECTED
    else if name == "DISCOVERED" then CADDY_DISCOVERED
    else if name == "CONFIG_MOUNT_MISSING" then CONFIG_MOUNT_MISSING
    else if name == "CONFIG_UNAVAILABLE" then CONFIG_UNAVAILABLE
    else if name == "CONFIG_TOO_LARGE" then CONFIG_TOO_LARGE
    else if name == "CONFIG_INVALID" then CONFIG_INVALID
    else if name == "PARTIAL" then CADDY_PARTIAL
    else if name == "AMBIGUOUS" then CADDY_AMBIGUOUS
    else if name == "MALFORMED" then CADDY_MALFORMED
    else CADDY_UNKNOWN
  }

  const ReasonOf := (name: string) =>
    if name == "COMMAND_FAILED" then REASON_COMMAND_FAILED
    else if name == "TRUNCATED" then TRUNCATED
    else if name == "LIST_ROW_MALFORMED" then LIST_ROW_MALFORMED
    else if name == "SHOW_RECORD_MISSING" then SHOW_RECORD_MISSING
    else if name == "SHOW_RECORD_MALFORMED" then SHOW_RECORD_MALFORMED
    else if name == "LISTENER_ROW_MALFORMED" then LISTENER_ROW_MALFORMED
    else if name == "LISTENER_PROTOCOL_UNSUPPORTED" then LISTENER_PROTOCOL_UNSUPPORTED
    else if name == "LISTENER_ADDRESS_UNSUPPORTED" then LISTENER_ADDRESS_UNSUPPORTED
    else if name == "LISTENER_PORT_INVALID" then LISTENER_PORT_INVALID
    else REASON_UNKNOWN

  function OwnershipOf(name: Option<string>): Ownership {
    if name == Some("SYSTEMD_SERVICE") then SYSTEMD_OWNED
    else if name == Some("UNRESOLVED") then OWNER_UNRESOLVED
    else if name == Some("AMBIGUOUS") then OWNER_AMBIGUOUS
    else OWNER_UNKNOWN
  }

  predicate ReasonLe(a: StatusReason, b: StatusReason) { StringLe(ReasonName(a), ReasonName(b)) }

  const Itself := (r: StatusReason) => r

  function ReasonsOf(section: Fields): seq<StatusReason> {
    SortBy(ReasonLe, DistinctBy(Itself, Map(ReasonOf, FilterMap(QuotedText, List(section, "statusReasons")))))
  }

  // ----- entries; `None` stands for an entry that throws -----

  function CanonicalUnit(rules: Rules, unit: Option<string>): Option<string> {
    if unit.Some? && rules.canonicalUnit(unit.value) then unit else None
  }

  function AbsolutePath(o: Option<string>): Option<string> { if o.Some? && o.value != "" && o.value[0] == '/' then o else None }

  function ServiceOf(rules: Rules): Json -> Option<Service> {
    (j: Json) =>
      if !j.Obj? then None
      else match CanonicalUnit(rules, Text(j.fields, "unit"))
        case None => None
        case Some(unit) =>
          var o := j.fields;
          Some(Service(unit, SafeText(o, "description", 512), SafeText(o, "loadState", 128), SafeText(o, "activeState", 128),
            SafeText(o, "subState", 128), SafeText(o, "unitFileState", 128), SafeText(o, "serviceType", 128),
            SafeText(o, "user", 128), SafeText(o, "group", 128), AbsolutePath(SafeText(o, "controlGroup", 512))))
  }

  function ListenerOf(rules: Rules): Json -> Option<Listener> {
    (j: Json) =>
      if !j.Obj? then None
      else
        var o := j.fields;
        var protocol, address, port := Text(o, "protocol"), Compact(SafeText(o, "localAddress", 128)), Int(o, "port");
        var wildcard, loopback := Bool(o, "wildcard"), Bool(o, "loopback");
        if protocol.None? || Lower(protocol.value) !in ["tcp", "udp"] || address.None? || port.None?
          || !(1 <= port.value <= 65535) || wildcard.None? || loopback.None? then None
        else
          Some(Listener(Lower(protocol.value), address.value, port.value, wildcard.value, loopback.value,
            OwnershipOf(Text(o, "ownershipState")), CanonicalUnit(rules, Text(o, "systemdUnit")),
            Compact(SafeText(o, "processName", 128))))
  }

  function HostNames(rules: Rules): Json -> Option<string> {
    (j: Json) => if j.Prim? && j.quoted then rules.normalizeDomain(j.content) else None
  }

  const RoutePath := (j: Json) =>
    if j.Prim? && j.quoted && j.content != "" && j.content[0] == '/' && |j.content| <= 2048
      && forall i :: 0 <= i < |j.content| ==> j.content[i] >= ' '
    then Some(j.content) else None

  const UpstreamOf := (j: Json) =>
    if !j.Obj? then None
    else if NotBlank(Text(j.fields, "dial")).Some? then Some(CaddyUpstream(Text(j.fields, "dial"), STATIC))
    else if Text(j.fields, "status") == Some("UNRESOLVED") then Some(CaddyUpstream(None, UNRESOLVED_SOURCE))
    else None

  function RouteOf(rules: Rules): Json -> Option<CaddyRoute> {
    (j: Json) =>
      if !j.Obj? then None
      else
        var o := j.fields;
        Some(CaddyRoute(
          SortedSet(Elems(FilterMap(HostNames(rules), List(o, "hosts")))),
          SortedSet(Elems(FilterMap(RoutePath, List(o, "paths")))),
          Bool(o, "hostless") == Some(true),
          Text(o, "hostMatcher") == Some("UNRESOLVED"),
          SortBy(UpstreamLe, DistinctBy(UpstreamKeyOf, FilterMap(UpstreamOf, List(o, "upstreams")))),
          Text(o, "dynamicUpstreams") == Some("UNSUPPORTED")))
  }

  /** Whether some entry is malformed. */
  predicate AnyMalformed<T>(f: Json -> Option<T>, raw: seq<Json>) { exists j :: j in raw && f(j).None? }

  function InstanceOf(rules: Rules): Json -> Option<CaddyInstance> {
    (j: Json) =>
      if !j.Obj? then None
      else
        var o := j.fields;
        var id, name := NotBlank(Text(o, "containerId")), NotBlank(Text(o, "containerName"));
        if id.None? || name.None? then None
        else
          var raw := List(o, "routes");
          var state := if Text(o, "status").Some? then CaddyStateOf(Text(o, "status").value) else CADDY_UNKNOWN;
          Some(CaddyInstance(id.value, name.value, Text(o, "image"),
            if AnyMalformed(RouteOf(rules), raw) && state == CADDY_DISCOVERED then CADDY_PARTIAL else state,
            SortBy(RouteLe, DistinctBy(RouteKeyOf, FilterMap(RouteOf(rules), raw)))))
  }

  // ----- sections -----

  /** A section's state once malformed entries are known. */
  function Effective(state: OptionalState, malformed: bool, none: bool): OptionalState {
    if malformed && none then MALFORMED else if malformed then PARTIAL else state
  }

  const NoSystemd := Systemd(UNKNOWN, [], [])
  const BadSystemd := Systemd(MALFORMED, [], [])
  const NoListeners := Listeners(UNKNOWN, [], [])
  const BadListeners := Listeners(MALFORMED, [], [])
  const NoCaddy := Caddy(NOT_DETECTED, [])
  const BadCaddy := Caddy(CADDY_MALFORMED, [])

  /** `parseSystemd` */
  function SystemdOf(rules: Rules, value: Option<Json>): Systemd {
    if value.None? then NoSystemd
    else if !value.value.Obj? then BadSystemd
    else
      var section := value.value.fields;
      var status := Text(section, "status");
      if status.None? || ("services" in section && !section["services"].Arr?) then BadSystemd
      else
        var raw := List(section, "services");
        var services := SortBy(ServiceLe, DistinctBy(UnitOf, FilterMap(ServiceOf(rules), raw)));
        Systemd(Effective(OptionalStateOf(status.value), AnyMalformed(ServiceOf(rules), raw), services == []),
          ReasonsOf(section), services)
  }

  /** `parseListeners` */
  function ListenersOf(rules: Rules, value: Option<Json>): Listeners {
    if value.None? then NoListeners
    else if !value.value.Obj? then BadListeners
    else
      var section := value.value.fields;
      var status := Text(section, "status");
      if status.None? || ("items" in section && !section["items"].Arr?) then BadListeners
      else
        var raw := List(section, "items");
        var items := SortBy(ListenerLe, DistinctBy(ListenerKeyOf, FilterMap(ListenerOf(rules), raw)));
        Listeners(Effective(OptionalStateOf(status.value), AnyMalformed(ListenerOf(rules), raw), items == []),
          ReasonsOf(section), items)
  }

  predicate AnyPartial(instances: seq<CaddyInstance>) { exists i :: i in instances && i.state == CADDY_PARTIAL }

  /** `parseCaddy` */
  function CaddyOf(rules: Rules, value: Option<Json>): Caddy {
    if value.None? then NoCaddy
    else if !value.value.Obj? then BadCaddy
    else
      var section := value.value.fields;
      var status := Text(section, "status");
      if status.None? || "instances" !in section || !section["instances"].Arr? then BadCaddy
      else
        var raw, state := section["instances"].items, CaddyStateOf(status.value);
        var instances := SortBy(InstanceLe, FilterMap(InstanceOf(rules), raw));
        var malformed := AnyMalformed(InstanceOf(rules), raw);
        Caddy(
          if malformed && instances == [] then CADDY_MALFORMED
          else if malformed then CADDY_PARTIAL
          else if state == CADDY_DISCOVERED && AnyPartial(instances) then CADDY_PARTIAL
          else state,
          instances)
  }

  // ----- containers -----

  const ProjectOf := (j: Json) =>
    if !j.Obj? then None
    else match NotBlank(Text(j.fields, "project"))
      case None => None
      case Some(project) => Some(ComposeProject(project, Text(j.fields, "workingDirectory"), Text(j.fields, "configFiles")))

  const PortOf := (j: Json) =>
    if !j.Obj? || Text(j.fields, "containerPort").None? || Text(j.fields, "protocol").None? then None
    else Some(Port(Text(j.fields, "containerPort").value, Text(j.fields, "protocol").value,
      Text(j.fields, "hostIp"), Text(j.fields, "hostPort")))

  const MountOf := (j: Json) =>
    if !j.Obj? || Text(j.fields, "type").None? || Text(j.fields, "destination").None? then None
    else Some(Mount(Text(j.fields, "type").value, Text(j.fields, "source"), Text(j.fields, "destination").value,
      Text(j.fields, "volumeName"), Bool(j.fields, "readOnly") == Some(true)))

  function ComposeOf(o: Fields): Option<ContainerCompose> {
    if "compose" !in o || !o["compose"].Obj? then None
    else
      var c := o["compose"].fields;
      var compose := ContainerCompose(Text(c, "project"), Text(c, "service"), Text(c, "workingDirectory"), Text(c, "configFiles"));
      if compose == ContainerCompose(None, None, None, None) then None else Some(compose)
  }

  predicate PortLe(a: Port, b: Port) {
    KeysLe([a.containerPort, a.protocol, OrEmpty(a.hostIp), OrEmpty(a.hostPort)],
      [b.containerPort, b.protocol, OrEmpty(b.hostIp), OrEmpty(b.hostPort)])
  }

  predicate MountLe(a: Mount, b: Mount) { KeysLe([a.destination, a.mountType], [b.destination, b.mountType]) }

  predicate NameLe(a: Container, b: Container) { KeysLe([a.name, a.id], [b.name, b.id]) }

  predicate ProjectLe(a: ComposeProject, b: ComposeProject) { StringLe(a.project, b.project) }

  /** A container without an identifier or a name makes the whole scan fail. */
  const ContainerOf := (j: Json) =>
    if !j.Obj? then None
    else
      var o := j.fields;
      var id, name := NotBlank(Text(o, "id")), NotBlank(Text(o, "name"));
      if id.None? || name.None? then None
      else
        Some(Container(id.value, name.value, Text(o, "image"), Text(o, "state"), Text(o, "restartPolicy"), ComposeOf(o),
          SortBy(PortLe, FilterMap(PortOf, List(o, "ports"))),
          SortBy(MountLe, FilterMap(MountOf, List(o, "mounts"))),
          SortedSet(Elems(FilterMap(QuotedText, List(o, "networks"))))))

  const ProjectKey := (p: ComposeProject) => p.project

  function Bare(state: DockerState): Docker { Docker(state, None, [], [], NoCaddy, NoSystemd, NoListeners) }

  /** `parse`, given what the text decodes to. */
  function Parsed(rules: Rules, root: Option<Json>): Docker {
    if root.None? || !root.value.Obj? then Bare(SCAN_FAILED)
    else
      var o := root.value.fields;
      if Int(o, "schemaVersion") != Some(1) then Bare(SCAN_FAILED)
      else if Bool(o, "ok") != Some(true) then
        Bare(if Text(Object(o, "error"), "code") in
            [Some("DOCKER_UNAVAILABLE"), Some("DOCKER_DAEMON_UNAVAILABLE"), Some("UNTRUSTED_DOCKER_EXECUTABLE")]
          then DOCKER_UNAVAILABLE else SCAN_FAILED)
      else if AnyMalformed(ContainerOf, List(o, "containers")) then Bare(SCAN_FAILED)
      else
        Docker(AVAILABLE, Text(Object(o, "engine"), "version"),
          SortBy(ProjectLe, DistinctBy(ProjectKey, FilterMap(ProjectOf, List(o, "composeProjects")))),
          SortBy(NameLe, FilterMap(ContainerOf, List(o, "containers"))),
          CaddyOf(rules, Member(o, "caddy")), SystemdOf(rules, Member(o, "systemd")), ListenersOf(rules, Member(o, "listeners")))
  }

  // ----- parsing with a flag -----

  /** Keeps the entries that parse and notes whether one did not. */
  method Collect<T>(f: Json -> Option<T>, raw: seq<Json>) returns (kept: seq<T>, malformed: bool)
    ensures kept == FilterMap(f, raw)
    ensures malformed <==> AnyMalformed(f, raw)
  {
    kept, malformed := [], false;
    for i := 0 to |raw|
      invariant kept == FilterMap(f, raw[..i])
      invariant malformed <==> AnyMalformed(f, raw[..i])
    {
      FilterMapStep(f, raw, i);
      assert raw[..i + 1] == raw[..i] + [raw[i]];
      match f(raw[i])
      case Some(entry) => kept := kept + [entry];
      case None => malformed := true;
    }
    assert raw[..|raw|] == raw;
  }

  lemma DistinctByStep<T, K>(key: T -> K, s: seq<T>, i: nat)
    requires i < |s|
    ensures var front := DistinctBy(key, s[..i]);
      DistinctBy(key, s[..i + 1]) == if HasKey(key, front, key(s[i])) then front else front + [s[i]]
  {
    assert s[..i + 1][..i] == s[..i];
  }

  lemma OneMoreKey<T, K>(key: T -> K, s: seq<T>, x: T, k: K)
    ensures HasKey(key, s + [x], k) <==> HasKey(key, s, k) || key(x) == k
  {
    if HasKey(key, s, k) {
      var y :| y in s && key(y) == k;
      assert y in s + [x];
    }
    assert x in s + [x];
  }

  /** The first position of its key. */
  ghost predicate IsFirst<T, K>(key: T -> K, s: seq<T>, i: int) {
    0 <= i < |s| && forall j :: 0 <= j < i ==> key(s[j]) != key(s[i])
  }

  /** Positions in order that are exactly those of the first entry of every key. */
  ghost predicate FirstPositions<T, K>(key: T -> K, s: seq<T>, at: seq<nat>) {
    && (forall a, b :: 0 <= a < b < |at| ==> at[a] < at[b])
    && (forall i :: i in at <==> IsFirst(key, s, i))
  }

  /** `kept` holds the first entry of every key, in the order of the list. */
  ghost predicate Firsts<T, K>(key: T -> K, s: seq<T>, kept: seq<T>, at: seq<nat>) {
    FirstPositions(key, s, at) && |kept| == |at| && forall j :: 0 <= j < |at| ==> at[j] < |s| && kept[j] == s[at[j]]
  }

  lemma FrontFirst<T, K>(key: T -> K, s: seq<T>, i: int)
    requires s != [] && 0 <= i < |s| - 1
    ensures IsFirst(key, s, i) <==> IsFirst(key, s[..|s| - 1], i)
  {
    var front := s[..|s| - 1];
    assert forall j :: 0 <= j <= i ==> front[j] == s[j];
  }

  /** A key is among the kept ones exactly when some entry has it. */
  lemma {:induction false} KeysKept<T, K>(key: T -> K, s: seq<T>, k: K)
    ensures HasKey(key, DistinctBy(key, s), k) <==> HasKey(key, s, k)
  {
    if s != [] {
      var front, last := s[..|s| - 1], s[|s| - 1];
      assert s == front + [last];
      KeysKept(key, front, k);
      KeysKept(key, front, key(last));
      OneMoreKey(key, front, last, k);
      OneMoreKey(key, DistinctBy(key, front), last, k);
      hide HasKey;
    }
  }

  lemma LastFirst<T, K>(key: T -> K, s: seq<T>)
    requires s != []
    ensures IsFirst(key, s, |s| - 1) <==> !HasKey(key, s[..|s| - 1], key(s[|s| - 1]))
  {
    var front, last := s[..|s| - 1], s[|s| - 1];
    if HasKey(key, front, key(last)) {
      var x :| x in front && key(x) == key(last);
      var j :| 0 <= j < |front| && front[j] == x;
      assert s[j] == x;
    } else {
      forall j | 0 <= j < |s| - 1 ensures key(s[j]) != key(last) { assert s[j] == front[j] && front[j] in front; }
    }
  }

  /** The first positions of a longer list are those before, and the last one if its key is new. */
  lemma MorePositions<T, K>(key: T -> K, s: seq<T>, before: seq<nat>)
    requires s != [] && FirstPositions(key, s[..|s| - 1], before)
    ensures FirstPositions(key, s, if IsFirst(key, s, |s| - 1) then before + [|s| - 1] else before)
    ensures forall j :: 0 <= j < |before| ==> before[j] < |s| - 1
  {
    hide IsFirst;
    var n := |s| - 1;
    forall j | 0 <= j < |before| ensures before[j] < n { assert before[j] in before; InsideFirst(key, s[..n], before[j]); }
    forall i ensures i in before <==> i != n && IsFirst(key, s, i) {
      if 0 <= i < n {
        FrontFirst(key, s, i);
      } else {
        OutsideFirst(key, s[..n], i);
        if i != n { OutsideFirst(key, s, i); }
      }
    }
  }

  lemma MoreFirsts<T, K>(key: T -> K, s: seq<T>, kept: seq<T>, before: seq<nat>) returns (at: seq<nat>)
    requires s != [] && Firsts(key, s[..|s| - 1], kept, before)
    ensures Firsts(key, s, if IsFirst(key, s, |s| - 1) then kept + [s[|s| - 1]] else kept, at)
  {
    hide IsFirst, FirstPositions;
    var front, last := s[..|s| - 1], s[|s| - 1];
    MorePositions(key, s, before);
    forall j | 0 <= j < |before| ensures before[j] < |s| && kept[j] == s[before[j]] { assert front[before[j]] == s[before[j]]; }
    if IsFirst(key, s, |s| - 1) {
      at := before + [|s| - 1];
      assert forall j :: 0 <= j < |before| ==> at[j] == before[j] && (kept + [last])[j] == kept[j];
    } else {
      at := before;
    }
  }

  lemma NoFirsts<T, K>(key: T -> K)
    ensures Firsts(key, [], [], [])
  {
  }

  /** `distinctBy` keeps the first entry of every key, in order. */
  lemma {:induction false} DistinctByExact<T, K>(key: T -> K, s: seq<T>) returns (at: seq<nat>)
    ensures Firsts(key, s, DistinctBy(key, s), at)
  {
    hide IsFirst, HasKey, Firsts;
    if s == [] {
      at := [];
      NoFirsts(key);
    } else {
      var n := |s| - 1;
      var before := DistinctByExact(key, s[..n]);
      KeysKept(key, s[..n], key(s[n]));
      LastFirst(key, s);
      at := MoreFirsts(key, s, DistinctBy(key, s[..n]), before);
    }
  }

  lemma OutsideFirst<T, K>(key: T -> K, s: seq<T>, i: int)
    requires i < 0 || i >= |s|
    ensures !IsFirst(key, s, i)
  {
  }

  lemma InsideFirst<T, K>(key: T -> K, s: seq<T>, i: int)
    requires IsFirst(key, s, i)
    ensures 0 <= i < |s|
  {
  }

  /** `distinctBy` with the set of keys already seen. */
  method KeepFirst<T(==), K(==)>(key: T -> K, s: seq<T>) returns (kept: seq<T>, ghost at: seq<nat>)
    ensures kept == DistinctBy(key, s) && Firsts(key, s, kept, at)
  {
    kept := [];
    var seen := {};
    for i := 0 to |s|
      invariant kept == DistinctBy(key, s[..i])
      invariant forall k :: k in seen <==> HasKey(key, kept, k)
    {
      DistinctByStep(key, s, i);
      assert HasKey(key, kept, key(s[i])) <==> key(s[i]) in seen;
      if key(s[i]) !in seen {
        forall k ensures HasKey(key, kept + [s[i]], k) <==> HasKey(key, kept, k) || key(s[i]) == k { OneMoreKey(key, kept, s[i], k); }
        kept := kept + [s[i]];
        seen := seen + {key(s[i])};
      }
    }
    assert s[..|s|] == s;
    at := DistinctByExact(key, s);
  }

  method ParseSystemd(rules: Rules, value: Option<Json>) returns (r: Systemd)
    ensures r == SystemdOf(rules, value)
  {
    hide FilterMap, AnyMalformed, DistinctBy, SortBy, ServiceOf, ReasonsOf;
    if value.None? { return NoSystemd; }
    if !value.value.Obj? { return BadSystemd; }
    var section := value.value.fields;
    var status := Text(section, "status");
    if status.None? || ("services" in section && !section["services"].Arr?) { return BadSystemd; }
    var kept, malformed := Collect(ServiceOf(rules), List(section, "services"));
    var distinct, _ := KeepFirst(UnitOf, kept);
    var services := SortBy(ServiceLe, distinct);
    r := Systemd(Effective(OptionalStateOf(status.value), malformed, services == []), ReasonsOf(section), services);
  }

  method ParseListeners(rules: Rules, value: Option<Json>) returns (r: Listeners)
    ensures r == ListenersOf(rules, value)
  {
    hide FilterMap, AnyMalformed, DistinctBy, SortBy, ListenerOf, ReasonsOf, ListenerKey;
    if value.None? { return NoListeners; }
    if !value.value.Obj? { return BadListeners; }
    var section := value.value.fields;
    var status := Text(section, "status");
    if status.None? || ("items" in section && !section["items"].Arr?) { return BadListeners; }
    var kept, malformed := Collect(ListenerOf(rules), List(section, "items"));
    var distinct, _ := KeepFirst(ListenerKeyOf, kept);
    var items := SortBy(ListenerLe, distinct);
    r := Listeners(Effective(OptionalStateOf(status.value), malformed, items == []), ReasonsOf(section), items);
  }

  method ParseCaddy(rules: Rules, value: Option<Json>) returns (r: Caddy)
    ensures r == CaddyOf(rules, value)
  {
    hide FilterMap, AnyMalformed, SortBy, InstanceOf;
    if value.None? { return NoCaddy; }
    if !value.value.Obj? { return BadCaddy; }
    var section := value.value.fields;
    var status := Text(section, "status");
    if status.None? || "instances" !in section || !section["instances"].Arr? { return BadCaddy; }
    var state := CaddyStateOf(status.value);
    var kept, malformed := Collect(InstanceOf(rules), section["instances"].items);
    var instances := SortBy(InstanceLe, kept);
    var effective := state;
    if malformed && instances == [] {
      effective := CADDY_MALFORMED;
    } else if malformed {
      effective := CADDY_PARTIAL;
    } else if state == CADDY_DISCOVERED && AnyPartial(instances) {
      effective := CADDY_PARTIAL;
    }
    r := Caddy(effective, instances);
  }

  /** `parse`; one malformed container fails the whole report, a malformed entry elsewhere does not. */
  method Parse(rules: Rules, root: Option<Json>) returns (docker: Docker)
    ensures docker == Parsed(rules, root)
  {
    hide FilterMap, AnyMalformed, SortBy, DistinctBy, SystemdOf, ListenersOf, CaddyOf, Text, Int, Bool;
    if root.None? || !root.value.Obj? { return Bare(SCAN_FAILED); }
    var o := root.value.fields;
    if Int(o, "schemaVersion") != Some(1) { return Bare(SCAN_FAILED); }
    if Bool(o, "ok") != Some(true) {
      var code := Text(Object(o, "error"), "code");
      var unavailable := code in [Some("DOCKER_UNAVAILABLE"), Some("DOCKER_DAEMON_UNAVAILABLE"), Some("UNTRUSTED_DOCKER_EXECUTABLE")];
      return Bare(if unavailable then DOCKER_UNAVAILABLE else SCAN_FAILED);
    }
    var projects, _ := Collect(ProjectOf, List(o, "composeProjects"));
    var distinct, _ := KeepFirst(ProjectKey, projects);
    var containers, malformed := Collect(ContainerOf, List(o, "containers"));
    if malformed { return Bare(SCAN_FAILED); }
    var caddy := ParseCaddy(rules, Member(o, "caddy"));
    var systemd := ParseSystemd(rules, Member(o, "systemd"));
    var listeners := ParseListeners(rules, Member(o, "listeners"));
    docker := Docker(AVAILABLE, Text(Object(o, "engine"), "version"), SortBy(ProjectLe, distinct), SortBy(NameLe, containers),
      caddy, systemd, listeners);
  }

  // ----- what parsing guarantees -----

  lemma {:induction false} DistinctByUnique<T, K>(key: T -> K, s: seq<T>)
    ensures UniqueBy(key, DistinctBy(key, s))
  {
    if s != [] { DistinctByUnique(key, s[..|s| - 1]); }
  }

  lemma SortedDistinctUnique<T, K>(key: T -> K, le: (T, T) -> bool, s: seq<T>)
    ensures UniqueBy(key, SortBy(le, DistinctBy(key, s)))
  {
    DistinctByUnique(key, s);
    UniqueByPermutation(key, DistinctBy(key, s), SortBy(le, DistinctBy(key, s)));
  }

  lemma {:induction false} FilterMapOf<T, U>(f: T -> Option<U>, s: seq<T>, u: U)
    requires u in FilterMap(f, s)
    ensures exists x :: x in s && f(x) == Some(u)
  {
    FilterMapElements(f, s);
  }

  lemma InstanceRoutesUnique(rules: Rules, j: Json)
    ensures InstanceOf(rules)(j).Some? ==> UniqueBy(RouteKeyOf, InstanceOf(rules)(j).value.routes)
  {
    if InstanceOf(rules)(j).Some? {
      SortedDistinctUnique(RouteKeyOf, RouteLe, FilterMap(RouteOf(rules), List(j.fields, "routes")));
      hide UniqueBy, SortBy, DistinctBy, FilterMap, RouteOf, AnyMalformed;
    }
  }

  lemma CaddyRoutesUnique(rules: Rules, value: Option<Json>, i: CaddyInstance)
    requires i in CaddyOf(rules, value).instances
    ensures UniqueBy(RouteKeyOf, i.routes)
  {
    hide UniqueBy, InstanceOf, AnyMalformed, SortBy, FilterMap, AnyPartial;
    var raw := value.value.fields["instances"].items;
    SortByElements(InstanceLe, FilterMap(InstanceOf(rules), raw));
    FilterMapOf(InstanceOf(rules), raw, i);
    var j :| j in raw && InstanceOf(rules)(j) == Some(i);
    InstanceRoutesUnique(rules, j);
  }

  lemma SystemdUnitsUnique(rules: Rules, value: Option<Json>)
    ensures UniqueBy(UnitOf, SystemdOf(rules, value).services)
  {
    hide SortBy, DistinctBy, FilterMap, ServiceOf, AnyMalformed, ReasonsOf;
    forall raw ensures UniqueBy(UnitOf, SortBy(ServiceLe, DistinctBy(UnitOf, FilterMap(ServiceOf(rules), raw)))) {
      SortedDistinctUnique(UnitOf, ServiceLe, FilterMap(ServiceOf(rules), raw));
    }
  }

  lemma ListenerKeysUnique(rules: Rules, value: Option<Json>)
    ensures UniqueBy(ListenerKeyOf, ListenersOf(rules, value).items)
  {
    hide SortBy, DistinctBy, FilterMap, ListenerOf, AnyMalformed, ReasonsOf, ListenerKey;
    forall raw ensures UniqueBy(ListenerKeyOf, SortBy(ListenerLe, DistinctBy(ListenerKeyOf, FilterMap(ListenerOf(rules), raw)))) {
      SortedDistinctUnique(ListenerKeyOf, ListenerLe, FilterMap(ListenerOf(rules), raw));
    }
  }
}

/** The canonical snapshot of a graph: allowlisted metadata, sorted nodes and edges, discovery quality. */
module Projection {
  import opened Ordering
  import opened Collections
  import opened Graphs
  import opened Snapshots
  import opened Texts

  datatype GraphError = DuplicateNodeId | DuplicateEdgeId | MissingEndpoint

  const InfraNodeId := (n: InfraNode) => n.id
  const InfraEdgeId := (e: InfraEdge) => e.id

  function Allowlist(t: NodeType): set<string> {
    match t
    case SERVER => {
      "hostname", "ssh host", "ssh username", "operating system", "os version", "kernel", "architecture",
      "systemd discovery status", "systemd status reasons", "listener discovery status", "listener status reasons"}
    case DOCKER_ENGINE => {
      "discovery status", "docker discovery state", "docker version", "caddy discovery status", "caddy discovery state"}
    case DOCKER_COMPOSE_PROJECT => {"project", "working directory", "config files", "container count"}
    case DOCKER_CONTAINER => {
      "container id", "image", "state", "restart policy", "compose project", "compose service", "ports", "networks", "mounts"}
    case NETWORK => {"network", "connected containers"}
    case MOUNT => {"type", "source", "volume name", "destination", "access"}
    case PORT => {"container port", "protocol", "host binding", "exposure"}
    case REVERSE_PROXY => {"proxy", "container name", "discovery status", "route count", "domain count", "image"}
    case DOMAIN => {
      "domain", "route count", "paths", "resolution", "upstreams", "caddy instance", "resolved containers",
      "resolved host services"}
    case UPSTREAM => {
      "dial", "resolution", "host resolution", "target kind", "matching port", "host resolution reason", "host service",
      "eligible listeners", "candidate services", "route id", "backend set size", "domains", "paths", "matching reason",
      "shared network", "container", "compose project", "compose service", "container state"}
    case SYSTEMD_SERVICE => {
      "unit", "description", "load state", "active state", "sub state", "unit file state", "service type", "user", "group",
      "control group", "listener count", "discovery status"}
    case HOST_LISTENER => {
      "protocol", "local address", "port", "bind", "wildcard", "loopback", "ownership state", "systemd unit", "process name",
      "discovery status"}
    case DIRECTORY => {"path", "owner", "group", "permissions"}
  }

  function ProjectNode(n: InfraNode): SnapshotNode {
    SnapshotNode(n.id, n.title, TypeName(n.nodeType), map k | k in n.metadata && k in Allowlist(n.nodeType) :: n.metadata[k])
  }

  function ProjectEdge(e: InfraEdge): SnapshotEdge {
    SnapshotEdge(e.id, e.source, e.target, RelationName(e.relation))
  }

  predicate NodeLe(a: SnapshotNode, b: SnapshotNode) {
    KeysLe([a.id, a.nodeType, a.title], [b.id, b.nodeType, b.title])
  }

  predicate EdgeLe(a: SnapshotEdge, b: SnapshotEdge) {
    KeysLe([a.id, a.source, a.target, a.relation], [b.id, b.source, b.target, b.relation])
  }

  // ----- discovery quality -----

  function FirstOfType(nodes: seq<SnapshotNode>, t: NodeType): Option<SnapshotNode> {
    if nodes == [] then None
    else if nodes[0].nodeType == TypeName(t) then Some(nodes[0])
    else FirstOfType(nodes[1..], t)
  }

  function Lookup(n: Option<SnapshotNode>, key: string): Option<string> {
    if n.Some? && key in n.value.metadata then Some(n.value.metadata[key]) else None
  }

  function SplitAt(s: string, separator: char): seq<string> {
    if s == [] then [""]
    else
      var rest := SplitAt(s[1..], separator);
      if s[0] == separator then [""] + rest else [[s[0]] + rest[0]] + rest[1..]
  }

  function Dedup<T(==)>(s: seq<T>): seq<T> {
    if s == [] then []
    else
      var front := Dedup(s[..|s| - 1]);
      if s[|s| - 1] in front then front else front + [s[|s| - 1]]
  }

  const StatusReasons := {
    "COMMAND_FAILED", "TRUNCATED", "LIST_ROW_MALFORMED", "SHOW_RECORD_MISSING", "SHOW_RECORD_MALFORMED",
    "LISTENER_ROW_MALFORMED", "LISTENER_PROTOCOL_UNSUPPORTED", "LISTENER_ADDRESS_UNSUPPORTED",
    "LISTENER_PORT_INVALID", "UNKNOWN"}
  const DockerStates := {
    "AVAILABLE", "HELPER_NOT_INSTALLED", "HELPER_NOT_AUTHORIZED", "DOCKER_UNAVAILABLE", "SCAN_FAILED"}
  const CaddyStates := {
    "NOT_DETECTED", "DISCOVERED", "CONFIG_MOUNT_MISSING", "CONFIG_UNAVAILABLE", "CONFIG_TOO_LARGE", "CONFIG_INVALID",
    "PARTIAL", "AMBIGUOUS", "MALFORMED", "UNKNOWN"}
  const OptionalStates := {
    "DISCOVERED", "PARTIAL", "NOT_AVAILABLE", "NOT_SYSTEMD", "COMMAND_FAILED", "MALFORMED", "UNKNOWN"}

  const IsStatusReason := (r: string) => r in StatusReasons
  const TrimText := (s: string) => Trim(s)

  function SafeReasons(value: Option<string>): seq<string> {
    var text := if value.Some? then value.value else "";
    SortBy(StringLe, Dedup(Filter(IsStatusReason, Map(TrimText, SplitAt(text, ',')))))
  }

  function Quality(subsystem: string, state: Option<string>, allowed: set<string>, reasons: seq<string>): DiscoveryQuality {
    DiscoveryQuality(
      subsystem,
      if state.Some? && state.value in allowed then state.value else "UNKNOWN",
      SortBy(StringLe, reasons))
  }

  /** One entry per subsystem, listed in the order of their names. */
  function DiscoveryQualityOf(nodes: seq<SnapshotNode>): seq<DiscoveryQuality> {
    var server := FirstOfType(nodes, SERVER);
    var docker := FirstOfType(nodes, DOCKER_ENGINE);
    [ Quality("CADDY", Lookup(docker, "caddy discovery state"), CaddyStates, []),
      Quality("DOCKER", Lookup(docker, "docker discovery state"), DockerStates, []),
      Quality("HOST_LISTENERS", Lookup(server, "listener discovery status"), OptionalStates,
        SafeReasons(Lookup(server, "listener status reasons"))),
      Quality("SYSTEMD", Lookup(server, "systemd discovery status"), OptionalStates,
        SafeReasons(Lookup(server, "systemd status reasons")))]
  }

  // ----- content -----

  const ProjectNodeOf := (n: InfraNode) => ProjectNode(n)
  const ProjectEdgeOf := (e: InfraEdge) => ProjectEdge(e)

  predicate GraphHasNode(graph: InfraGraph, id: string) { exists n :: n in graph.nodes && n.id == id }

  predicate WellFormed(graph: InfraGraph) {
    && UniqueBy(InfraNodeId, graph.nodes)
    && UniqueBy(InfraEdgeId, graph.edges)
    && forall e :: e in graph.edges ==> GraphHasNode(graph, e.source) && GraphHasNode(graph, e.target)
  }

  function Canonical(graph: InfraGraph): Content {
    var nodes := SortBy(NodeLe, Map(ProjectNodeOf, graph.nodes));
    Content(nodes, SortBy(EdgeLe, Map(ProjectEdgeOf, graph.edges)), DiscoveryQualityOf(nodes))
  }

  /** `content`; each failure is a `require` that throws in the source. */
  function ContentOf(graph: InfraGraph): Result<Content, GraphError> {
    if !UniqueBy(InfraNodeId, graph.nodes) then Failure(DuplicateNodeId)
    else if !UniqueBy(InfraEdgeId, graph.edges) then Failure(DuplicateEdgeId)
    else if !WellFormed(graph) then Failure(MissingEndpoint)
    else Success(Canonical(graph))
  }

  /** `capture` with the identifier and the time that the source draws from its environment. */
  function Capture(graph: InfraGraph, serverId: string, snapshotId: string, capturedAt: int): Result<Snapshot, GraphError> {
    match ContentOf(graph)
    case Failure(e) => Failure(e)
    case Success(content) =>
      Success(Snapshot(SNAPSHOT_SCHEMA_VERSION, snapshotId, serverId, capturedAt, FingerprintOf(content), content))
  }

  // ----- canonicity -----

  lemma NodeLeOrder()
    ensures TotalPreorder(NodeLe)
  {
    KeysLeOrder();
    hide KeysLe;
  }

  lemma EdgeLeOrder()
    ensures TotalPreorder(EdgeLe)
    ensures forall a, b :: EdgeLe(a, b) && EdgeLe(b, a) ==> a == b
  {
    KeysLeOrder();
    hide KeysLe;
    forall a, b | EdgeLe(a, b) && EdgeLe(b, a) ensures a == b {
      var x, y := [a.id, a.source, a.target, a.relation], [b.id, b.source, b.target, b.relation];
      assert x == y;
      assert x[0] == y[0] && x[1] == y[1] && x[2] == y[2] && x[3] == y[3];
    }
  }

  /** Nodes with distinct identifiers are told apart by the sort order. */
  lemma UniqueNodesSeparate(nodes: seq<SnapshotNode>)
    requires UniqueBy(NodeId, nodes)
    ensures Separates(NodeLe, nodes)
  {
    UniqueByDistinct(NodeId, nodes);
    KeysLeOrder();
    hide KeysLe;
    forall a, b | a in nodes && b in nodes && NodeLe(a, b) && NodeLe(b, a) ensures a == b {
      var x, y := [a.id, a.nodeType, a.title], [b.id, b.nodeType, b.title];
      assert x == y;
      assert x[0] == y[0];
    }
  }

  lemma ProjectedUnique(nodes: seq<InfraNode>)
    requires UniqueBy(InfraNodeId, nodes)
    ensures UniqueBy(NodeId, Map(ProjectNodeOf, nodes))
  {
  }

  ghost predicate SameUpToOrder(a: InfraGraph, b: InfraGraph) {
    multiset(a.nodes) == multiset(b.nodes) && multiset(a.edges) == multiset(b.edges)
  }

  lemma WellFormedPermutation(a: InfraGraph, b: InfraGraph)
    requires SameUpToOrder(a, b) && WellFormed(a)
    ensures WellFormed(b)
  {
    UniqueByPermutation(InfraNodeId, a.nodes, b.nodes);
    UniqueByPermutation(InfraEdgeId, a.edges, b.edges);
    SameElements(a.nodes, b.nodes);
    SameElements(a.edges, b.edges);
    forall e | e in b.edges ensures GraphHasNode(b, e.source) && GraphHasNode(b, e.target) {
      assert e in a.edges;
      var n :| n in a.nodes && n.id == e.source;
      var k :| k in a.nodes && k.id == e.target;
      assert n in b.nodes && k in b.nodes;
    }
  }

  /** The order of a graph's nodes and edges changes neither the content nor the reason for rejecting it. */
  lemma ContentIgnoresOrder(a: InfraGraph, b: InfraGraph)
    requires SameUpToOrder(a, b)
    ensures ContentOf(a) == ContentOf(b)
  {
    hide Canonical;
    if UniqueBy(InfraNodeId, a.nodes) { UniqueByPermutation(InfraNodeId, a.nodes, b.nodes); }
    if UniqueBy(InfraNodeId, b.nodes) { UniqueByPermutation(InfraNodeId, b.nodes, a.nodes); }
    if UniqueBy(InfraEdgeId, a.edges) { UniqueByPermutation(InfraEdgeId, a.edges, b.edges); }
    if UniqueBy(InfraEdgeId, b.edges) { UniqueByPermutation(InfraEdgeId, b.edges, a.edges); }
    if WellFormed(a) { WellFormedPermutation(a, b); CanonicalIgnoresOrder(a, b); }
    if WellFormed(b) { WellFormedPermutation(b, a); }
  }

  lemma CanonicalIgnoresOrder(a: InfraGraph, b: InfraGraph)
    requires SameUpToOrder(a, b) && WellFormed(a)
    ensures Canonical(a) == Canonical(b)
  {
    MapPermutation(ProjectNodeOf, a.nodes, b.nodes);
    MapPermutation(ProjectEdgeOf, a.edges, b.edges);
    ProjectedUnique(a.nodes);
    UniqueNodesSeparate(Map(ProjectNodeOf, a.nodes));
    NodeLeOrder();
    EdgeLeOrder();
    hide NodeLe, EdgeLe, SortBy, DiscoveryQualityOf, Map;
    SortByCanonical(NodeLe, Map(ProjectNodeOf, a.nodes), Map(ProjectNodeOf, b.nodes));
    SortByCanonical(EdgeLe, Map(ProjectEdgeOf, a.edges), Map(ProjectEdgeOf, b.edges));
  }

  // ----- what the content says -----

  ghost function ProjectedNodes(graph: InfraGraph): set<SnapshotNode> { set n | n in graph.nodes :: ProjectNode(n) }

  ghost function ProjectedEdges(graph: InfraGraph): set<SnapshotEdge> { set e | e in graph.edges :: ProjectEdge(e) }

  lemma MapElements<T, U>(f: T -> U, s: seq<T>)
    ensures forall u :: u in Map(f, s) <==> exists x :: x in s && f(x) == u
  {
    forall u | u in Map(f, s) ensures exists x :: x in s && f(x) == u {
      var i :| 0 <= i < |s| && Map(f, s)[i] == u;
      assert s[i] in s;
    }
    forall u | exists x :: x in s && f(x) == u ensures u in Map(f, s) {
      var x :| x in s && f(x) == u;
      MapMember(f, s, x);
    }
  }

  lemma CanonicalElements(graph: InfraGraph)
    ensures Elems(Canonical(graph).nodes) == ProjectedNodes(graph)
    ensures Elems(Canonical(graph).edges) == ProjectedEdges(graph)
  {
    MapElements(ProjectNodeOf, graph.nodes);
    MapElements(ProjectEdgeOf, graph.edges);
    hide NodeLe, EdgeLe, SortBy, DiscoveryQualityOf, Map, ProjectNode, ProjectEdge;
    SortByElements(NodeLe, Map(ProjectNodeOf, graph.nodes));
    SortByElements(EdgeLe, Map(ProjectEdgeOf, graph.edges));
  }

  lemma QualityNames(nodes: seq<SnapshotNode>)
    ensures Map(SubsystemName, DiscoveryQualityOf(nodes)) == ["CADDY", "DOCKER", "HOST_LISTENERS", "SYSTEMD"]
  {
    hide Lookup, SafeReasons, FirstOfType, SortBy;
  }

  lemma QualityUnique(nodes: seq<SnapshotNode>)
    ensures UniqueBy(SubsystemName, DiscoveryQualityOf(nodes))
  {
    hide DiscoveryQualityOf;
    QualityNames(nodes);
    var q := DiscoveryQualityOf(nodes);
    var names := Map(SubsystemName, q);
    assert names[0][0] == 'C' && names[1][0] == 'D' && names[2][0] == 'H' && names[3][0] == 'S';
    forall i, j | 0 <= i < j < |q| ensures SubsystemName(q[i]) != SubsystemName(q[j]) {
      assert names[i] == SubsystemName(q[i]) && names[j] == SubsystemName(q[j]);
      assert names[i][0] != names[j][0];
    }
  }

  lemma CanonicalEndpoints(graph: InfraGraph)
    requires WellFormed(graph)
    ensures EndpointsExist(Canonical(graph))
  {
    CanonicalElements(graph);
    var content := Canonical(graph);
    hide Canonical, UniqueBy, TypeName, RelationName, Allowlist;
    forall e | e in content.edges
      ensures HasNode(content.nodes, e.source) && HasNode(content.nodes, e.target)
    {
      assert e in Elems(content.edges);
      var g :| g in graph.edges && ProjectEdge(g) == e;
      assert GraphHasNode(graph, g.source) && GraphHasNode(graph, g.target);
      var n :| n in graph.nodes && n.id == g.source;
      var k :| k in graph.nodes && k.id == g.target;
      assert ProjectNode(n) in Elems(content.nodes) && ProjectNode(k) in Elems(content.nodes);
    }
  }

  /** The content of a well-formed graph is well formed, so neither `validate` nor the diff engine objects to its shape. */
  lemma CanonicalWellFormed(graph: InfraGraph)
    requires WellFormed(graph)
    ensures WellFormedGraph(Canonical(graph))
    ensures UniqueBy(SubsystemName, Canonical(graph).discoveryQuality)
  {
    CanonicalEndpoints(graph);
    ProjectedUnique(graph.nodes);
    var nodes, edges := Map(ProjectNodeOf, graph.nodes), Map(ProjectEdgeOf, graph.edges);
    assert UniqueBy(EdgeId, edges);
    hide ProjectNode, ProjectEdge, DiscoveryQualityOf, WellFormed, Map;
    UniqueByPermutation(NodeId, nodes, SortBy(NodeLe, nodes));
    UniqueByPermutation(EdgeId, edges, SortBy(EdgeLe, edges));
    QualityUnique(Canonical(graph).nodes);
  }

  /**
    Two well-formed graphs have the same fingerprint exactly when they show the same nodes, up to
    metadata outside the allowlist, and the same edges.
   */
  lemma FingerprintCharacterised(a: InfraGraph, b: InfraGraph)
    requires WellFormed(a) && WellFormed(b)
    ensures FingerprintOf(Canonical(a)) == FingerprintOf(Canonical(b)) <==>
      ProjectedNodes(a) == ProjectedNodes(b) && ProjectedEdges(a) == ProjectedEdges(b)
  {
    CanonicalElements(a);
    CanonicalElements(b);
    if ProjectedNodes(a) == ProjectedNodes(b) && ProjectedEdges(a) == ProjectedEdges(b) {
      SameProjectionSameContent(a, b);
    }
  }

  lemma SameProjectionSameContent(a: InfraGraph, b: InfraGraph)
    requires WellFormed(a) && WellFormed(b)
    requires ProjectedNodes(a) == ProjectedNodes(b) && ProjectedEdges(a) == ProjectedEdges(b)
    ensures Canonical(a) == Canonical(b)
  {
    var an, bn := Map(ProjectNodeOf, a.nodes), Map(ProjectNodeOf, b.nodes);
    var ae, be := Map(ProjectEdgeOf, a.edges), Map(ProjectEdgeOf, b.edges);
    UniqueByDistinct(NodeId, an);
    UniqueByDistinct(NodeId, bn);
    UniqueByDistinct(EdgeId, ae);
    UniqueByDistinct(EdgeId, be);
    UniqueNodesSeparate(an);
    MapElements(ProjectNodeOf, a.nodes);
    MapElements(ProjectNodeOf, b.nodes);
    MapElements(ProjectEdgeOf, a.edges);
    MapElements(ProjectEdgeOf, b.edges);
    hide ProjectNode, ProjectEdge, DiscoveryQualityOf, SortBy, Map;
    forall x ensures x in an <==> x in bn { assert x in an <==> x in ProjectedNodes(a); assert x in bn <==> x in ProjectedNodes(b); }
    forall x ensures x in ae <==> x in be { assert x in ae <==> x in ProjectedEdges(a); assert x in be <==> x in ProjectedEdges(b); }
    DistinctPermutation(an, bn);
    DistinctPermutation(ae, be);
    NodeLeOrder();
    EdgeLeOrder();
    SortByCanonical(NodeLe, an, bn);
    SortByCanonical(EdgeLe, ae, be);
  }
}

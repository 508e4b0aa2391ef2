/**
  The evidence-qualified comparison of two snapshots.

  `Compare` is the specification function; `CompareSnapshots` is the loop-based computation.
 */
module DiffEngine {
  import opened Ordering
  import opened Collections
  import opened Graphs
  import opened Snapshots

  datatype DiffStatus =
    | NO_BASELINE | NO_CHANGES | CHANGED | PARTIAL
    | INCOMPATIBLE_SNAPSHOT_SCHEMA | SERVER_MISMATCH | INVALID_TIME_ORDER | INVALID_SNAPSHOT

  datatype NodeChangeKind = ADDED | REMOVED | MODIFIED

  datatype RelationshipChangeKind = RELATIONSHIP_ADDED | RELATIONSHIP_REMOVED

  datatype ChangeEvidence = CONFIRMED | NEWLY_OBSERVED | UNCONFIRMED_REMOVAL

  datatype FieldName = LabelField | MetadataField(key: string) | TypeField

  datatype FieldChange = FieldChange(field: FieldName, before: Option<string>, after: Option<string>)

  datatype NodeChange = NodeChange(
    kind: NodeChangeKind, evidence: ChangeEvidence, nodeId: string, nodeType: string, title: string, fields: seq<FieldChange>)

  datatype RelationshipChange = RelationshipChange(kind: RelationshipChangeKind, evidence: ChangeEvidence, edge: SnapshotEdge)

  datatype DiffSubsystem = BASE_HOST | DOCKER | CADDY | SYSTEMD | HOST_LISTENERS

  datatype UncertaintyReason = CURRENT_DISCOVERY_INCOMPLETE | PREVIOUS_DISCOVERY_INCOMPLETE

  datatype UncertaintyKey = UncertaintyKey(subsystem: DiffSubsystem, reason: UncertaintyReason)

  datatype DiffUncertainty = DiffUncertainty(key: UncertaintyKey, affectedResourceTypes: seq<string>)

  datatype DiffSummary = DiffSummary(
    addedNodes: nat, removedNodes: nat, modifiedNodes: nat, addedRelationships: nat, removedRelationships: nat,
    uncertainComparisons: nat, hasChanges: bool, isComplete: bool)

  datatype InfrastructureDiff = InfrastructureDiff(
    previousSnapshotId: Option<string>, currentSnapshotId: string, previousCapturedAt: Option<int>, currentCapturedAt: int,
    status: DiffStatus, summary: DiffSummary, nodeChanges: seq<NodeChange>,
    relationshipChanges: seq<RelationshipChange>, uncertainties: seq<DiffUncertainty>)

  // ----- discovery completeness -----

  datatype Reading = Reading(subsystem: DiffSubsystem, state: string)

  type Readings = map<DiffSubsystem, Reading>

  function SubsystemOf(name: string): Option<DiffSubsystem> {
    if name == "DOCKER" then Some(DOCKER)
    else if name == "CADDY" then Some(CADDY)
    else if name == "SYSTEMD" then Some(SYSTEMD)
    else if name == "HOST_LISTENERS" then Some(HOST_LISTENERS)
    else None
  }

  const AsReading := (q: DiscoveryQuality) =>
    match SubsystemOf(q.subsystem) case None => None case Some(s) => Some(Reading(s, q.state))
  const ReadingSubsystem := (r: Reading) => r.subsystem

  /** `qualityBySubsystem` */
  function ReadingsOf(content: Content): Readings {
    AssociateBy(ReadingSubsystem, FilterMap(AsReading, content.discoveryQuality))
  }

  predicate IsComplete(s: DiffSubsystem, readings: Readings) {
    match s
    case BASE_HOST => true
    case DOCKER => s in readings && readings[s].state == "AVAILABLE"
    case CADDY => s in readings && readings[s].state in {"DISCOVERED", "NOT_DETECTED"}
    case _ => s in readings && readings[s].state == "DISCOVERED"
  }

  const Remote := {DOCKER, CADDY, SYSTEMD, HOST_LISTENERS}

  function Incomplete(required: set<DiffSubsystem>, readings: Readings): set<DiffSubsystem> {
    set s | s in required && !IsComplete(s, readings)
  }

  /** The subsystems whose discovery a resource of this type depends on. */
  function Required(nodeType: string): set<DiffSubsystem> {
    if nodeType in {"SERVER", "DIRECTORY"} then {BASE_HOST}
    else if nodeType in {"DOCKER_ENGINE", "DOCKER_COMPOSE_PROJECT", "DOCKER_CONTAINER", "PORT", "NETWORK", "MOUNT"} then {DOCKER}
    else if nodeType in {"REVERSE_PROXY", "DOMAIN", "UPSTREAM"} then {DOCKER, CADDY}
    else if nodeType == "SYSTEMD_SERVICE" then {SYSTEMD}
    else if nodeType == "HOST_LISTENER" then {HOST_LISTENERS}
    else Remote
  }

  type NodesById = map<string, SnapshotNode>

  /** The type of a listed node; `valid` guarantees that every endpoint is listed. */
  function TypeOf(nodes: NodesById, id: string): string { if id in nodes then nodes[id].nodeType else "" }

  function RequiredByEdge(edge: SnapshotEdge, nodes: NodesById): set<DiffSubsystem> {
    Required(TypeOf(nodes, edge.source)) + Required(TypeOf(nodes, edge.target))
  }

  function AdditionEvidence(required: set<DiffSubsystem>, previous: Readings): ChangeEvidence {
    if Incomplete(required, previous) == {} then CONFIRMED else NEWLY_OBSERVED
  }

  function RemovalEvidence(required: set<DiffSubsystem>, current: Readings): ChangeEvidence {
    if Incomplete(required, current) == {} then CONFIRMED else UNCONFIRMED_REMOVAL
  }

  // ----- field changes -----

  /** `QUALITY_METADATA_KEYS`: discovery quality is compared elsewhere. */
  predicate IsQualityKey(key: string) {
    key in {
      "discovery status", "docker discovery state", "caddy discovery status", "caddy discovery state",
      "systemd discovery status", "systemd status reasons", "listener discovery status", "listener status reasons"}
  }

  /** `HOST_RESOLUTION_FIELDS` */
  predicate IsHostResolutionField(key: string) {
    key in {
      "host resolution", "target kind", "matching port", "host resolution reason", "host service",
      "eligible listeners", "candidate services"}
  }

  function FieldSubsystems(nodeType: string, key: string): set<DiffSubsystem> {
    if nodeType == "SYSTEMD_SERVICE" && key == "listener count" then {HOST_LISTENERS}
    else if nodeType == "HOST_LISTENER" && key in {"ownership state", "systemd unit"} then {HOST_LISTENERS, SYSTEMD}
    else if nodeType == "DOMAIN" && key == "resolved host services" then {DOCKER, CADDY, HOST_LISTENERS, SYSTEMD}
    else if nodeType == "DOMAIN" && key == "resolved containers" then {DOCKER, CADDY}
    else if nodeType == "UPSTREAM" && IsHostResolutionField(key) then {DOCKER, CADDY, HOST_LISTENERS, SYSTEMD}
    else {}
  }

  function Value(metadata: map<string, string>, key: string): Option<string> {
    if key in metadata then Some(metadata[key]) else None
  }

  function FieldText(f: FieldName): string {
    match f
    case LabelField => "label"
    case MetadataField(key) => "metadata:" + key
    case TypeField => "type"
  }

  predicate FieldLe(a: FieldChange, b: FieldChange) { StringLe(FieldText(a.field), FieldText(b.field)) }

  function MetadataChange(before: SnapshotNode, after: SnapshotNode, current: Readings): string -> Option<FieldChange> {
    (key: string) =>
      var was, now := Value(before.metadata, key), Value(after.metadata, key);
      var ownerComplete := Incomplete(Required(before.nodeType) + Required(after.nodeType), current) == {};
      var fieldComplete := Incomplete(FieldSubsystems(after.nodeType, key), current) == {};
      if !IsQualityKey(key) && was != now && fieldComplete && (now.Some? || ownerComplete)
      then Some(FieldChange(MetadataField(key), was, now)) else None
  }

  function TypeChange(before: SnapshotNode, after: SnapshotNode): seq<FieldChange> {
    if before.nodeType != after.nodeType then [FieldChange(TypeField, Some(before.nodeType), Some(after.nodeType))] else []
  }

  function LabelChange(before: SnapshotNode, after: SnapshotNode): seq<FieldChange> {
    if before.title != after.title && before.nodeType != "DOCKER_ENGINE"
    then [FieldChange(LabelField, Some(before.title), Some(after.title))] else []
  }

  /** `fieldChanges` */
  function FieldChanges(before: SnapshotNode, after: SnapshotNode, current: Readings): seq<FieldChange> {
    SortBy(FieldLe, TypeChange(before, after) + LabelChange(before, after)
      + FilterMap(MetadataChange(before, after, current), SortedSet(before.metadata.Keys + after.metadata.Keys)))
  }

  // ----- node and relationship changes -----

  function ChangeOf(kind: NodeChangeKind, evidence: ChangeEvidence, n: SnapshotNode, fields: seq<FieldChange>): NodeChange {
    NodeChange(kind, evidence, n.id, n.nodeType, n.title, fields)
  }

  /** The change that a current node is, if the previous snapshot lacks it. */
  function Added(previous: NodesById, readings: Readings): SnapshotNode -> Option<NodeChange> {
    (n: SnapshotNode) =>
      if n.id in previous then None else Some(ChangeOf(ADDED, AdditionEvidence(Required(n.nodeType), readings), n, []))
  }

  /** The change that a previous node is, if the current snapshot lacks it. */
  function Removed(current: NodesById, readings: Readings): SnapshotNode -> Option<NodeChange> {
    (n: SnapshotNode) =>
      if n.id in current then None else Some(ChangeOf(REMOVED, RemovalEvidence(Required(n.nodeType), readings), n, []))
  }

  /** The change between a previous node and its current form. */
  function Modified(current: NodesById, readings: Readings): SnapshotNode -> Option<NodeChange> {
    (n: SnapshotNode) =>
      if n.id !in current then None
      else
        var fields := FieldChanges(n, current[n.id], readings);
        if fields == [] then None else Some(ChangeOf(MODIFIED, CONFIRMED, current[n.id], fields))
  }

  type EdgesById = map<string, SnapshotEdge>

  function EdgeAdded(previous: EdgesById, nodes: NodesById, readings: Readings): SnapshotEdge -> Option<RelationshipChange> {
    (e: SnapshotEdge) =>
      if e.id in previous then None
      else Some(RelationshipChange(RELATIONSHIP_ADDED, AdditionEvidence(RequiredByEdge(e, nodes), readings), e))
  }

  function EdgeRemoved(current: EdgesById, nodes: NodesById, readings: Readings): SnapshotEdge -> Option<RelationshipChange> {
    (e: SnapshotEdge) =>
      if e.id in current then None
      else Some(RelationshipChange(RELATIONSHIP_REMOVED, RemovalEvidence(RequiredByEdge(e, nodes), readings), e))
  }

  /** What an added node or edge depends on. */
  function AddedNeeds(previous: NodesById): SnapshotNode -> Option<set<DiffSubsystem>> {
    (n: SnapshotNode) => if n.id in previous then None else Some(Required(n.nodeType))
  }

  function EdgeAddedNeeds(previous: EdgesById, nodes: NodesById): SnapshotEdge -> Option<set<DiffSubsystem>> {
    (e: SnapshotEdge) => if e.id in previous then None else Some(RequiredByEdge(e, nodes))
  }

  // ----- uncertainties -----

  function KeysFor(subsystems: set<DiffSubsystem>, reason: UncertaintyReason): set<UncertaintyKey> {
    set s | s in subsystems :: UncertaintyKey(s, reason)
  }

  /** The previous-side uncertainties caused by a list of requirements. */
  function Doubts(needs: seq<set<DiffSubsystem>>, previous: Readings): set<UncertaintyKey> {
    if needs == [] then {}
    else Doubts(needs[..|needs| - 1], previous) + KeysFor(Incomplete(needs[|needs| - 1], previous), PREVIOUS_DISCOVERY_INCOMPLETE)
  }

  const AllNodeTypes := [
    NodeType.SERVER, NodeType.REVERSE_PROXY, NodeType.DOMAIN, NodeType.UPSTREAM, NodeType.DOCKER_ENGINE,
    NodeType.DOCKER_COMPOSE_PROJECT, NodeType.DOCKER_CONTAINER, NodeType.NETWORK, NodeType.MOUNT, NodeType.DIRECTORY,
    NodeType.PORT, NodeType.SYSTEMD_SERVICE, NodeType.HOST_LISTENER]
  const TypeNameOf := (t: NodeType) => TypeName(t)

  function DependsOn(s: DiffSubsystem): NodeType -> bool { (t: NodeType) => s in Required(TypeName(t)) }

  function ResourceTypesFor(s: DiffSubsystem): seq<string> {
    SortBy(StringLe, Map(TypeNameOf, Filter(DependsOn(s), AllNodeTypes)))
  }

  /** All keys in the order of (subsystem, reason). */
  const AllUncertainties := [
    UncertaintyKey(BASE_HOST, CURRENT_DISCOVERY_INCOMPLETE), UncertaintyKey(BASE_HOST, PREVIOUS_DISCOVERY_INCOMPLETE),
    UncertaintyKey(DOCKER, CURRENT_DISCOVERY_INCOMPLETE), UncertaintyKey(DOCKER, PREVIOUS_DISCOVERY_INCOMPLETE),
    UncertaintyKey(CADDY, CURRENT_DISCOVERY_INCOMPLETE), UncertaintyKey(CADDY, PREVIOUS_DISCOVERY_INCOMPLETE),
    UncertaintyKey(SYSTEMD, CURRENT_DISCOVERY_INCOMPLETE), UncertaintyKey(SYSTEMD, PREVIOUS_DISCOVERY_INCOMPLETE),
    UncertaintyKey(HOST_LISTENERS, CURRENT_DISCOVERY_INCOMPLETE), UncertaintyKey(HOST_LISTENERS, PREVIOUS_DISCOVERY_INCOMPLETE)]

  function Reported(keys: set<UncertaintyKey>): UncertaintyKey -> Option<DiffUncertainty> {
    (k: UncertaintyKey) => if k in keys then Some(DiffUncertainty(k, ResourceTypesFor(k.subsystem))) else None
  }

  /** The uncertainties sorted by subsystem and reason, with the resource types they affect. */
  function OrderedUncertainties(keys: set<UncertaintyKey>): seq<DiffUncertainty> {
    FilterMap(Reported(keys), AllUncertainties)
  }

  // ----- order of the published lists -----

  function KindRank(k: NodeChangeKind): string { match k case ADDED => "0" case REMOVED => "1" case MODIFIED => "2" }

  function RelationshipRank(k: RelationshipChangeKind): string {
    match k case RELATIONSHIP_ADDED => "0" case RELATIONSHIP_REMOVED => "1"
  }

  predicate NodeChangeLe(a: NodeChange, b: NodeChange) {
    KeysLe([KindRank(a.kind), a.nodeType, a.nodeId], [KindRank(b.kind), b.nodeType, b.nodeId])
  }

  predicate RelationshipChangeLe(a: RelationshipChange, b: RelationshipChange) {
    KeysLe([RelationshipRank(a.kind), a.edge.relation, a.edge.id], [RelationshipRank(b.kind), b.edge.relation, b.edge.id])
  }

  // ----- comparison -----

  predicate ValidContent(content: Content) {
    && UniqueBy(NodeId, content.nodes)
    && UniqueBy(EdgeId, content.edges)
    && UniqueBy(SubsystemName, content.discoveryQuality)
    && EndpointsExist(content)
  }

  function NodesOf(content: Content): NodesById { AssociateBy(NodeId, content.nodes) }

  function EdgesOf(content: Content): EdgesById { AssociateBy(EdgeId, content.edges) }

  function FoundNodeChanges(previous: Content, current: Content): seq<NodeChange> {
    FilterMap(Added(NodesOf(previous), ReadingsOf(previous)), current.nodes)
      + FilterMap(Removed(NodesOf(current), ReadingsOf(current)), previous.nodes)
      + FilterMap(Modified(NodesOf(current), ReadingsOf(current)), previous.nodes)
  }

  function FoundRelationshipChanges(previous: Content, current: Content): seq<RelationshipChange> {
    FilterMap(EdgeAdded(EdgesOf(previous), NodesOf(current), ReadingsOf(previous)), current.edges)
      + FilterMap(EdgeRemoved(EdgesOf(current), NodesOf(previous), ReadingsOf(current)), previous.edges)
  }

  function FoundUncertainties(previous: Content, current: Content): set<UncertaintyKey> {
    KeysFor(Incomplete(Remote, ReadingsOf(current)), CURRENT_DISCOVERY_INCOMPLETE)
      + Doubts(FilterMap(AddedNeeds(NodesOf(previous)), current.nodes), ReadingsOf(previous))
      + Doubts(FilterMap(EdgeAddedNeeds(EdgesOf(previous), NodesOf(current)), current.edges), ReadingsOf(previous))
  }

  const IsAdded := (c: NodeChange) => c.kind == ADDED
  const IsConfirmedRemoval := (c: NodeChange) => c.kind == REMOVED && c.evidence == CONFIRMED
  const IsModified := (c: NodeChange) => c.kind == MODIFIED
  const IsUnconfirmed := (c: NodeChange) => c.evidence == UNCONFIRMED_REMOVAL
  const IsNotUnconfirmed := (c: NodeChange) => c.evidence != UNCONFIRMED_REMOVAL
  const IsEdgeAdded := (c: RelationshipChange) => c.kind == RELATIONSHIP_ADDED
  const IsConfirmedEdgeRemoval := (c: RelationshipChange) => c.kind == RELATIONSHIP_REMOVED && c.evidence == CONFIRMED
  const IsEdgeUnconfirmed := (c: RelationshipChange) => c.evidence == UNCONFIRMED_REMOVAL
  const IsEdgeNotUnconfirmed := (c: RelationshipChange) => c.evidence != UNCONFIRMED_REMOVAL

  /** Counts, completeness and status of ordered change lists. */
  function Summarise(
    previous: Snapshot, current: Snapshot, nodes: seq<NodeChange>, edges: seq<RelationshipChange>,
    uncertainties: seq<DiffUncertainty>): InfrastructureDiff
  {
    var unconfirmed := Count(IsUnconfirmed, nodes) + Count(IsEdgeUnconfirmed, edges);
    var confirmed := Count(IsNotUnconfirmed, nodes) + Count(IsEdgeNotUnconfirmed, edges);
    var complete := uncertainties == [] && unconfirmed == 0;
    var summary := DiffSummary(
      Count(IsAdded, nodes), Count(IsConfirmedRemoval, nodes), Count(IsModified, nodes),
      Count(IsEdgeAdded, edges), Count(IsConfirmedEdgeRemoval, edges),
      |uncertainties| + unconfirmed, confirmed > 0, complete);
    var status := if !complete then PARTIAL else if summary.hasChanges then CHANGED else NO_CHANGES;
    InfrastructureDiff(
      Some(previous.snapshotId), current.snapshotId, Some(previous.capturedAt), current.capturedAt,
      status, summary, nodes, edges, uncertainties)
  }

  /** The comparison proper, once the terminal cases are excluded. */
  function FullDiff(previous: Snapshot, current: Snapshot): InfrastructureDiff {
    Summarise(previous, current,
      SortBy(NodeChangeLe, FoundNodeChanges(previous.content, current.content)),
      SortBy(RelationshipChangeLe, FoundRelationshipChanges(previous.content, current.content)),
      OrderedUncertainties(FoundUncertainties(previous.content, current.content)))
  }

  function Terminal(previous: Option<Snapshot>, current: Snapshot, status: DiffStatus, complete: bool): InfrastructureDiff {
    InfrastructureDiff(
      if previous.Some? then Some(previous.value.snapshotId) else None, current.snapshotId,
      if previous.Some? then Some(previous.value.capturedAt) else None, current.capturedAt,
      status, DiffSummary(0, 0, 0, 0, 0, 0, false, complete), [], [], [])
  }

  /** `compare` */
  function Compare(previous: Option<Snapshot>, current: Snapshot): InfrastructureDiff {
    if current.schemaVersion != SNAPSHOT_SCHEMA_VERSION
      || (previous.Some? && previous.value.schemaVersion != SNAPSHOT_SCHEMA_VERSION) then
      Terminal(previous, current, INCOMPATIBLE_SNAPSHOT_SCHEMA, false)
    else if previous.None? then Terminal(None, current, NO_BASELINE, false)
    else if previous.value.serverId != current.serverId then Terminal(previous, current, SERVER_MISMATCH, false)
    else if previous.value.capturedAt > current.capturedAt then Terminal(previous, current, INVALID_TIME_ORDER, false)
    else if !ValidContent(previous.value.content) || !ValidContent(current.content) then
      Terminal(previous, current, INVALID_SNAPSHOT, false)
    else if previous.value.graphFingerprint == current.graphFingerprint then Terminal(previous, current, NO_CHANGES, true)
    else FullDiff(previous.value, current)
  }

  // ----- the computation -----

  /** The nodes and relationships present on one side only, and the doubts additions raise. */
  method CompareSnapshots(previous: Option<Snapshot>, current: Snapshot) returns (diff: InfrastructureDiff)
    ensures diff == Compare(previous, current)
  {
    hide FilterMap, Doubts, SortBy, AssociateBy, Incomplete, ReadingsOf, Summarise, OrderedUncertainties;
    if current.schemaVersion != SNAPSHOT_SCHEMA_VERSION
      || (previous.Some? && previous.value.schemaVersion != SNAPSHOT_SCHEMA_VERSION) {
      return Terminal(previous, current, INCOMPATIBLE_SNAPSHOT_SCHEMA, false);
    }
    if previous.None? { return Terminal(None, current, NO_BASELINE, false); }
    var before := previous.value;
    if before.serverId != current.serverId { return Terminal(previous, current, SERVER_MISMATCH, false); }
    if before.capturedAt > current.capturedAt { return Terminal(previous, current, INVALID_TIME_ORDER, false); }
    if !ValidContent(before.content) || !ValidContent(current.content) {
      return Terminal(previous, current, INVALID_SNAPSHOT, false);
    }
    if before.graphFingerprint == current.graphFingerprint { return Terminal(previous, current, NO_CHANGES, true); }
    var nodeChanges, nodeDoubts := CollectNodeChanges(before.content, current.content);
    var relationshipChanges, edgeDoubts := CollectRelationshipChanges(before.content, current.content);
    var keys := KeysFor(Incomplete(Remote, ReadingsOf(current.content)), CURRENT_DISCOVERY_INCOMPLETE) + nodeDoubts + edgeDoubts;
    diff := Summarise(before, current, SortBy(NodeChangeLe, nodeChanges),
      SortBy(RelationshipChangeLe, relationshipChanges), OrderedUncertainties(keys));
  }

  method CollectNodeChanges(previous: Content, current: Content)
    returns (changes: seq<NodeChange>, doubts: set<UncertaintyKey>)
    ensures changes == FoundNodeChanges(previous, current)
    ensures doubts == Doubts(FilterMap(AddedNeeds(NodesOf(previous)), current.nodes), ReadingsOf(previous))
  {
    hide AssociateBy, FilterMap, Required, Doubts, FieldChanges, Incomplete, ReadingsOf, KeysFor;
    var previousReadings, currentReadings := ReadingsOf(previous), ReadingsOf(current);
    var previousNodes, currentNodes := NodesOf(previous), NodesOf(current);
    ghost var added, removed, modified :=
      Added(previousNodes, previousReadings), Removed(currentNodes, currentReadings), Modified(currentNodes, currentReadings);
    ghost var needs := AddedNeeds(previousNodes);
    changes, doubts := [], {};
    FilterMapEmpty(added);
    FilterMapEmpty(removed);
    FilterMapEmpty(modified);
    FilterMapEmpty(needs);
    DoubtsEmpty(previousReadings);
    for i := 0 to |current.nodes|
      invariant changes == FilterMap(added, current.nodes[..i])
      invariant doubts == Doubts(FilterMap(needs, current.nodes[..i]), previousReadings)
    {
      var n := current.nodes[i];
      FilterMapStep(added, current.nodes, i);
      FilterMapStep(needs, current.nodes, i);
      if n.id !in previousNodes {
        var required := Required(n.nodeType);
        DoubtsStep(FilterMap(needs, current.nodes[..i]), required, previousReadings);
        var evidence := AdditionEvidence(required, previousReadings);
        if evidence == NEWLY_OBSERVED {
          doubts := doubts + KeysFor(Incomplete(required, previousReadings), PREVIOUS_DISCOVERY_INCOMPLETE);
        }
        changes := changes + [ChangeOf(ADDED, evidence, n, [])];
      }
    }
    assert current.nodes[..|current.nodes|] == current.nodes;
    ghost var base := changes;
    for i := 0 to |previous.nodes|
      invariant changes == base + FilterMap(removed, previous.nodes[..i])
    {
      var n := previous.nodes[i];
      FilterMapStep(removed, previous.nodes, i);
      if n.id !in currentNodes {
        changes := changes + [ChangeOf(REMOVED, RemovalEvidence(Required(n.nodeType), currentReadings), n, [])];
      }
    }
    assert previous.nodes[..|previous.nodes|] == previous.nodes;
    base := changes;
    for i := 0 to |previous.nodes|
      invariant changes == base + FilterMap(modified, previous.nodes[..i])
    {
      var n := previous.nodes[i];
      FilterMapStep(modified, previous.nodes, i);
      if n.id in currentNodes {
        var fields := FieldChanges(n, currentNodes[n.id], currentReadings);
        if fields != [] { changes := changes + [ChangeOf(MODIFIED, CONFIRMED, currentNodes[n.id], fields)]; }
      }
    }
  }

  method CollectRelationshipChanges(previous: Content, current: Content)
    returns (changes: seq<RelationshipChange>, doubts: set<UncertaintyKey>)
    ensures changes == FoundRelationshipChanges(previous, current)
    ensures doubts ==
      Doubts(FilterMap(EdgeAddedNeeds(EdgesOf(previous), NodesOf(current)), current.edges), ReadingsOf(previous))
  {
    hide AssociateBy, FilterMap, RequiredByEdge, Doubts, Incomplete, ReadingsOf, KeysFor;
    var previousReadings, currentReadings := ReadingsOf(previous), ReadingsOf(current);
    var previousEdges, currentEdges := EdgesOf(previous), EdgesOf(current);
    var previousNodes, currentNodes := NodesOf(previous), NodesOf(current);
    ghost var added, removed :=
      EdgeAdded(previousEdges, currentNodes, previousReadings), EdgeRemoved(currentEdges, previousNodes, currentReadings);
    ghost var needs := EdgeAddedNeeds(previousEdges, currentNodes);
    changes, doubts := [], {};
    FilterMapEmpty(added);
    FilterMapEmpty(removed);
    FilterMapEmpty(needs);
    DoubtsEmpty(previousReadings);
    for i := 0 to |current.edges|
      invariant changes == FilterMap(added, current.edges[..i])
      invariant doubts == Doubts(FilterMap(needs, current.edges[..i]), previousReadings)
    {
      var e := current.edges[i];
      FilterMapStep(added, current.edges, i);
      FilterMapStep(needs, current.edges, i);
      if e.id !in previousEdges {
        var required := RequiredByEdge(e, currentNodes);
        DoubtsStep(FilterMap(needs, current.edges[..i]), required, previousReadings);
        var evidence := AdditionEvidence(required, previousReadings);
        if evidence == NEWLY_OBSERVED {
          doubts := doubts + KeysFor(Incomplete(required, previousReadings), PREVIOUS_DISCOVERY_INCOMPLETE);
        }
        changes := changes + [RelationshipChange(RELATIONSHIP_ADDED, evidence, e)];
      }
    }
    assert current.edges[..|current.edges|] == current.edges;
    ghost var base := changes;
    for i := 0 to |previous.edges|
      invariant changes == base + FilterMap(removed, previous.edges[..i])
    {
      var e := previous.edges[i];
      FilterMapStep(removed, previous.edges, i);
      if e.id !in currentEdges {
        changes := changes + [RelationshipChange(
          RELATIONSHIP_REMOVED, RemovalEvidence(RequiredByEdge(e, previousNodes), currentReadings), e)];
      }
    }
    assert previous.edges[..|previous.edges|] == previous.edges;
  }

  lemma FilterMapEmpty<T, U>(f: T -> Option<U>)
    ensures forall s: seq<T> :: FilterMap(f, s[..0]) == []
  {
    forall s: seq<T> ensures FilterMap(f, s[..0]) == [] { assert s[..0] == []; }
  }

  lemma DoubtsEmpty(previous: Readings)
    ensures Doubts([], previous) == {}
  {
  }

  lemma DoubtsStep(needs: seq<set<DiffSubsystem>>, required: set<DiffSubsystem>, previous: Readings)
    ensures Doubts(needs + [required], previous) ==
      Doubts(needs, previous) + KeysFor(Incomplete(required, previous), PREVIOUS_DISCOVERY_INCOMPLETE)
    ensures AdditionEvidence(required, previous) == CONFIRMED ==>
      KeysFor(Incomplete(required, previous), PREVIOUS_DISCOVERY_INCOMPLETE) == {}
  {
    assert (needs + [required])[..|needs|] == needs;
  }
}

/** Persisted snapshots: their canonical content, their fingerprint and the bounds a file must respect. */
module Snapshots {
  import opened Collections

  const SNAPSHOT_SCHEMA_VERSION := 1

  datatype SnapshotNode = SnapshotNode(id: string, title: string, nodeType: string, metadata: map<string, string>)

  datatype SnapshotEdge = SnapshotEdge(id: string, source: string, target: string, relation: string)

  datatype DiscoveryQuality = DiscoveryQuality(subsystem: string, state: string, reasons: seq<string>)

  datatype Content = Content(nodes: seq<SnapshotNode>, edges: seq<SnapshotEdge>, discoveryQuality: seq<DiscoveryQuality>)

  /** The hashed payload itself: two payloads have the same fingerprint exactly when they are equal. */
  datatype Fingerprint = Fingerprint(schemaVersion: int, content: Content)

  datatype Snapshot = Snapshot(
    schemaVersion: int,
    snapshotId: string,
    serverId: string,
    capturedAt: int,
    graphFingerprint: Fingerprint,
    content: Content)

  datatype Metadata = Metadata(snapshotId: string, capturedAt: int, graphFingerprint: Fingerprint, schemaVersion: int)

  function FingerprintOf(content: Content): Fingerprint {
    Fingerprint(SNAPSHOT_SCHEMA_VERSION, content)
  }

  function ToMetadata(s: Snapshot): Metadata {
    Metadata(s.snapshotId, s.capturedAt, s.graphFingerprint, s.schemaVersion)
  }

  const NodeId := (n: SnapshotNode) => n.id
  const EdgeId := (e: SnapshotEdge) => e.id
  const SubsystemName := (q: DiscoveryQuality) => q.subsystem

  // ----- identifiers -----

  predicate IsHex(c: char) { '0' <= c <= '9' || 'a' <= c <= 'f' || 'A' <= c <= 'F' }

  predicate IsUuid(s: string) {
    && |s| == 36
    && s[8] == '-' && s[13] == '-' && s[18] == '-' && s[23] == '-'
    && '1' <= s[14] <= '5'
    && s[19] in "89abAB"
    && (forall i :: 0 <= i < 36 && i != 8 && i != 13 && i != 18 && i != 23 ==> IsHex(s[i]))
  }

  // ----- persistence bounds -----

  const MAX_NODES := 25_000
  const MAX_EDGES := 100_000
  const MAX_DISCOVERY_QUALITY := 32
  const MAX_METADATA_ENTRIES := 64
  const MAX_STATUS_REASONS := 32
  const MAX_ID_LENGTH := 1024
  const MAX_LABEL_LENGTH := 4096
  const MAX_TYPE_LENGTH := 128
  const MAX_METADATA_KEY_LENGTH := 256
  const MAX_METADATA_VALUE_LENGTH := 16_384

  predicate Bounded(value: string, limit: nat) { 0 < |value| <= limit }

  predicate BoundedNode(n: SnapshotNode) {
    && Bounded(n.id, MAX_ID_LENGTH) && Bounded(n.title, MAX_LABEL_LENGTH) && Bounded(n.nodeType, MAX_TYPE_LENGTH)
    && |n.metadata| <= MAX_METADATA_ENTRIES
    && forall k :: k in n.metadata ==>
      Bounded(k, MAX_METADATA_KEY_LENGTH) && Bounded(n.metadata[k], MAX_METADATA_VALUE_LENGTH)
  }

  predicate BoundedEdge(e: SnapshotEdge) {
    && Bounded(e.id, MAX_ID_LENGTH) && Bounded(e.source, MAX_ID_LENGTH)
    && Bounded(e.target, MAX_ID_LENGTH) && Bounded(e.relation, MAX_TYPE_LENGTH)
  }

  predicate BoundedQuality(q: DiscoveryQuality) {
    && Bounded(q.subsystem, MAX_TYPE_LENGTH) && Bounded(q.state, MAX_TYPE_LENGTH)
    && |q.reasons| <= MAX_STATUS_REASONS
    && forall r :: r in q.reasons ==> Bounded(r, MAX_TYPE_LENGTH)
  }

  /** Node and edge identifiers are unique and every edge joins two listed nodes. */
  predicate WellFormedGraph(content: Content) {
    && UniqueBy(NodeId, content.nodes)
    && UniqueBy(EdgeId, content.edges)
    && EndpointsExist(content)
  }

  predicate EndpointsExist(content: Content) {
    forall e :: e in content.edges ==> HasNode(content.nodes, e.source) && HasNode(content.nodes, e.target)
  }

  predicate HasNode(nodes: seq<SnapshotNode>, id: string) {
    exists n :: n in nodes && n.id == id
  }

  /** The checks of `validate`, each of which throws in the source. */
  predicate Validate(s: Snapshot) {
    && s.schemaVersion == SNAPSHOT_SCHEMA_VERSION
    && IsUuid(s.serverId) && IsUuid(s.snapshotId)
    && |s.content.nodes| <= MAX_NODES && |s.content.edges| <= MAX_EDGES
    && |s.content.discoveryQuality| <= MAX_DISCOVERY_QUALITY
    && WellFormedGraph(s.content)
    && (forall n :: n in s.content.nodes ==> BoundedNode(n))
    && (forall e :: e in s.content.edges ==> BoundedEdge(e))
    && (forall q :: q in s.content.discoveryQuality ==> BoundedQuality(q))
    && FingerprintOf(s.content) == s.graphFingerprint
  }
}

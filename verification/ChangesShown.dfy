/** From two snapshots to what the changes view shows of their relationships. */
module ChangesShown {
  import opened Ordering
  import opened Collections
  import opened Graphs
  import opened Snapshots
  import opened Projection
  import opened DiffEngine
  import opened DiffOrder
  import opened DiffReplay
  import opened Comparing
  import opened ChangesModel

  function KindText(kind: RelationshipChangeKind): string {
    match kind case RELATIONSHIP_ADDED => ADDITION case RELATIONSHIP_REMOVED => REMOVAL
  }

  function EvidenceText(evidence: ChangeEvidence): string {
    match evidence
    case CONFIRMED => "CONFIRMED"
    case NEWLY_OBSERVED => "NEWLY_OBSERVED"
    case UNCONFIRMED_REMOVAL => UNCONFIRMED
  }

  /** A relationship change as it is sent to the view. */
  const Sent := (y: RelationshipChange) =>
    ChangeRecord("relationship:" + KindText(y.kind) + ":" + y.edge.id, KindText(y.kind), EvidenceText(y.evidence), y.edge)

  function RecordsIn(payload: Payload): seq<ChangeRecord> { Map(Sent, payload.diff.relationshipChanges) }

  function ResourcesIn(payload: Payload): Resources { AssociateBy(ResourceId, payload.resources) }

  /** The view finds every node that the diff mentions as the snapshots hold it. */
  lemma ResourceFound(previous: Snapshot, current: Snapshot, persisted: bool, history: seq<Metadata>, id: string)
    requires ValidContent(previous.content) && ValidContent(current.content)
    requires id in RelevantIds(Compare(Some(previous), current))
    ensures var resources := ResourcesIn(PayloadOf(Some(previous), current, persisted, history));
      && Before(resources, id) == NodeIn(NodesOf(previous.content), id)
      && After(resources, id) == NodeIn(NodesOf(current.content), id)
  {
    var payload := PayloadOf(Some(previous), current, persisted, history);
    assert payload.diff == Compare(Some(previous), current) by { hide Compare; }
    hide PayloadOf, NodesOf, ValidContent, RelevantIds, Compare;
    ResourcesCoverDiff(previous, current, persisted, history);
    AssociateByKeys(ResourceId, payload.resources);
    hide AssociateBy;
    var r :| r in payload.resources && r.nodeId == id;
    assert ResourceId(r) == id;
  }

  lemma SentFacts(y: RelationshipChange)
    ensures Sent(y).edge == y.edge
    ensures Sent(y).kind == REMOVAL <==> y.kind == RELATIONSHIP_REMOVED
    ensures Sent(y).kind == ADDITION <==> y.kind == RELATIONSHIP_ADDED
  {
    assert |REMOVAL| != |ADDITION|;
  }

  /** An edge of one content that another lacks. */
  predicate Lost(from: Content, to: Content, e: SnapshotEdge) {
    e in from.edges && e.id !in EdgesOf(to) && e.source in NodesOf(from) && e.target in NodesOf(from)
  }

  /** A sent change and where it comes from: an edge of one snapshot that the other lacks, both ends listed. */
  lemma SentOrigin(previous: Snapshot, current: Snapshot, persisted: bool, history: seq<Metadata>, r: ChangeRecord)
    requires ValidContent(previous.content) && ValidContent(current.content)
    requires r in RecordsIn(PayloadOf(Some(previous), current, persisted, history))
    ensures r.edge.source in RelevantIds(Compare(Some(previous), current)) && r.edge.target in RelevantIds(Compare(Some(previous), current))
    ensures r.kind == REMOVAL ==> Lost(previous.content, current.content, r.edge)
    ensures r.kind == ADDITION ==> Lost(current.content, previous.content, r.edge)
  {
    var diff := Compare(Some(previous), current);
    assert PayloadOf(Some(previous), current, persisted, history).diff == diff by { hide Compare; }
    ComparedLists(previous, current);
    hide PayloadOf, NodesOf, Compare, FullDiff, FoundRelationshipChanges, Sent, Map;
    var y := MapOrigin(Sent, diff.relationshipChanges, r);
    SentFacts(y);
    PublishedEdge(previous, current, y);
    FoundEdgeChange(previous.content, current.content, y);
    EndpointListed(if y.kind == RELATIONSHIP_REMOVED then previous.content else current.content, y.edge);
  }

  ghost predicate PlainRelations(c: Content) { forall e :: e in c.edges ==> NUL !in e.relation }

  /** One entry says: this relationship of this node went there before and goes there now. */
  predicate Retarget(previous: Content, current: Content, e: SnapshotEdge, f: SnapshotEdge, p: Presentation) {
    && Lost(previous, current, e) && Lost(current, previous, f)
    && e.source == f.source && e.relation == f.relation == p.relation
    && p.subject == Some(NodesOf(current)[f.source])
    && p.beforeTarget == Some(NodesOf(previous)[e.target])
    && p.afterTarget == Some(NodesOf(current)[f.target])
  }

  lemma RetargetShown(previous: Snapshot, current: Snapshot, persisted: bool, history: seq<Metadata>,
    p: Presentation, removed: ChangeRecord, added: ChangeRecord)
    requires ValidContent(previous.content) && ValidContent(current.content)
    requires var payload := PayloadOf(Some(previous), current, persisted, history);
      && removed in RecordsIn(payload) && added in RecordsIn(payload)
      && ShowsPair(p, removed, added, ResourcesIn(payload))
    ensures Retarget(previous.content, current.content, removed.edge, added.edge, p)
  {
    hide PayloadOf, NodesOf, EdgesOf, Compare, ResourcesIn, RecordsIn, RelevantIds, ValidContent, Before, After;
    SentOrigin(previous, current, persisted, history, removed);
    SentOrigin(previous, current, persisted, history, added);
    ResourceFound(previous, current, persisted, history, added.edge.source);
    ResourceFound(previous, current, persisted, history, added.edge.target);
    ResourceFound(previous, current, persisted, history, removed.edge.target);
  }

  /** An entry is made of two changes: the removal of one edge and the addition of the other. */
  ghost predicate HoldsPair(p: Presentation, e: SnapshotEdge, f: SnapshotEdge) {
    exists removed, added :: IsPair(p.records, removed, added) && removed.edge == e && added.edge == f
  }

  /**
    Whatever two snapshots are compared, the two changes of an entry are the removal of an edge e that the
    previous snapshot had and the current lacks and the addition of an edge f the other way round; the entry
    is one relationship that moved exactly when the sources of the two are equally long.
   */
  lemma RetargetsExactly(previous: Snapshot, current: Snapshot, persisted: bool, history: seq<Metadata>,
    typeLabel: string -> string, p: Presentation) returns (e: SnapshotEdge, f: SnapshotEdge)
    requires ValidContent(previous.content) && ValidContent(current.content)
    requires var payload := PayloadOf(Some(previous), current, persisted, history);
      p in Certain(RecordsIn(payload), ResourcesIn(payload), typeLabel)
    ensures |p.records| == 1 || (
      && HoldsPair(p, e, f)
      && Lost(previous.content, current.content, e) && Lost(current.content, previous.content, f)
      && e.source + [NUL] + e.relation == f.source + [NUL] + f.relation
      && (Retarget(previous.content, current.content, e, f, p) <==> |e.source| == |f.source|))
  {
    var payload := PayloadOf(Some(previous), current, persisted, history);
    hide PayloadOf, NodesOf, EdgesOf, ResourcesIn, RecordsIn, ValidContent, Certain, Lost, Before, After;
    var removed, added := CertainShape(RecordsIn(payload), ResourcesIn(payload), typeLabel, p);
    e, f := removed.edge, added.edge;
    if |p.records| != 1 {
      SentOrigin(previous, current, persisted, history, removed);
      SentOrigin(previous, current, persisted, history, added);
      if |e.source| == |f.source| { RetargetShown(previous, current, persisted, history, p, removed, added); }
    }
  }

  /** With relation names, which hold no separator, an entry of two changes is always a relationship that moved. */
  lemma RetargetsMeanMoves(previous: Snapshot, current: Snapshot, persisted: bool, history: seq<Metadata>,
    typeLabel: string -> string, p: Presentation) returns (e: SnapshotEdge, f: SnapshotEdge)
    requires ValidContent(previous.content) && ValidContent(current.content)
    requires PlainRelations(previous.content) && PlainRelations(current.content)
    requires var payload := PayloadOf(Some(previous), current, persisted, history);
      p in Certain(RecordsIn(payload), ResourcesIn(payload), typeLabel)
    ensures |p.records| == 1 || (HoldsPair(p, e, f) && Retarget(previous.content, current.content, e, f, p))
  {
    hide PayloadOf, NodesOf, EdgesOf, ResourcesIn, RecordsIn, ValidContent, Certain, Retarget, HoldsPair;
    e, f := RetargetsExactly(previous, current, persisted, history, typeLabel, p);
    if |p.records| != 1 { PlainRelationsKeep(ChangeRecord("", "", "", e), ChangeRecord("", "", "", f)); }
  }

  lemma RelationTextsPlain(r: RelationType)
    ensures NUL !in RelationName(r)
  {
  }

  /** Projected contents name their relations plainly. */
  lemma ProjectedPlain(graph: InfraGraph)
    requires ContentOf(graph).Success?
    ensures PlainRelations(ContentOf(graph).value)
  {
    SortByElements(EdgeLe, Map(ProjectEdgeOf, graph.edges));
    hide SortBy, Map, RelationName, WellFormed, UniqueBy, DiscoveryQualityOf;
    forall e | e in Map(ProjectEdgeOf, graph.edges) ensures NUL !in e.relation {
      var g := MapOrigin(ProjectEdgeOf, graph.edges, e);
      RelationTextsPlain(g.relation);
    }
  }
}

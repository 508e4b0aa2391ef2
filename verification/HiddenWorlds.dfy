/**
  What the evidence labels mean: absence is evidence only where discovery was complete.

  A *world* is what may really exist on the server.  A snapshot is consistent with a world when
  everything it shows exists there, and when it may have missed only resources that depend on a
  subsystem whose discovery was incomplete.
 */
module HiddenWorlds {
  import opened Ordering
  import opened Collections
  import opened Snapshots
  import opened DiffEngine
  import opened DiffMeaning
  import opened DiffOrder

  /** A node of the world: an identifier that stands for a resource of one type. */
  type Population = map<string, string>

  /** Nodes by identifier with their types, and edges by identifier. */
  datatype World = World(nodes: Population, edges: map<string, SnapshotEdge>)

  function NeedsInWorld(w: World, e: SnapshotEdge): set<DiffSubsystem>
    requires e.source in w.nodes && e.target in w.nodes
  {
    Required(w.nodes[e.source]) + Required(w.nodes[e.target])
  }

  ghost predicate Closed(w: World) {
    forall id :: id in w.edges ==>
      w.edges[id].id == id && w.edges[id].source in w.nodes && w.edges[id].target in w.nodes
  }

  ghost predicate Shown(c: Content, w: World) {
    && (forall n :: n in c.nodes ==> n.id in w.nodes && w.nodes[n.id] == n.nodeType)
    && (forall e :: e in c.edges ==> e.id in w.edges && w.edges[e.id] == e)
  }

  /** What the snapshot does not show, it missed for want of discovery. */
  ghost predicate MissedOnlyForWant(c: Content, w: World)
    requires Closed(w)
  {
    && (forall id :: id in w.nodes && id !in NodesOf(c) ==> Incomplete(Required(w.nodes[id]), ReadingsOf(c)) != {})
    && (forall id :: id in w.edges && id !in EdgesOf(c) ==> Incomplete(NeedsInWorld(w, w.edges[id]), ReadingsOf(c)) != {})
  }

  ghost predicate Consistent(c: Content, w: World) { Closed(w) && Shown(c, w) && MissedOnlyForWant(c, w) }

  predicate HasNodeOf(w: World, id: string, nodeType: string) { id in w.nodes && w.nodes[id] == nodeType }

  /** An edge between endpoints of the given types. */
  predicate HasEdgeOf(w: World, e: SnapshotEdge, sourceType: string, targetType: string) {
    && e.id in w.edges && w.edges[e.id] == e
    && HasNodeOf(w, e.source, sourceType) && HasNodeOf(w, e.target, targetType)
  }

  // ----- the least world -----

  /** The world that contains just what the snapshot shows. */
  ghost function ShownWorld(c: Content): World {
    World(map id | id in NodesOf(c) :: NodesOf(c)[id].nodeType, EdgesOf(c))
  }

  lemma ShownWorldConsistent(c: Content)
    requires ValidContent(c)
    ensures Consistent(c, ShownWorld(c))
  {
    AssociateByKeys(NodeId, c.nodes);
    AssociateByValues(NodeId, c.nodes);
    AssociateByKeys(EdgeId, c.edges);
    AssociateByValues(EdgeId, c.edges);
    hide AssociateBy, Required, Incomplete, ReadingsOf;
    forall e | e in c.edges ensures e.source in NodesOf(c) && e.target in NodesOf(c) {
      var n :| n in c.nodes && n.id == e.source;
      var m :| m in c.nodes && m.id == e.target;
      assert NodeId(n) in NodesOf(c) && NodeId(m) in NodesOf(c);
    }
  }

  lemma ListedIds(c: Content, id: string)
    ensures id in NodesOf(c) <==> exists n :: n in c.nodes && n.id == id
    ensures id in EdgesOf(c) <==> exists e :: e in c.edges && e.id == id
  {
    AssociateByKeys(NodeId, c.nodes);
    AssociateByKeys(EdgeId, c.edges);
    hide AssociateBy;
    if exists n :: n in c.nodes && n.id == id {
      var n :| n in c.nodes && n.id == id;
      assert NodeId(n) in NodesOf(c);
    }
    if exists e :: e in c.edges && e.id == id {
      var e :| e in c.edges && e.id == id;
      assert EdgeId(e) in EdgesOf(c);
    }
  }

  /** A world stays consistent when a resource that may have been missed is added to it. */
  lemma AddMissableNode(c: Content, w: World, id: string, nodeType: string)
    requires Consistent(c, w) && id !in w.nodes
    requires Incomplete(Required(nodeType), ReadingsOf(c)) != {}
    ensures Consistent(c, w.(nodes := w.nodes[id := nodeType]))
  {
    hide AssociateBy, Required, Incomplete, ReadingsOf;
    var v := w.(nodes := w.nodes[id := nodeType]);
    assert forall e :: e in w.edges ==> NeedsInWorld(v, w.edges[e]) == NeedsInWorld(w, w.edges[e]);
  }

  // ----- nodes -----

  /**
    The evidence for the absence of a node is exact: it counts as confirmed exactly when every world
    consistent with the snapshot lacks the resource.
   */
  lemma NodeAbsenceExact(c: Content, id: string, nodeType: string)
    requires ValidContent(c) && id !in NodesOf(c)
    ensures Incomplete(Required(nodeType), ReadingsOf(c)) == {} <==>
      forall w :: Consistent(c, w) ==> !HasNodeOf(w, id, nodeType)
  {
    hide AssociateBy, Required, Incomplete, ReadingsOf, ValidContent;
    if Incomplete(Required(nodeType), ReadingsOf(c)) != {} {
      var w := ShownWorld(c);
      ShownWorldConsistent(c);
      AddMissableNode(c, w, id, nodeType);
      assert HasNodeOf(w.(nodes := w.nodes[id := nodeType]), id, nodeType);
    }
  }

  /** A removal is CONFIRMED exactly when every world consistent with the current snapshot lacks the resource. */
  lemma RemovalEvidenceExact(p: Content, c: Content, x: NodeChange)
    requires ValidContent(p) && ValidContent(c) && x in FoundNodeChanges(p, c) && x.kind == REMOVED
    ensures x.evidence == CONFIRMED <==> forall w :: Consistent(c, w) ==> !HasNodeOf(w, x.nodeId, x.nodeType)
  {
    hide FoundNodeChanges, NodesOf, Required, Incomplete, ReadingsOf, ValidContent, Consistent, HasNodeOf;
    var n := FoundNodeChange(p, c, x);
    NodeAbsenceExact(c, n.id, n.nodeType);
  }

  /** An addition is CONFIRMED exactly when every world consistent with the previous snapshot lacked the resource. */
  lemma AdditionEvidenceExact(p: Content, c: Content, x: NodeChange)
    requires ValidContent(p) && ValidContent(c) && x in FoundNodeChanges(p, c) && x.kind == ADDED
    ensures x.evidence == CONFIRMED <==> forall w :: Consistent(p, w) ==> !HasNodeOf(w, x.nodeId, x.nodeType)
  {
    hide FoundNodeChanges, NodesOf, Required, Incomplete, ReadingsOf, ValidContent, Consistent, HasNodeOf;
    var n := FoundNodeChange(p, c, x);
    NodeAbsenceExact(p, n.id, n.nodeType);
  }

  // ----- edges -----

  /** An endpoint can exist unless the snapshot shows otherwise or would have shown it. */
  ghost predicate EndpointPossible(c: Content, id: string, nodeType: string) {
    if id in NodesOf(c) then NodesOf(c)[id].nodeType == nodeType
    else Incomplete(Required(nodeType), ReadingsOf(c)) != {}
  }

  ghost predicate EdgePossible(c: Content, e: SnapshotEdge, sourceType: string, targetType: string) {
    exists w :: Consistent(c, w) && HasEdgeOf(w, e, sourceType, targetType)
  }

  lemma ConsistentEndpoint(c: Content, w: World, id: string, nodeType: string)
    requires ValidContent(c) && Consistent(c, w) && HasNodeOf(w, id, nodeType)
    ensures EndpointPossible(c, id, nodeType)
  {
    AssociateByKeys(NodeId, c.nodes);
    hide AssociateBy, Required, Incomplete, ReadingsOf;
    if id in NodesOf(c) { assert NodesOf(c)[id] in c.nodes; }
  }

  /** A world with the endpoint, if the endpoint is possible. */
  lemma EndpointWorld(c: Content, w: World, id: string, nodeType: string) returns (v: World)
    requires ValidContent(c) && Consistent(c, w) && EndpointPossible(c, id, nodeType)
    requires id in w.nodes ==> w.nodes[id] == nodeType
    ensures Consistent(c, v) && HasNodeOf(v, id, nodeType)
    ensures v.edges == w.edges
    ensures v.nodes == w.nodes[id := nodeType]
  {
    hide AssociateBy, Required, Incomplete, ReadingsOf, ValidContent;
    if id in w.nodes {
      v := w;
    } else {
      ListedIds(c, id);
      assert id !in NodesOf(c);
      AddMissableNode(c, w, id, nodeType);
      v := w.(nodes := w.nodes[id := nodeType]);
    }
  }

  /** An edge between existing endpoints can be added when it may have been missed. */
  lemma AddMissableEdge(c: Content, w: World, e: SnapshotEdge)
    requires Consistent(c, w) && e.source in w.nodes && e.target in w.nodes
    requires e.id !in w.edges && Incomplete(NeedsInWorld(w, e), ReadingsOf(c)) != {}
    ensures Consistent(c, w.(edges := w.edges[e.id := e]))
  {
    hide AssociateBy, Required, Incomplete, ReadingsOf;
    var v := w.(edges := w.edges[e.id := e]);
    assert forall id :: id in w.edges ==> NeedsInWorld(v, w.edges[id]) == NeedsInWorld(w, w.edges[id]);
    assert NeedsInWorld(v, e) == NeedsInWorld(w, e);
  }

  /**
    An edge the snapshot does not show can still exist exactly when some subsystem it depends on was
    incomplete and both of its endpoints can exist.
   */
  lemma EdgeAbsenceExact(c: Content, e: SnapshotEdge, sourceType: string, targetType: string)
    requires ValidContent(c) && e.id !in EdgesOf(c)
    requires e.source == e.target ==> sourceType == targetType
    ensures EdgePossible(c, e, sourceType, targetType) <==>
      && Incomplete(Required(sourceType) + Required(targetType), ReadingsOf(c)) != {}
      && EndpointPossible(c, e.source, sourceType) && EndpointPossible(c, e.target, targetType)
  {
    hide AssociateBy, Required, Incomplete, ReadingsOf, ValidContent, EndpointPossible;
    if EdgePossible(c, e, sourceType, targetType) {
      var w :| Consistent(c, w) && HasEdgeOf(w, e, sourceType, targetType);
      ConsistentEndpoint(c, w, e.source, sourceType);
      ConsistentEndpoint(c, w, e.target, targetType);
      assert NeedsInWorld(w, e) == Required(sourceType) + Required(targetType);
    }
    if && Incomplete(Required(sourceType) + Required(targetType), ReadingsOf(c)) != {}
       && EndpointPossible(c, e.source, sourceType) && EndpointPossible(c, e.target, targetType) {
      EdgeWorld(c, e, sourceType, targetType);
    }
  }

  lemma EdgeWorld(c: Content, e: SnapshotEdge, sourceType: string, targetType: string)
    requires ValidContent(c) && e.id !in EdgesOf(c)
    requires e.source == e.target ==> sourceType == targetType
    requires Incomplete(Required(sourceType) + Required(targetType), ReadingsOf(c)) != {}
    requires EndpointPossible(c, e.source, sourceType) && EndpointPossible(c, e.target, targetType)
    ensures EdgePossible(c, e, sourceType, targetType)
  {
    var w := ShownWorld(c);
    ShownWorldConsistent(c);
    hide AssociateBy, Required, Incomplete, ReadingsOf, ValidContent, Consistent;
    var v := EndpointWorld(c, w, e.source, sourceType);
    var u := EndpointWorld(c, v, e.target, targetType);
    AddMissableEdge(c, u, e);
    assert HasEdgeOf(u.(edges := u.edges[e.id := e]), e, sourceType, targetType);
  }

  /** The evidence for a removed edge is sound: confirmed means that no consistent world has it. */
  lemma EdgeRemovalSound(p: Content, c: Content, x: RelationshipChange)
    requires ValidContent(p) && ValidContent(c)
    requires x in FoundRelationshipChanges(p, c) && x.kind == RELATIONSHIP_REMOVED && x.evidence == CONFIRMED
    ensures !EdgePossible(c, x.edge, TypeOf(NodesOf(p), x.edge.source), TypeOf(NodesOf(p), x.edge.target))
  {
    hide FoundRelationshipChanges, NodesOf, EdgesOf, Required, Incomplete, ReadingsOf, ValidContent, EdgePossible, EndpointPossible;
    FoundEdgeChange(p, c, x);
    EdgeAbsenceExact(c, x.edge, TypeOf(NodesOf(p), x.edge.source), TypeOf(NodesOf(p), x.edge.target));
  }

  /** The evidence for an added edge is sound: confirmed means that no world consistent with the previous snapshot had it. */
  lemma EdgeAdditionSound(p: Content, c: Content, x: RelationshipChange)
    requires ValidContent(p) && ValidContent(c)
    requires x in FoundRelationshipChanges(p, c) && x.kind == RELATIONSHIP_ADDED && x.evidence == CONFIRMED
    ensures !EdgePossible(p, x.edge, TypeOf(NodesOf(c), x.edge.source), TypeOf(NodesOf(c), x.edge.target))
  {
    hide FoundRelationshipChanges, NodesOf, EdgesOf, Required, Incomplete, ReadingsOf, ValidContent, EdgePossible, EndpointPossible;
    FoundEdgeChange(p, c, x);
    EdgeAbsenceExact(p, x.edge, TypeOf(NodesOf(c), x.edge.source), TypeOf(NodesOf(c), x.edge.target));
  }

  /**
    For edges the label is cautious: an unconfirmed removal is a possible edge exactly when both
    endpoints can still exist, so an edge to a node whose removal is confirmed is never possible.
   */
  lemma EdgeRemovalExact(p: Content, c: Content, x: RelationshipChange)
    requires ValidContent(p) && ValidContent(c)
    requires x in FoundRelationshipChanges(p, c) && x.kind == RELATIONSHIP_REMOVED && x.evidence == UNCONFIRMED_REMOVAL
    ensures var s, t := TypeOf(NodesOf(p), x.edge.source), TypeOf(NodesOf(p), x.edge.target);
      EdgePossible(c, x.edge, s, t) <==> EndpointPossible(c, x.edge.source, s) && EndpointPossible(c, x.edge.target, t)
  {
    hide FoundRelationshipChanges, NodesOf, EdgesOf, Required, Incomplete, ReadingsOf, ValidContent, EdgePossible, EndpointPossible;
    FoundEdgeChange(p, c, x);
    EdgeAbsenceExact(c, x.edge, TypeOf(NodesOf(p), x.edge.source), TypeOf(NodesOf(p), x.edge.target));
  }

  /** The same for additions, judged against the worlds of the previous snapshot. */
  lemma EdgeAdditionExact(p: Content, c: Content, x: RelationshipChange)
    requires ValidContent(p) && ValidContent(c)
    requires x in FoundRelationshipChanges(p, c) && x.kind == RELATIONSHIP_ADDED && x.evidence == NEWLY_OBSERVED
    ensures var s, t := TypeOf(NodesOf(c), x.edge.source), TypeOf(NodesOf(c), x.edge.target);
      EdgePossible(p, x.edge, s, t) <==> EndpointPossible(p, x.edge.source, s) && EndpointPossible(p, x.edge.target, t)
  {
    hide FoundRelationshipChanges, NodesOf, EdgesOf, Required, Incomplete, ReadingsOf, ValidContent, EdgePossible, EndpointPossible;
    FoundEdgeChange(p, c, x);
    EdgeAbsenceExact(p, x.edge, TypeOf(NodesOf(c), x.edge.source), TypeOf(NodesOf(c), x.edge.target));
  }

  // ----- an unconfirmed removal of an edge that cannot exist -----

  const CONTAINER := SnapshotNode("c", "c", "DOCKER_CONTAINER", map[])
  const UPSTREAM_NODE := SnapshotNode("u", "u", "UPSTREAM", map[])
  const TARGETS_EDGE := SnapshotEdge("e", "u", "c", "TARGETS")
  const WITH_CONTAINER := Content([CONTAINER, UPSTREAM_NODE], [TARGETS_EDGE], [])
  const WITHOUT_CONTAINER := Content([UPSTREAM_NODE], [], [DiscoveryQuality("DOCKER", "AVAILABLE", [])])

  lemma WithContainerFacts()
    ensures ValidContent(WITH_CONTAINER) && ValidContent(WITHOUT_CONTAINER)
    ensures NodesOf(WITH_CONTAINER) == map["c" := CONTAINER, "u" := UPSTREAM_NODE] && NodesOf(WITHOUT_CONTAINER) == map["u" := UPSTREAM_NODE]
    ensures EdgesOf(WITHOUT_CONTAINER) == map[]
  {
    var both := [CONTAINER, UPSTREAM_NODE];
    assert both[..1] == [CONTAINER] && both[..1][..0] == [];
    assert AssociateBy(NodeId, both[..1]) == map["c" := CONTAINER];
    assert [UPSTREAM_NODE][..0] == [];
    assert AssociateBy(NodeId, [UPSTREAM_NODE]) == map["u" := UPSTREAM_NODE];
    assert CONTAINER in both && UPSTREAM_NODE in both;
  }

  lemma WithoutContainerReadings()
    ensures ReadingsOf(WITHOUT_CONTAINER) == map[DOCKER := Reading(DOCKER, "AVAILABLE")]
  {
    var q := DiscoveryQuality("DOCKER", "AVAILABLE", []);
    assert AsReading(q) == Some(Reading(DOCKER, "AVAILABLE"));
    assert [q][..0] == [] && FilterMap(AsReading, [q][..0]) == [];
    assert FilterMap(AsReading, [q]) == [Reading(DOCKER, "AVAILABLE")];
    assert [Reading(DOCKER, "AVAILABLE")][..0] == [];
  }

  /**
    A container is gone for certain, so its edges are too; the edge from an upstream is still reported
    as an unconfirmed removal, because Caddy was not read.
   */
  lemma CautiousEdge()
    ensures var x := RelationshipChange(RELATIONSHIP_REMOVED, UNCONFIRMED_REMOVAL, TARGETS_EDGE);
      && ValidContent(WITH_CONTAINER) && ValidContent(WITHOUT_CONTAINER)
      && x in FoundRelationshipChanges(WITH_CONTAINER, WITHOUT_CONTAINER)
      && !EdgePossible(WITHOUT_CONTAINER, TARGETS_EDGE, "UPSTREAM", "DOCKER_CONTAINER")
  {
    WithContainerFacts();
    WithoutContainerReadings();
    hide NodesOf, EdgesOf, ReadingsOf, ValidContent, FoundRelationshipChanges, EdgePossible;
    var r := ReadingsOf(WITHOUT_CONTAINER);
    assert CADDY in Incomplete(Required("UPSTREAM") + Required("DOCKER_CONTAINER"), r);
    assert Incomplete(Required("DOCKER_CONTAINER"), r) == {};
    assert "c" !in NodesOf(WITHOUT_CONTAINER);
    EdgeAbsenceExact(WITHOUT_CONTAINER, TARGETS_EDGE, "UPSTREAM", "DOCKER_CONTAINER");
    CautiousEdgeFound();
  }

  lemma CautiousEdgeFound()
    ensures RelationshipChange(RELATIONSHIP_REMOVED, UNCONFIRMED_REMOVAL, TARGETS_EDGE)
      in FoundRelationshipChanges(WITH_CONTAINER, WITHOUT_CONTAINER)
  {
    WithContainerFacts();
    WithoutContainerReadings();
    hide NodesOf, EdgesOf, ReadingsOf, ValidContent, FoundRelationshipChanges, SortBy;
    var p, c := WITH_CONTAINER, WITHOUT_CONTAINER;
    var x := RelationshipChange(RELATIONSHIP_REMOVED, UNCONFIRMED_REMOVAL, TARGETS_EDGE);
    assert CADDY in Incomplete(RequiredByEdge(TARGETS_EDGE, NodesOf(p)), ReadingsOf(c));
    assert TARGETS_EDGE in p.edges && EdgeRemoved(EdgesOf(c), NodesOf(p), ReadingsOf(c))(TARGETS_EDGE) == Some(x);
    EdgeChangeMember(p, c, x);
    SortByElements(RelationshipChangeLe, FoundRelationshipChanges(p, c));
  }
}

/** Turning a comparison around, and what better current discovery changes in it. */
module DiffInverse {
  import opened Ordering
  import opened Collections
  import opened Snapshots
  import opened DiffEngine
  import opened DiffMeaning
  import opened DiffOrder
  import opened DiffReplay

  // ----- one-sided changes -----

  function FlipEvidence(e: ChangeEvidence): ChangeEvidence {
    match e
    case CONFIRMED => CONFIRMED
    case NEWLY_OBSERVED => UNCONFIRMED_REMOVAL
    case UNCONFIRMED_REMOVAL => NEWLY_OBSERVED
  }

  /** The same one-sided change seen from the other side. */
  function Flip(x: NodeChange): NodeChange {
    x.(kind := if x.kind == ADDED then REMOVED else if x.kind == REMOVED then ADDED else MODIFIED,
       evidence := FlipEvidence(x.evidence))
  }

  function FlipEdge(x: RelationshipChange): RelationshipChange {
    x.(kind := if x.kind == RELATIONSHIP_ADDED then RELATIONSHIP_REMOVED else RELATIONSHIP_ADDED,
       evidence := FlipEvidence(x.evidence))
  }

  lemma AddedFlips(nodes: NodesById, r: Readings, n: SnapshotNode)
    ensures Added(nodes, r)(n).Some? <==> Removed(nodes, r)(n).Some?
    ensures Added(nodes, r)(n).Some? ==> Removed(nodes, r)(n) == Some(Flip(Added(nodes, r)(n).value))
    ensures Removed(nodes, r)(n).Some? ==> Added(nodes, r)(n) == Some(Flip(Removed(nodes, r)(n).value))
  {
    hide Required, Incomplete;
  }

  lemma EdgeAddedFlips(edges: EdgesById, nodes: NodesById, r: Readings, e: SnapshotEdge)
    ensures EdgeAdded(edges, nodes, r)(e).Some? <==> EdgeRemoved(edges, nodes, r)(e).Some?
    ensures EdgeAdded(edges, nodes, r)(e).Some? ==>
      EdgeRemoved(edges, nodes, r)(e) == Some(FlipEdge(EdgeAdded(edges, nodes, r)(e).value))
    ensures EdgeRemoved(edges, nodes, r)(e).Some? ==>
      EdgeAdded(edges, nodes, r)(e) == Some(FlipEdge(EdgeRemoved(edges, nodes, r)(e).value))
  {
    hide RequiredByEdge, Incomplete;
  }

  lemma FoundFlips(p: Content, c: Content, x: NodeChange)
    requires x in FoundNodeChanges(p, c) && x.kind != MODIFIED
    ensures Flip(x) in FoundNodeChanges(c, p)
  {
    var n := FoundNodeChange(p, c, x);
    if x.kind == ADDED {
      AddedFlips(NodesOf(p), ReadingsOf(p), n);
    } else {
      AddedFlips(NodesOf(c), ReadingsOf(c), n);
    }
    var f, g := Added(NodesOf(c), ReadingsOf(c)), Removed(NodesOf(p), ReadingsOf(p));
    hide NodesOf, ReadingsOf, Added, Removed, Modified, FilterMap;
    FilterMapElements(f, p.nodes);
    FilterMapElements(g, c.nodes);
  }

  lemma FoundEdgeFlips(p: Content, c: Content, x: RelationshipChange)
    requires x in FoundRelationshipChanges(p, c)
    ensures FlipEdge(x) in FoundRelationshipChanges(c, p)
  {
    FoundEdgeChange(p, c, x);
    if x.kind == RELATIONSHIP_ADDED {
      EdgeAddedFlips(EdgesOf(p), NodesOf(c), ReadingsOf(p), x.edge);
    } else {
      EdgeAddedFlips(EdgesOf(c), NodesOf(p), ReadingsOf(c), x.edge);
    }
    var f, g := EdgeAdded(EdgesOf(c), NodesOf(p), ReadingsOf(c)), EdgeRemoved(EdgesOf(p), NodesOf(c), ReadingsOf(p));
    hide NodesOf, EdgesOf, ReadingsOf, EdgeAdded, EdgeRemoved, FilterMap;
    FilterMapElements(f, p.edges);
    FilterMapElements(g, c.edges);
  }

  /**
    Swapping the two snapshots turns every one-sided change around: additions become removals with
    the matching evidence, and the other way round.
   */
  lemma SwapFlips(a: Snapshot, b: Snapshot)
    ensures forall x: NodeChange :: x.kind != MODIFIED ==> (x in FullDiff(a, b).nodeChanges <==> Flip(x) in FullDiff(b, a).nodeChanges)
    ensures forall y: RelationshipChange :: y in FullDiff(a, b).relationshipChanges <==> FlipEdge(y) in FullDiff(b, a).relationshipChanges
  {
    hide FullDiff, FoundNodeChanges, FoundRelationshipChanges;
    forall x: NodeChange | x.kind != MODIFIED
      ensures x in FullDiff(a, b).nodeChanges <==> Flip(x) in FullDiff(b, a).nodeChanges
    {
      PublishedNode(a, b, x);
      PublishedNode(b, a, Flip(x));
      if x in FoundNodeChanges(a.content, b.content) { FoundFlips(a.content, b.content, x); }
      if Flip(x) in FoundNodeChanges(b.content, a.content) { FoundFlips(b.content, a.content, Flip(x)); }
    }
    forall y: RelationshipChange
      ensures y in FullDiff(a, b).relationshipChanges <==> FlipEdge(y) in FullDiff(b, a).relationshipChanges
    {
      PublishedEdge(a, b, y);
      PublishedEdge(b, a, FlipEdge(y));
      if y in FoundRelationshipChanges(a.content, b.content) { FoundEdgeFlips(a.content, b.content, y); }
      if FlipEdge(y) in FoundRelationshipChanges(b.content, a.content) { FoundEdgeFlips(b.content, a.content, FlipEdge(y)); }
    }
  }

  // ----- modified nodes -----

  function SwapField(f: FieldChange): FieldChange { FieldChange(f.field, f.after, f.before) }

  const SwapOf := (f: FieldChange) => SwapField(f)

  predicate IsEngine(n: SnapshotNode) { n.nodeType == "DOCKER_ENGINE" }

  /** The label of a Docker engine is not compared, judged by the older node only. */
  predicate LabelsReversible(n: SnapshotNode, m: SnapshotNode) { n.title == m.title || (IsEngine(n) <==> IsEngine(m)) }

  lemma MetadataSwaps(n: SnapshotNode, m: SnapshotNode, r: Readings, q: Readings, k: string, f: FieldChange)
    requires Incomplete(Remote, r) == {} && Incomplete(Remote, q) == {} && f.field == MetadataField(k)
    ensures MetadataChange(n, m, r)(k) == Some(f) <==> MetadataChange(m, n, q)(k) == Some(SwapField(f))
  {
    CompleteReports(n, m, r, k);
    CompleteReports(m, n, q, k);
    MetadataChangeFacts(n, m, r, k);
    MetadataChangeFacts(m, n, q, k);
    hide MetadataChange, Incomplete, IsQualityKey;
  }

  lemma FieldSwaps(n: SnapshotNode, m: SnapshotNode, r: Readings, q: Readings, f: FieldChange)
    requires Incomplete(Remote, r) == {} && Incomplete(Remote, q) == {}
    requires LabelsReversible(n, m) || !f.field.LabelField?
    ensures f in FieldChanges(n, m, r) <==> SwapField(f) in FieldChanges(m, n, q)
  {
    hide MetadataChange, FieldChanges, Incomplete;
    FieldMember(n, m, r, f);
    FieldMember(m, n, q, SwapField(f));
    if f.field.MetadataField? { MetadataSwaps(n, m, r, q, f.field.key, f); }
  }

  lemma FieldLeOrder()
    ensures TotalPreorder(FieldLe)
    ensures forall a, b :: FieldLe(a, b) && FieldLe(b, a) ==> a.field == b.field
  {
    StringLeOrder();
    hide StringLe;
    forall a: FieldChange, b: FieldChange | FieldLe(a, b) && FieldLe(b, a) ensures a.field == b.field {
      assert FieldText(a.field) == FieldText(b.field);
      FieldTextInjective(a.field, b.field);
    }
  }

  lemma FieldTextInjective(a: FieldName, b: FieldName)
    requires FieldText(a) == FieldText(b)
    ensures a == b
  {
    var s, t := FieldText(a), FieldText(b);
    assert s[0] == t[0];
    if a.MetadataField? {
      assert s[|"metadata:"|..] == a.key;
      assert b.MetadataField?;
      assert t[|"metadata:"|..] == b.key;
    }
  }

  /**
    With both sides complete, swapping the arguments swaps before and after in the field changes of a
    shared node exactly when its label is judged alike from both sides.
   */
  lemma FieldsInvert(n: SnapshotNode, m: SnapshotNode, r: Readings, q: Readings)
    requires Incomplete(Remote, r) == {} && Incomplete(Remote, q) == {}
    ensures FieldChanges(m, n, q) == Map(SwapOf, FieldChanges(n, m, r)) <==> LabelsReversible(n, m)
  {
    if LabelsReversible(n, m) {
      ReversibleFieldsInvert(n, m, r, q);
    } else {
      IrreversibleLabel(n, m, r, q);
    }
  }

  lemma IrreversibleLabel(n: SnapshotNode, m: SnapshotNode, r: Readings, q: Readings)
    requires !LabelsReversible(n, m)
    ensures FieldChanges(m, n, q) != Map(SwapOf, FieldChanges(n, m, r))
  {
    var f := FieldChange(LabelField, Some(n.title), Some(m.title));
    FieldMember(n, m, r, f);
    FieldMember(m, n, q, SwapField(f));
    hide FieldChanges, MetadataChange;
    var there, back := FieldChanges(n, m, r), Map(SwapOf, FieldChanges(n, m, r));
    assert f in there <==> SwapField(f) !in FieldChanges(m, n, q);
    if SwapField(f) in back {
      var i :| 0 <= i < |back| && back[i] == SwapField(f);
      assert SwapField(there[i]) == SwapField(f);
      assert there[i] == f;
    }
    MapMember(SwapOf, there, f);
  }

  lemma SwapSorted(fields: seq<FieldChange>)
    requires Sorted(FieldLe, fields) && UniqueBy(FieldOf, fields)
    ensures Sorted(FieldLe, Map(SwapOf, fields)) && UniqueBy(FieldOf, Map(SwapOf, fields))
  {
    hide StringLe;
  }

  lemma UniqueFieldsSeparate(fields: seq<FieldChange>)
    requires UniqueBy(FieldOf, fields)
    ensures Distinct(fields) && Separates(FieldLe, fields)
  {
    FieldLeOrder();
    UniqueByDistinct(FieldOf, fields);
    hide FieldLe;
  }

  lemma ReversibleFieldsInvert(n: SnapshotNode, m: SnapshotNode, r: Readings, q: Readings)
    requires Incomplete(Remote, r) == {} && Incomplete(Remote, q) == {} && LabelsReversible(n, m)
    ensures FieldChanges(m, n, q) == Map(SwapOf, FieldChanges(n, m, r))
  {
    FieldLeOrder();
    SortBySorted(FieldLe, UnsortedFields(n, m, r));
    SortBySorted(FieldLe, UnsortedFields(m, n, q));
    assert FieldChanges(n, m, r) == SortBy(FieldLe, UnsortedFields(n, m, r));
    assert FieldChanges(m, n, q) == SortBy(FieldLe, UnsortedFields(m, n, q));
    hide FieldChanges, FieldLe, Incomplete, LabelsReversible;
    var there, back := FieldChanges(n, m, r), FieldChanges(m, n, q);
    var swapped := Map(SwapOf, there);
    FieldsUnique(n, m, r);
    FieldsUnique(m, n, q);
    SwapSorted(there);
    UniqueFieldsSeparate(back);
    UniqueFieldsSeparate(swapped);
    forall f ensures f in back <==> f in swapped {
      FieldSwaps(n, m, r, q, SwapField(f));
      assert SwapField(SwapField(f)) == f;
      if f in swapped {
        var i :| 0 <= i < |swapped| && swapped[i] == f;
        assert SwapField(there[i]) == f;
        assert there[i] == SwapField(f);
      }
      MapMember(SwapOf, there, SwapField(f));
    }
    hide UniqueBy, UnsortedFields;
    DistinctPermutation(back, swapped);
    SortedUnique(FieldLe, back, swapped);
  }

  /**
    Between two completely discovered snapshots the fields reported for a shared node swap before and
    after exactly when the label of that node is judged alike from both sides.
   */
  lemma SwapInvertsFields(a: Snapshot, b: Snapshot, id: string)
    requires ValidContent(a.content) && ValidContent(b.content)
    requires CurrentComplete(a.content) && CurrentComplete(b.content)
    requires id in NodesOf(a.content) && id in NodesOf(b.content)
    ensures FieldsFor(FullDiff(b, a), id) == Map(SwapOf, FieldsFor(FullDiff(a, b), id)) <==>
      LabelsReversible(NodesOf(a.content)[id], NodesOf(b.content)[id])
  {
    hide NodesOf, FieldsFor, FullDiff, LabelsReversible, ValidContent, Incomplete;
    FieldsForShared(a, b, id);
    FieldsForShared(b, a, id);
    FieldsInvert(NodesOf(a.content)[id], NodesOf(b.content)[id], ReadingsOf(b.content), ReadingsOf(a.content));
  }

  // ----- better current discovery -----

  /** The same resources, with every subsystem at least as completely discovered. */
  ghost predicate Improves(c: Content, better: Content) {
    && better.nodes == c.nodes && better.edges == c.edges
    && forall s :: IsComplete(s, ReadingsOf(c)) ==> IsComplete(s, ReadingsOf(better))
  }

  lemma ImprovedNeeds(c: Content, better: Content, required: set<DiffSubsystem>)
    requires Improves(c, better) && Incomplete(required, ReadingsOf(c)) == {}
    ensures Incomplete(required, ReadingsOf(better)) == {}
  {
    hide ReadingsOf, IsComplete;
    forall s | s in required ensures IsComplete(s, ReadingsOf(better)) {
      assert s !in Incomplete(required, ReadingsOf(c));
    }
  }

  lemma ImprovedFields(c: Content, better: Content, n: SnapshotNode, m: SnapshotNode, f: FieldChange)
    requires Improves(c, better) && f in FieldChanges(n, m, ReadingsOf(c))
    ensures f in FieldChanges(n, m, ReadingsOf(better))
  {
    FieldMember(n, m, ReadingsOf(c), f);
    FieldMember(n, m, ReadingsOf(better), f);
    if f.field.MetadataField? {
      ImprovedMetadata(c, better, n, m, f.field.key);
    }
    hide FieldChanges, MetadataChange, ReadingsOf, Improves;
  }

  lemma ImprovedMetadata(c: Content, better: Content, n: SnapshotNode, m: SnapshotNode, k: string)
    requires Improves(c, better)
    ensures var there := MetadataChange(n, m, ReadingsOf(c))(k);
      there.Some? ==> MetadataChange(n, m, ReadingsOf(better))(k) == there
  {
    var owner, field := Required(n.nodeType) + Required(m.nodeType), FieldSubsystems(m.nodeType, k);
    if Incomplete(owner, ReadingsOf(c)) == {} { ImprovedNeeds(c, better, owner); }
    if Incomplete(field, ReadingsOf(c)) == {} { ImprovedNeeds(c, better, field); }
    hide Required, FieldSubsystems, Incomplete, ReadingsOf, IsQualityKey, Improves;
  }

  /**
    Completing a current subsystem keeps additions as they are, only upgrades the evidence of
    removals, and only adds field changes.
   */
  lemma BetterDiscoveryOnlyAdds(p: Content, c: Content, better: Content, x: NodeChange)
    requires ValidContent(p) && Improves(c, better) && x in FoundNodeChanges(p, c)
    ensures x.kind == ADDED ==> x in FoundNodeChanges(p, better)
    ensures x.kind == REMOVED ==> x in FoundNodeChanges(p, better) || x.(evidence := CONFIRMED) in FoundNodeChanges(p, better)
    ensures x.kind == REMOVED && x.evidence == CONFIRMED ==> x in FoundNodeChanges(p, better)
    ensures x.kind == MODIFIED ==> exists y: NodeChange ::
      y in FoundNodeChanges(p, better) && y == x.(fields := y.fields) && forall f :: f in x.fields ==> f in y.fields
  {
    hide FoundNodeChanges, ReadingsOf, Required, Incomplete, FieldChanges, ValidContent, AssociateBy;
    var n := FoundNodeChange(p, c, x);
    assert NodesOf(better) == NodesOf(c);
    match x.kind {
      case ADDED => AddedPublished(p, better, n);
      case REMOVED =>
        RemovedPublished(p, better, n);
        if Incomplete(Required(n.nodeType), ReadingsOf(c)) == {} { ImprovedNeeds(c, better, Required(n.nodeType)); }
      case MODIFIED =>
        var m := NodesOf(c)[n.id];
        var fields := FieldChanges(n, m, ReadingsOf(better));
        forall f | f in x.fields ensures f in fields { ImprovedFields(c, better, n, m, f); }
        assert x.fields[0] in x.fields;
        ModifiedPublished(p, better, n);
        assert ChangeOf(MODIFIED, CONFIRMED, m, fields) == x.(fields := fields);
    }
  }
}

/** Swapping two completely discovered snapshots: when the whole diff turns around. */
module DiffSwap {
  import opened Ordering
  import opened Collections
  import opened Snapshots
  import opened DiffEngine
  import opened DiffMeaning
  import opened DiffOrder
  import opened DiffReplay
  import opened DiffInverse

  const ChangeKey := (x: NodeChange) => (x.kind, x.nodeId)
  const EdgeChangeKey := (x: RelationshipChange) => (x.kind, x.edge.id)
  const FlippedEdge := (x: RelationshipChange) => FlipEdge(x)

  /** A change as the swapped comparison should report it; a modified node goes by its older form. */
  function InverseOf(older: NodesById): NodeChange -> NodeChange {
    (x: NodeChange) =>
      if x.kind == MODIFIED && x.nodeId in older then ChangeOf(MODIFIED, CONFIRMED, older[x.nodeId], Map(SwapOf, x.fields)) else Flip(x)
  }

  // ----- no change is reported twice -----

  lemma {:induction false} KeysCarried<T, U, K>(f: T -> Option<U>, key: T -> K, out: U -> K, s: seq<T>)
    requires UniqueBy(key, s) && forall x :: x in s && f(x).Some? ==> out(f(x).value) == key(x)
    ensures UniqueBy(out, FilterMap(f, s))
  {
    if s != [] {
      var front, last := s[..|s| - 1], s[|s| - 1];
      assert s == front + [last];
      forall x | x in front && f(x).Some? ensures out(f(x).value) == key(x) { assert x in s; }
      KeysCarried(f, key, out, front);
      forall u | u in FilterMap(f, front) ensures out(u) != key(last) {
        var x := FilterMapOrigin(f, front, u);
        var i :| 0 <= i < |front| && front[i] == x;
        assert key(s[i]) != key(s[|s| - 1]);
      }
      assert last in s;
    }
  }

  lemma UniqueTogether<V, K>(key: V -> K, a: seq<V>, b: seq<V>)
    requires UniqueBy(key, a) && UniqueBy(key, b)
    requires forall x, y :: x in a && y in b ==> key(x) != key(y)
    ensures UniqueBy(key, a + b)
  {
    forall i, j | 0 <= i < j < |a + b| ensures key((a + b)[i]) != key((a + b)[j]) {
      if i < |a| && |a| <= j { assert a[i] in a && b[j - |a|] in b; }
    }
  }

  lemma OneKind(kind: NodeChangeKind, f: SnapshotNode -> Option<NodeChange>, s: seq<SnapshotNode>)
    requires UniqueBy(NodeId, s)
    requires forall n :: n in s && f(n).Some? ==> f(n).value.kind == kind && f(n).value.nodeId == n.id
    ensures UniqueBy(ChangeKey, FilterMap(f, s)) && forall x :: x in FilterMap(f, s) ==> x.kind == kind
  {
    FilterMapElements(f, s);
    KeysCarried(f, NodeId, (x: NodeChange) => x.nodeId, s);
    hide FilterMap;
    var found := FilterMap(f, s);
    forall i, j | 0 <= i < j < |found| ensures ChangeKey(found[i]) != ChangeKey(found[j]) {
      var id := (x: NodeChange) => x.nodeId;
      assert id(found[i]) != id(found[j]);
    }
  }

  lemma NodeChangesUnique(p: Content, c: Content)
    requires ValidContent(p) && ValidContent(c)
    ensures UniqueBy(ChangeKey, FoundNodeChanges(p, c))
  {
    hide FilterMap, Required, Incomplete, ReadingsOf, FieldChanges, AssociateBy, UniqueBy;
    var f, g, h := Added(NodesOf(p), ReadingsOf(p)), Removed(NodesOf(c), ReadingsOf(c)), Modified(NodesOf(c), ReadingsOf(c));
    forall n | n in p.nodes && h(n).Some? ensures h(n).value.kind == MODIFIED && h(n).value.nodeId == n.id { ListedNode(c, n.id); }
    OneKind(ADDED, f, c.nodes);
    OneKind(REMOVED, g, p.nodes);
    OneKind(MODIFIED, h, p.nodes);
    var a, r, m := FilterMap(f, c.nodes), FilterMap(g, p.nodes), FilterMap(h, p.nodes);
    assert FoundNodeChanges(p, c) == a + r + m;
    hide Added, Removed, Modified, NodesOf, FoundNodeChanges;
    UniqueTogether(ChangeKey, a, r);
    UniqueTogether(ChangeKey, a + r, m);
  }

  lemma OneEdgeKind(kind: RelationshipChangeKind, f: SnapshotEdge -> Option<RelationshipChange>, s: seq<SnapshotEdge>)
    requires UniqueBy(EdgeId, s)
    requires forall e :: e in s && f(e).Some? ==> f(e).value.kind == kind && f(e).value.edge == e
    ensures UniqueBy(EdgeChangeKey, FilterMap(f, s)) && forall x :: x in FilterMap(f, s) ==> x.kind == kind
  {
    FilterMapElements(f, s);
    KeysCarried(f, EdgeId, (x: RelationshipChange) => x.edge.id, s);
    hide FilterMap;
    var found := FilterMap(f, s);
    forall i, j | 0 <= i < j < |found| ensures EdgeChangeKey(found[i]) != EdgeChangeKey(found[j]) {
      var id := (x: RelationshipChange) => x.edge.id;
      assert id(found[i]) != id(found[j]);
    }
  }

  lemma EdgeChangesUnique(p: Content, c: Content)
    requires ValidContent(p) && ValidContent(c)
    ensures UniqueBy(EdgeChangeKey, FoundRelationshipChanges(p, c))
  {
    hide FilterMap, RequiredByEdge, Incomplete, ReadingsOf, AssociateBy, UniqueBy;
    var f, g := EdgeAdded(EdgesOf(p), NodesOf(c), ReadingsOf(p)), EdgeRemoved(EdgesOf(c), NodesOf(p), ReadingsOf(c));
    OneEdgeKind(RELATIONSHIP_ADDED, f, c.edges);
    OneEdgeKind(RELATIONSHIP_REMOVED, g, p.edges);
    hide EdgeAdded, EdgeRemoved;
    UniqueTogether(EdgeChangeKey, FilterMap(f, c.edges), FilterMap(g, p.edges));
  }

  lemma PublishedUnique(a: Snapshot, b: Snapshot)
    requires ValidContent(a.content) && ValidContent(b.content)
    ensures UniqueBy(ChangeKey, FullDiff(a, b).nodeChanges) && UniqueBy(EdgeChangeKey, FullDiff(a, b).relationshipChanges)
  {
    NodeChangesUnique(a.content, b.content);
    EdgeChangesUnique(a.content, b.content);
    hide FoundNodeChanges, FoundRelationshipChanges, FoundUncertainties, OrderedUncertainties, Count, UniqueBy, SortBy, ValidContent;
    var nodes, edges := FoundNodeChanges(a.content, b.content), FoundRelationshipChanges(a.content, b.content);
    UniqueByPermutation(ChangeKey, nodes, SortBy(NodeChangeLe, nodes));
    UniqueByPermutation(EdgeChangeKey, edges, SortBy(RelationshipChangeLe, edges));
  }

  // ----- inverting one change -----

  lemma InverseKey(older: NodesById, x: NodeChange)
    requires forall id :: id in older ==> older[id].id == id
    ensures InverseOf(older)(x).nodeId == x.nodeId && InverseOf(older)(x).kind == Flip(x).kind
  {
  }

  lemma NodesKeyed(c: Content)
    ensures forall id :: id in NodesOf(c) ==> NodesOf(c)[id].id == id && NodesOf(c)[id] in c.nodes
  {
    AssociateByKeys(NodeId, c.nodes);
  }

  ghost predicate AllReversible(a: Content, b: Content) {
    forall id :: id in NodesOf(a) && id in NodesOf(b) ==> LabelsReversible(NodesOf(a)[id], NodesOf(b)[id])
  }

  /** With reversible labels each change's inverse is reported by the swapped comparison. */
  lemma InverseFound(a: Content, b: Content, x: NodeChange)
    requires ValidContent(a) && ValidContent(b) && CurrentComplete(a) && CurrentComplete(b)
    requires AllReversible(a, b) && x in FoundNodeChanges(a, b)
    ensures InverseOf(NodesOf(a))(x) in FoundNodeChanges(b, a)
  {
    hide FoundNodeChanges, NodesOf, ValidContent, FieldChanges, Incomplete, LabelsReversible;
    if x.kind == MODIFIED {
      ModifiedFields(a, b, x);
      FoundModified(a, b, x);
      var n, m := NodesOf(a)[x.nodeId], NodesOf(b)[x.nodeId];
      NodesKeyed(a);
      NodesKeyed(b);
      FieldsInvert(n, m, ReadingsOf(b), ReadingsOf(a));
      ModifiedPublished(b, a, m);
    } else {
      FoundFlips(a, b, x);
    }
  }

  lemma FoundModified(a: Content, b: Content, x: NodeChange)
    requires x in FoundNodeChanges(a, b) && x.kind == MODIFIED
    ensures x.fields != [] && x.evidence == CONFIRMED && x.nodeId in NodesOf(b) && x == ChangeOf(MODIFIED, CONFIRMED, NodesOf(b)[x.nodeId], x.fields)
  {
    NodesKeyed(b);
    hide FoundNodeChanges, NodesOf, FieldChanges, ReadingsOf;
    var n := FoundNodeChange(a, b, x);
  }

  lemma {:induction false} SwapTwice(fields: seq<FieldChange>)
    ensures Map(SwapOf, Map(SwapOf, fields)) == fields
  {
    var twice := Map(SwapOf, Map(SwapOf, fields));
    assert forall i :: 0 <= i < |fields| ==> twice[i] == fields[i];
  }

  lemma InverseAgain(an: NodesById, bn: NodesById, x: NodeChange)
    requires forall id :: id in an ==> an[id].id == id
    requires x.kind == MODIFIED ==>
      x.nodeId in an && x.nodeId in bn && x == ChangeOf(MODIFIED, CONFIRMED, bn[x.nodeId], x.fields)
    ensures InverseOf(bn)(InverseOf(an)(x)) == x
  {
    hide Map;
    if x.kind == MODIFIED {
      SwapTwice(x.fields);
      assert InverseOf(an)(x).nodeId == x.nodeId;
    }
  }

  /** Inverting against one side and then the other changes nothing. */
  lemma InverseTwice(a: Content, b: Content, x: NodeChange)
    requires x in FoundNodeChanges(a, b)
    ensures InverseOf(NodesOf(b))(InverseOf(NodesOf(a))(x)) == x
  {
    hide FoundNodeChanges, NodesOf, InverseOf;
    NodesKeyed(a);
    FoundSides(a, b, x);
    if x.kind == MODIFIED { FoundModified(a, b, x); }
    InverseAgain(NodesOf(a), NodesOf(b), x);
  }

  lemma MappedUnique(older: NodesById, s: seq<NodeChange>)
    requires UniqueBy(ChangeKey, s) && forall id :: id in older ==> older[id].id == id
    ensures UniqueBy(ChangeKey, Map(InverseOf(older), s))
  {
    hide InverseOf;
    var t := Map(InverseOf(older), s);
    forall i, j | 0 <= i < j < |t| ensures ChangeKey(t[i]) != ChangeKey(t[j]) {
      InverseKey(older, s[i]);
      InverseKey(older, s[j]);
      assert ChangeKey(s[i]) != ChangeKey(s[j]);
    }
  }

  // ----- inverting the lists -----

  lemma InvertedMember(a: Snapshot, b: Snapshot, y: NodeChange)
    requires ValidContent(a.content) && ValidContent(b.content) && CurrentComplete(a.content) && CurrentComplete(b.content)
    requires AllReversible(a.content, b.content)
    ensures y in FullDiff(b, a).nodeChanges <==> y in Map(InverseOf(NodesOf(a.content)), FullDiff(a, b).nodeChanges)
  {
    hide FullDiff, FoundNodeChanges, NodesOf, ValidContent, Incomplete, LabelsReversible, InverseOf, CurrentComplete;
    var f, there := InverseOf(NodesOf(a.content)), FullDiff(a, b).nodeChanges;
    PublishedNode(b, a, y);
    if y in FoundNodeChanges(b.content, a.content) {
      var x := InverseOf(NodesOf(b.content))(y);
      ReversibleBothWays(a.content, b.content);
      InverseFound(b.content, a.content, y);
      InverseTwice(b.content, a.content, y);
      PublishedNode(a, b, x);
      MapMember(f, there, x);
    }
    if y in Map(f, there) {
      var x := MapOrigin(f, there, y);
      PublishedNode(a, b, x);
      InverseFound(a.content, b.content, x);
    }
  }

  lemma ReversibleBothWays(a: Content, b: Content)
    requires AllReversible(a, b)
    ensures AllReversible(b, a)
  {
    hide NodesOf;
  }

  lemma NodesInvert(a: Snapshot, b: Snapshot)
    requires ValidContent(a.content) && ValidContent(b.content) && CurrentComplete(a.content) && CurrentComplete(b.content)
    requires AllReversible(a.content, b.content)
    ensures multiset(FullDiff(b, a).nodeChanges) == multiset(Map(InverseOf(NodesOf(a.content)), FullDiff(a, b).nodeChanges))
  {
    hide FullDiff, NodesOf, ValidContent, CurrentComplete, AllReversible, UniqueBy, InverseOf;
    var f, there, back := InverseOf(NodesOf(a.content)), FullDiff(a, b).nodeChanges, FullDiff(b, a).nodeChanges;
    forall y ensures y in back <==> y in Map(f, there) { InvertedMember(a, b, y); }
    PublishedUnique(a, b);
    PublishedUnique(b, a);
    NodesKeyed(a.content);
    MappedUnique(NodesOf(a.content), there);
    UniqueByDistinct(ChangeKey, back);
    UniqueByDistinct(ChangeKey, Map(f, there));
    DistinctPermutation(back, Map(f, there));
  }

  lemma EdgesInvert(a: Snapshot, b: Snapshot)
    requires ValidContent(a.content) && ValidContent(b.content)
    ensures multiset(FullDiff(b, a).relationshipChanges) == multiset(Map(FlippedEdge, FullDiff(a, b).relationshipChanges))
  {
    hide FullDiff, ValidContent;
    var there, back := FullDiff(a, b).relationshipChanges, FullDiff(b, a).relationshipChanges;
    SwapFlips(a, b);
    PublishedUnique(a, b);
    PublishedUnique(b, a);
    var flipped := Map(FlippedEdge, there);
    forall y ensures y in back <==> y in flipped {
      assert FlipEdge(FlipEdge(y)) == y;
      MapMember(FlippedEdge, there, FlipEdge(y));
      if y in flipped { var x := MapOrigin(FlippedEdge, there, y); }
    }
    FlippedUnique(there);
    UniqueByDistinct(EdgeChangeKey, back);
    UniqueByDistinct(EdgeChangeKey, flipped);
    DistinctPermutation(back, flipped);
  }

  lemma FlippedUnique(s: seq<RelationshipChange>)
    requires UniqueBy(EdgeChangeKey, s)
    ensures UniqueBy(EdgeChangeKey, Map(FlippedEdge, s))
  {
    var t := Map(FlippedEdge, s);
    forall i, j | 0 <= i < j < |t| ensures EdgeChangeKey(t[i]) != EdgeChangeKey(t[j]) { assert EdgeChangeKey(s[i]) != EdgeChangeKey(s[j]); }
  }

  /** A label judged from one side only shows in the lists. */
  lemma IrreversibleShows(a: Snapshot, b: Snapshot, id: string)
    requires ValidContent(a.content) && ValidContent(b.content) && CurrentComplete(a.content) && CurrentComplete(b.content)
    requires id in NodesOf(a.content) && id in NodesOf(b.content) && !LabelsReversible(NodesOf(a.content)[id], NodesOf(b.content)[id])
    ensures multiset(FullDiff(b, a).nodeChanges) != multiset(Map(InverseOf(NodesOf(a.content)), FullDiff(a, b).nodeChanges))
  {
    hide FullDiff, FoundNodeChanges, NodesOf, ValidContent, FieldChanges, Incomplete, LabelsReversible;
    var n, m := NodesOf(a.content)[id], NodesOf(b.content)[id];
    var f, there, back := InverseOf(NodesOf(a.content)), FullDiff(a, b).nodeChanges, FullDiff(b, a).nodeChanges;
    NodesKeyed(a.content);
    NodesKeyed(b.content);
    FieldsInvert(n, m, ReadingsOf(b.content), ReadingsOf(a.content));
    var fields, reverse := FieldChanges(n, m, ReadingsOf(b.content)), FieldChanges(m, n, ReadingsOf(a.content));
    if fields != [] {
      var x := ChangeOf(MODIFIED, CONFIRMED, m, fields);
      ModifiedPublished(a.content, b.content, n);
      PublishedNode(a, b, x);
      MapMember(f, there, x);
      PublishedNode(b, a, f(x));
      if f(x) in back { ModifiedFields(b.content, a.content, f(x)); }
      assert f(x) in multiset(Map(f, there)) && f(x) !in multiset(back);
    } else {
      assert reverse != [];
      var y := ChangeOf(MODIFIED, CONFIRMED, n, reverse);
      ModifiedPublished(b.content, a.content, m);
      PublishedNode(b, a, y);
      if y in Map(f, there) {
        var x := MapOrigin(f, there, y);
        PublishedNode(a, b, x);
        ModifiedInverse(NodesOf(a.content), x, y);
        ModifiedFields(a.content, b.content, x);
      }
      assert y in multiset(back) && y !in multiset(Map(f, there));
    }
  }

  lemma ModifiedInverse(older: NodesById, x: NodeChange, y: NodeChange)
    requires InverseOf(older)(x) == y && y.kind == MODIFIED && forall id :: id in older ==> older[id].id == id
    ensures x.kind == MODIFIED && x.nodeId == y.nodeId
    ensures x.nodeId in older ==> y.fields == Map(SwapOf, x.fields)
  {
  }

  // ----- the counts -----

  const IsRemoved := (c: NodeChange) => c.kind == REMOVED
  const IsEdgeRemoved := (c: RelationshipChange) => c.kind == RELATIONSHIP_REMOVED

  lemma {:induction false} CountMapped<T, U>(p: U -> bool, f: T -> U, q: T -> bool, s: seq<T>)
    requires forall x :: x in s ==> (p(f(x)) <==> q(x))
    ensures Count(p, Map(f, s)) == Count(q, s)
  {
    if s != [] {
      var front, last := s[..|s| - 1], s[|s| - 1];
      assert s == front + [last];
      MapFront(f, s);
      CountMapped(p, f, q, front);
      assert last in s;
    }
  }

  lemma BothConfirmed(a: Snapshot, b: Snapshot)
    requires CurrentComplete(a.content) && CurrentComplete(b.content)
    ensures AllConfirmed(FullDiff(a, b)) && FullDiff(a, b).status != PARTIAL && FullDiff(a, b).uncertainties == []
  {
    hide FullDiff, CurrentComplete;
    var d, e := FullDiff(a, b), FullDiff(b, a);
    SwapFlips(a, b);
    PublishedConfirmed(b, a);
    StatusMeaning(a, b);
    forall x | x in d.nodeChanges ensures x.evidence != NEWLY_OBSERVED { ModifiedNotNew(a, b, x); }
    forall y | y in d.relationshipChanges ensures y.evidence != NEWLY_OBSERVED { assert FlipEdge(y) in e.relationshipChanges; }
  }

  lemma ModifiedNotNew(a: Snapshot, b: Snapshot, x: NodeChange)
    requires x in FullDiff(a, b).nodeChanges && CurrentComplete(a.content)
    ensures x.evidence != NEWLY_OBSERVED
  {
    hide FullDiff, CurrentComplete, FoundNodeChanges;
    PublishedNode(a, b, x);
    if x.kind == MODIFIED {
      FoundModified(a.content, b.content, x);
    } else {
      SwapFlips(a, b);
      PublishedConfirmed(b, a);
      assert Flip(x) in FullDiff(b, a).nodeChanges;
    }
  }

  lemma PublishedConfirmed(p: Snapshot, c: Snapshot)
    requires CurrentComplete(c.content)
    ensures forall x :: x in FullDiff(p, c).nodeChanges ==> x.evidence != UNCONFIRMED_REMOVAL
    ensures forall x :: x in FullDiff(p, c).relationshipChanges ==> x.evidence != UNCONFIRMED_REMOVAL
  {
    RemovalsConfirmed(p.content, c.content);
    hide SortBy, FoundNodeChanges, FoundRelationshipChanges, FoundUncertainties, OrderedUncertainties, Count, CurrentComplete;
  }

  /** The two summaries with additions and removals exchanged. */
  ghost predicate Mirrored(s: DiffSummary, t: DiffSummary) {
    && t.addedNodes == s.removedNodes && t.removedNodes == s.addedNodes && t.modifiedNodes == s.modifiedNodes
    && t.addedRelationships == s.removedRelationships && t.removedRelationships == s.addedRelationships
    && t.uncertainComparisons == s.uncertainComparisons == 0 && t.hasChanges == s.hasChanges && t.isComplete && s.isComplete
  }

  lemma SummaryCounts(a: Snapshot, b: Snapshot)
    requires AllConfirmed(FullDiff(a, b)) && FullDiff(a, b).uncertainties == []
    ensures var d := FullDiff(a, b); var s := d.summary;
      && s.addedNodes == Count(IsAdded, d.nodeChanges) && s.removedNodes == Count(IsRemoved, d.nodeChanges)
      && s.modifiedNodes == Count(IsModified, d.nodeChanges)
      && s.addedRelationships == Count(IsEdgeAdded, d.relationshipChanges)
      && s.removedRelationships == Count(IsEdgeRemoved, d.relationshipChanges)
      && s.uncertainComparisons == 0 && s.isComplete
      && (s.hasChanges <==> |d.nodeChanges| + |d.relationshipChanges| > 0)
  {
    hide FoundNodeChanges, FoundRelationshipChanges, FoundUncertainties, OrderedUncertainties, Count, SortBy;
    var d := FullDiff(a, b);
    var nodes, edges := d.nodeChanges, d.relationshipChanges;
    CountMapped(IsConfirmedRemoval, (x: NodeChange) => x, IsRemoved, nodes);
    CountMapped(IsConfirmedEdgeRemoval, (x: RelationshipChange) => x, IsEdgeRemoved, edges);
    assert Map((x: NodeChange) => x, nodes) == nodes && Map((x: RelationshipChange) => x, edges) == edges;
    CountNone(IsUnconfirmed, nodes);
    CountNone(IsEdgeUnconfirmed, edges);
    CountAll(IsNotUnconfirmed, nodes);
    CountAll(IsEdgeNotUnconfirmed, edges);
  }

  lemma CountMirrors<T(!new), U>(p: U -> bool, f: T -> U, q: T -> bool, there: seq<T>, back: seq<U>)
    requires multiset(back) == multiset(Map(f, there)) && forall x :: p(f(x)) <==> q(x)
    ensures Count(p, back) == Count(q, there) && |back| == |there|
  {
    hide Count;
    CountMapped(p, f, q, there);
    CountPermutation(p, back, Map(f, there));
    assert |multiset(back)| == |back| && |multiset(Map(f, there))| == |Map(f, there)|;
  }

  lemma InverseKinds(older: NodesById, x: NodeChange)
    requires forall id :: id in older ==> older[id].id == id
    ensures IsAdded(InverseOf(older)(x)) <==> IsRemoved(x)
    ensures IsRemoved(InverseOf(older)(x)) <==> IsAdded(x)
    ensures IsModified(InverseOf(older)(x)) <==> IsModified(x)
  {
    InverseKey(older, x);
    hide InverseOf;
  }

  lemma CountsMirror(older: NodesById, there: seq<NodeChange>, back: seq<NodeChange>)
    requires multiset(back) == multiset(Map(InverseOf(older), there)) && forall id :: id in older ==> older[id].id == id
    ensures Count(IsAdded, back) == Count(IsRemoved, there) && Count(IsRemoved, back) == Count(IsAdded, there)
    ensures Count(IsModified, back) == Count(IsModified, there) && |back| == |there|
  {
    hide *;
    var f := InverseOf(older);
    forall x ensures IsAdded(f(x)) <==> IsRemoved(x) { InverseKinds(older, x); }
    CountMirrors(IsAdded, f, IsRemoved, there, back);
    forall x ensures IsRemoved(f(x)) <==> IsAdded(x) { InverseKinds(older, x); }
    CountMirrors(IsRemoved, f, IsAdded, there, back);
    forall x ensures IsModified(f(x)) <==> IsModified(x) { InverseKinds(older, x); }
    CountMirrors(IsModified, f, IsModified, there, back);
  }

  lemma EdgeCountsMirror(there: seq<RelationshipChange>, back: seq<RelationshipChange>)
    requires multiset(back) == multiset(Map(FlippedEdge, there))
    ensures Count(IsEdgeAdded, back) == Count(IsEdgeRemoved, there) && Count(IsEdgeRemoved, back) == Count(IsEdgeAdded, there)
    ensures |back| == |there|
  {
    hide Count, Map;
    CountMirrors(IsEdgeAdded, FlippedEdge, IsEdgeRemoved, there, back);
    CountMirrors(IsEdgeRemoved, FlippedEdge, IsEdgeAdded, there, back);
  }

  // ----- the whole diff -----

  /** Both lists are turned around, change by change, and so are the counts. */
  ghost predicate Inverts(a: Snapshot, b: Snapshot) {
    var d, e := FullDiff(a, b), FullDiff(b, a);
    && multiset(e.nodeChanges) == multiset(Map(InverseOf(NodesOf(a.content)), d.nodeChanges))
    && multiset(e.relationshipChanges) == multiset(Map(FlippedEdge, d.relationshipChanges))
    && Mirrored(d.summary, e.summary) && d.status == e.status
  }

  lemma ReversibleInverts(a: Snapshot, b: Snapshot)
    requires ValidContent(a.content) && ValidContent(b.content) && CurrentComplete(a.content) && CurrentComplete(b.content)
    requires AllReversible(a.content, b.content)
    ensures Inverts(a, b)
  {
    hide FullDiff, NodesOf, ValidContent, CurrentComplete, AllReversible, InverseOf, Count, AllConfirmed;
    NodesInvert(a, b);
    EdgesInvert(a, b);
    BothConfirmed(a, b);
    BothConfirmed(b, a);
    SummaryCounts(a, b);
    SummaryCounts(b, a);
    NodesKeyed(a.content);
    CountsMirror(NodesOf(a.content), FullDiff(a, b).nodeChanges, FullDiff(b, a).nodeChanges);
    EdgeCountsMirror(FullDiff(a, b).relationshipChanges, FullDiff(b, a).relationshipChanges);
    StatusByChanges(a, b);
    StatusByChanges(b, a);
  }

  lemma StatusByChanges(a: Snapshot, b: Snapshot)
    ensures FullDiff(a, b).status != PARTIAL ==> FullDiff(a, b).status == if FullDiff(a, b).summary.hasChanges then CHANGED else NO_CHANGES
  {
    hide FoundNodeChanges, FoundRelationshipChanges, FoundUncertainties, OrderedUncertainties, Count, SortBy;
  }

  /**
    Swapping two completely discovered snapshots turns the whole diff around, lists, counts and status,
    exactly when the label of every shared node is judged alike from both sides.
   */
  lemma SwapInvertsExactly(a: Snapshot, b: Snapshot)
    requires ValidContent(a.content) && ValidContent(b.content) && CurrentComplete(a.content) && CurrentComplete(b.content)
    ensures Inverts(a, b) <==> AllReversible(a.content, b.content)
  {
    hide FullDiff, NodesOf, ValidContent, CurrentComplete, InverseOf, Mirrored, LabelsReversible;
    if AllReversible(a.content, b.content) {
      ReversibleInverts(a, b);
    } else {
      var id :| id in NodesOf(a.content) && id in NodesOf(b.content) && !LabelsReversible(NodesOf(a.content)[id], NodesOf(b.content)[id]);
      IrreversibleShows(a, b, id);
    }
  }

  // ----- an engine on one side only -----

  const COMPLETE := [
    DiscoveryQuality("DOCKER", "AVAILABLE", []), DiscoveryQuality("CADDY", "DISCOVERED", []),
    DiscoveryQuality("SYSTEMD", "DISCOVERED", []), DiscoveryQuality("HOST_LISTENERS", "DISCOVERED", [])]

  function OneNode(title: string, nodeType: string): Content { Content([SnapshotNode("n", title, nodeType, map[])], [], COMPLETE) }

  function OneNodeSnapshot(id: string, title: string, nodeType: string): Snapshot {
    Snapshot(SNAPSHOT_SCHEMA_VERSION, id, "s", 0, FingerprintOf(OneNode(title, nodeType)), OneNode(title, nodeType))
  }

  lemma CompleteReadings()
    ensures var r := AssociateBy(ReadingSubsystem, FilterMap(AsReading, COMPLETE)); Incomplete(Remote, r) == {}
  {
    var d, c, s, l := Reading(DOCKER, "AVAILABLE"), Reading(CADDY, "DISCOVERED"), Reading(SYSTEMD, "DISCOVERED"), Reading(HOST_LISTENERS, "DISCOVERED");
    FourRead();
    assert FilterMap(AsReading, COMPLETE) == [d, c, s, l];
    assert [d, c, s, l][..3] == [d, c, s] && [d, c, s][..2] == [d, c] && [d, c][..1] == [d] && [d][..0] == [];
    hide FilterMap;
    assert AssociateBy(ReadingSubsystem, [d]) == map[DOCKER := d];
    assert AssociateBy(ReadingSubsystem, [d, c]) == map[DOCKER := d, CADDY := c];
    assert AssociateBy(ReadingSubsystem, [d, c, s]) == map[DOCKER := d, CADDY := c, SYSTEMD := s];
  }

  lemma FourRead()
    ensures FilterMap(AsReading, COMPLETE) ==
      [Reading(DOCKER, "AVAILABLE"), Reading(CADDY, "DISCOVERED"), Reading(SYSTEMD, "DISCOVERED"), Reading(HOST_LISTENERS, "DISCOVERED")]
  {
    var q := COMPLETE;
    assert q[..3][..2][..1][..0] == [] && q[..3][..2][..1] == [q[0]] && q[..3][..2] == [q[0], q[1]] && q[..3] == [q[0], q[1], q[2]];
    assert AsReading(q[0]) == Some(Reading(DOCKER, "AVAILABLE")) && AsReading(q[1]) == Some(Reading(CADDY, "DISCOVERED"));
    assert AsReading(q[2]) == Some(Reading(SYSTEMD, "DISCOVERED")) && AsReading(q[3]) == Some(Reading(HOST_LISTENERS, "DISCOVERED"));
    hide AsReading;
    assert FilterMap(AsReading, q[..3][..2][..1]) == [Reading(DOCKER, "AVAILABLE")];
    assert FilterMap(AsReading, q[..3][..2]) == [Reading(DOCKER, "AVAILABLE"), Reading(CADDY, "DISCOVERED")];
    assert FilterMap(AsReading, q[..3]) == [Reading(DOCKER, "AVAILABLE"), Reading(CADDY, "DISCOVERED"), Reading(SYSTEMD, "DISCOVERED")];
  }

  lemma OneNodeFacts(title: string, nodeType: string)
    ensures var c := OneNode(title, nodeType);
      ValidContent(c) && CurrentComplete(c) && NodesOf(c) == map["n" := SnapshotNode("n", title, nodeType, map[])]
  {
    CompleteReadings();
    NamesDiffer();
    hide FilterMap, Incomplete;
    var n := SnapshotNode("n", title, nodeType, map[]);
    assert [n][..0] == [];
    assert AssociateBy(NodeId, [n]) == map["n" := n];
  }

  lemma NamesDiffer()
    ensures UniqueBy(SubsystemName, COMPLETE)
  {
    assert "DOCKER" != "CADDY" && "DOCKER" != "SYSTEMD" && "DOCKER" != "HOST_LISTENERS" && "CADDY" != "SYSTEMD" by { LengthsDiffer(); }
    LengthsDiffer();
  }

  lemma LengthsDiffer()
    ensures "DOCKER"[0] != "CADDY"[0] && "DOCKER"[0] != "SYSTEMD"[0] && "DOCKER"[0] != "HOST_LISTENERS"[0]
    ensures "CADDY"[0] != "SYSTEMD"[0] && "CADDY"[0] != "HOST_LISTENERS"[0] && "SYSTEMD"[0] != "HOST_LISTENERS"[0]
  {
  }

  /**
    A node that is a Docker engine in one snapshot only, with another title: the swapped diff is not the
    inverse.  No two scans of one server show such a pair, as identifiers of built graphs carry the type.
   */
  lemma EngineNotInverted() returns (a: Snapshot, b: Snapshot)
    ensures ValidContent(a.content) && ValidContent(b.content) && CurrentComplete(a.content) && CurrentComplete(b.content)
    ensures !Inverts(a, b)
  {
    a, b := OneNodeSnapshot("a", "old", "DOCKER_ENGINE"), OneNodeSnapshot("b", "new", "SERVER");
    OneNodeFacts("old", "DOCKER_ENGINE");
    OneNodeFacts("new", "SERVER");
    assert "old"[0] != "new"[0] && "DOCKER_ENGINE"[0] != "SERVER"[0];
    hide NodesOf, ValidContent, CurrentComplete, Inverts, OneNode;
    assert !LabelsReversible(NodesOf(a.content)["n"], NodesOf(b.content)["n"]);
    SwapInvertsExactly(a, b);
  }

  // ----- a shortcut that says too much -----

  /** Under partial discovery the shortcut for equal fingerprints and the full comparison differ. */
  lemma ShortcutOverstates() returns (previous: Snapshot, current: Snapshot)
    ensures previous.graphFingerprint == current.graphFingerprint && ValidContent(current.content)
    ensures Compare(Some(previous), current) != FullDiff(previous, current)
    ensures Compare(Some(previous), current).status == NO_CHANGES && Compare(Some(previous), current).summary.isComplete
    ensures FullDiff(previous, current).status == PARTIAL
  {
    var c := Content([], [], []);
    previous := Snapshot(SNAPSHOT_SCHEMA_VERSION, "a", "s", 0, FingerprintOf(c), c);
    current := Snapshot(SNAPSHOT_SCHEMA_VERSION, "b", "s", 0, FingerprintOf(c), c);
    assert DOCKER in Incomplete(Remote, ReadingsOf(c));
    assert ValidContent(c);
    hide FullDiff, ValidContent, CurrentComplete;
    StatusMeaning(previous, current);
    NotComplete(c);
  }

  lemma NotComplete(c: Content)
    requires DOCKER in Incomplete(Remote, ReadingsOf(c))
    ensures !CurrentComplete(c)
  {
  }
}

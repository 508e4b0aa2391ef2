/** Status, completeness and conservation of counts of a full comparison. */
module DiffAccounting {
  import opened Ordering
  import opened Collections
  import opened Snapshots
  import opened DiffEngine

  // ----- shape of the change lists -----

  /** The kinds of evidence each kind of change can carry. */
  predicate Shaped(c: NodeChange) {
    match c.kind
    case ADDED => c.evidence != UNCONFIRMED_REMOVAL
    case REMOVED => c.evidence != NEWLY_OBSERVED
    case MODIFIED => c.evidence == CONFIRMED
  }

  predicate EdgeShaped(c: RelationshipChange) {
    match c.kind
    case RELATIONSHIP_ADDED => c.evidence != UNCONFIRMED_REMOVAL
    case RELATIONSHIP_REMOVED => c.evidence != NEWLY_OBSERVED
  }

  lemma NodeChangesShaped(p: Content, c: Content)
    ensures forall x :: x in FilterMap(Added(NodesOf(p), ReadingsOf(p)), c.nodes) ==> x.kind == ADDED && Shaped(x)
    ensures forall x :: x in FilterMap(Removed(NodesOf(c), ReadingsOf(c)), p.nodes) ==> x.kind == REMOVED && Shaped(x)
    ensures forall x :: x in FilterMap(Modified(NodesOf(c), ReadingsOf(c)), p.nodes) ==> x.kind == MODIFIED && Shaped(x)
  {
    hide Required, FieldChanges, Incomplete, ReadingsOf, AssociateBy, FilterMap;
    FilterMapElements(Added(NodesOf(p), ReadingsOf(p)), c.nodes);
    FilterMapElements(Removed(NodesOf(c), ReadingsOf(c)), p.nodes);
    FilterMapElements(Modified(NodesOf(c), ReadingsOf(c)), p.nodes);
  }

  lemma EdgeChangesShaped(p: Content, c: Content)
    ensures forall x :: x in FilterMap(EdgeAdded(EdgesOf(p), NodesOf(c), ReadingsOf(p)), c.edges) ==>
      x.kind == RELATIONSHIP_ADDED && EdgeShaped(x)
    ensures forall x :: x in FilterMap(EdgeRemoved(EdgesOf(c), NodesOf(p), ReadingsOf(c)), p.edges) ==>
      x.kind == RELATIONSHIP_REMOVED && EdgeShaped(x)
  {
    hide RequiredByEdge, Incomplete, ReadingsOf, AssociateBy, FilterMap;
    FilterMapElements(EdgeAdded(EdgesOf(p), NodesOf(c), ReadingsOf(p)), c.edges);
    FilterMapElements(EdgeRemoved(EdgesOf(c), NodesOf(p), ReadingsOf(c)), p.edges);
  }

  // ----- counting by identifier -----

  function KeyNotIn<K(==), V>(key: V -> K, keys: set<K>): V -> bool { (v: V) => key(v) !in keys }

  ghost function KeySet<K, V>(key: V -> K, s: seq<V>): set<K> {
    if s == [] then {} else KeySet(key, s[..|s| - 1]) + {key(s[|s| - 1])}
  }

  lemma {:induction false} KeySetIsKeys<K, V>(key: V -> K, s: seq<V>)
    ensures KeySet(key, s) == AssociateBy(key, s).Keys
  {
    if s != [] { KeySetIsKeys(key, s[..|s| - 1]); }
  }

  lemma {:induction false} KeySetMember<K, V>(key: V -> K, s: seq<V>, k: K)
    ensures k in KeySet(key, s) <==> exists i :: 0 <= i < |s| && key(s[i]) == k
  {
    if s != [] {
      KeySetMember(key, s[..|s| - 1], k);
      assert key(s[|s| - 1]) == k ==> exists i :: 0 <= i < |s| && key(s[i]) == k;
    }
  }

  /** In a list with unique keys, the number of members outside a key set is the size of the difference. */
  lemma {:induction false} CountOutside<K, V>(key: V -> K, s: seq<V>, keys: set<K>)
    requires UniqueBy(key, s)
    ensures Count(KeyNotIn(key, keys), s) == |KeySet(key, s) - keys|
    ensures |KeySet(key, s)| == |s|
  {
    if s != [] {
      var n := |s| - 1;
      CountOutside(key, s[..n], keys);
      KeySetMember(key, s[..n], key(s[n]));
      var front, k := KeySet(key, s[..n]), key(s[n]);
      assert k !in front;
      if k in keys {
        assert front + {k} - keys == front - keys;
      } else {
        assert front + {k} - keys == (front - keys) + {k};
      }
    }
  }

  lemma {:induction false} FilterMapCount<T, U>(f: T -> Option<U>, p: T -> bool, s: seq<T>)
    requires forall x :: f(x).Some? <==> p(x)
    ensures |FilterMap(f, s)| == Count(p, s)
  {
    if s != [] { FilterMapCount(f, p, s[..|s| - 1]); }
  }

  lemma DifferenceSizes<K>(p: set<K>, c: set<K>)
    ensures |c| + |p - c| == |p| + |c - p|
  {
    assert p == (p - c) + (p * c);
    assert c == (c - p) + (p * c);
  }

  // ----- conservation -----

  /** The two one-sided lists account for every identifier. */
  lemma NodeSizes(p: Content, c: Content)
    requires ValidContent(p) && ValidContent(c)
    ensures |c.nodes| + |FilterMap(Removed(NodesOf(c), ReadingsOf(c)), p.nodes)|
      == |p.nodes| + |FilterMap(Added(NodesOf(p), ReadingsOf(p)), c.nodes)|
  {
    hide Required, Incomplete, ReadingsOf;
    var pk, ck := KeySet(NodeId, p.nodes), KeySet(NodeId, c.nodes);
    KeySetIsKeys(NodeId, p.nodes);
    KeySetIsKeys(NodeId, c.nodes);
    FilterMapCount(Added(NodesOf(p), ReadingsOf(p)), KeyNotIn(NodeId, pk), c.nodes);
    FilterMapCount(Removed(NodesOf(c), ReadingsOf(c)), KeyNotIn(NodeId, ck), p.nodes);
    CountOutside(NodeId, c.nodes, pk);
    CountOutside(NodeId, p.nodes, ck);
    DifferenceSizes(pk, ck);
  }

  lemma EdgeSizes(p: Content, c: Content)
    requires ValidContent(p) && ValidContent(c)
    ensures |c.edges| + |FilterMap(EdgeRemoved(EdgesOf(c), NodesOf(p), ReadingsOf(c)), p.edges)|
      == |p.edges| + |FilterMap(EdgeAdded(EdgesOf(p), NodesOf(c), ReadingsOf(p)), c.edges)|
  {
    hide RequiredByEdge, Incomplete, ReadingsOf, NodesOf;
    var pk, ck := KeySet(EdgeId, p.edges), KeySet(EdgeId, c.edges);
    KeySetIsKeys(EdgeId, p.edges);
    KeySetIsKeys(EdgeId, c.edges);
    FilterMapCount(EdgeAdded(EdgesOf(p), NodesOf(c), ReadingsOf(p)), KeyNotIn(EdgeId, pk), c.edges);
    FilterMapCount(EdgeRemoved(EdgesOf(c), NodesOf(p), ReadingsOf(c)), KeyNotIn(EdgeId, ck), p.edges);
    CountOutside(EdgeId, c.edges, pk);
    CountOutside(EdgeId, p.edges, ck);
    DifferenceSizes(pk, ck);
  }

  /** How the counts of the published list split into the three found lists. */
  lemma NodeCounts(p: Content, c: Content)
    ensures var added := FilterMap(Added(NodesOf(p), ReadingsOf(p)), c.nodes);
      var removed := FilterMap(Removed(NodesOf(c), ReadingsOf(c)), p.nodes);
      var modified := FilterMap(Modified(NodesOf(c), ReadingsOf(c)), p.nodes);
      var all := SortBy(NodeChangeLe, FoundNodeChanges(p, c));
      && Count(IsAdded, all) == |added|
      && Count(IsModified, all) == |modified|
      && Count(IsConfirmedRemoval, all) + Count(IsUnconfirmed, all) == |removed|
      && Count(IsNotUnconfirmed, all) == |added| + Count(IsConfirmedRemoval, all) + |modified|
  {
    var added := FilterMap(Added(NodesOf(p), ReadingsOf(p)), c.nodes);
    var removed := FilterMap(Removed(NodesOf(c), ReadingsOf(c)), p.nodes);
    var modified := FilterMap(Modified(NodesOf(c), ReadingsOf(c)), p.nodes);
    NodeChangesShaped(p, c);
    ThreeLists(added, removed, modified);
    var all := SortBy(NodeChangeLe, FoundNodeChanges(p, c));
    hide NodeChangeLe, FilterMap, Count;
    CountPermutation(IsAdded, all, FoundNodeChanges(p, c));
    CountPermutation(IsModified, all, FoundNodeChanges(p, c));
    CountPermutation(IsConfirmedRemoval, all, FoundNodeChanges(p, c));
    CountPermutation(IsUnconfirmed, all, FoundNodeChanges(p, c));
    CountPermutation(IsNotUnconfirmed, all, FoundNodeChanges(p, c));
  }

  lemma ThreeLists(added: seq<NodeChange>, removed: seq<NodeChange>, modified: seq<NodeChange>)
    requires forall x :: x in added ==> x.kind == ADDED && Shaped(x)
    requires forall x :: x in removed ==> x.kind == REMOVED && Shaped(x)
    requires forall x :: x in modified ==> x.kind == MODIFIED && Shaped(x)
    ensures var all := added + removed + modified;
      && Count(IsAdded, all) == |added|
      && Count(IsModified, all) == |modified|
      && Count(IsConfirmedRemoval, all) + Count(IsUnconfirmed, all) == |removed|
      && Count(IsNotUnconfirmed, all) == |added| + Count(IsConfirmedRemoval, all) + |modified|
  {
    hide Count;
    CountThree(IsAdded, added, removed, modified);
    CountThree(IsModified, added, removed, modified);
    CountThree(IsConfirmedRemoval, added, removed, modified);
    CountThree(IsUnconfirmed, added, removed, modified);
    CountThree(IsNotUnconfirmed, added, removed, modified);
    CountAll(IsAdded, added);
    CountNone(IsAdded, removed);
    CountNone(IsAdded, modified);
    CountNone(IsModified, added);
    CountNone(IsModified, removed);
    CountAll(IsModified, modified);
    CountNone(IsConfirmedRemoval, added);
    CountNone(IsConfirmedRemoval, modified);
    CountNone(IsUnconfirmed, added);
    CountNone(IsUnconfirmed, modified);
    CountAll(IsNotUnconfirmed, added);
    CountAll(IsNotUnconfirmed, modified);
    var anyRemoval := (x: NodeChange) => x.kind == REMOVED;
    CountAll(anyRemoval, removed);
    CountSplit(anyRemoval, IsConfirmedRemoval, IsUnconfirmed, removed);
    CountSplit(IsNotUnconfirmed, IsConfirmedRemoval, IsNothing, removed);
    CountNone(IsNothing, removed);
  }

  const IsNothing := (x: NodeChange) => false
  const IsNoEdge := (x: RelationshipChange) => false

  lemma CountThree<T>(p: T -> bool, a: seq<T>, b: seq<T>, c: seq<T>)
    ensures Count(p, a + b + c) == Count(p, a) + Count(p, b) + Count(p, c)
  {
    CountAppend(p, a + b, c);
    CountAppend(p, a, b);
  }

  lemma TwoLists(added: seq<RelationshipChange>, removed: seq<RelationshipChange>)
    requires forall x :: x in added ==> x.kind == RELATIONSHIP_ADDED && EdgeShaped(x)
    requires forall x :: x in removed ==> x.kind == RELATIONSHIP_REMOVED && EdgeShaped(x)
    ensures var all := added + removed;
      && Count(IsEdgeAdded, all) == |added|
      && Count(IsConfirmedEdgeRemoval, all) + Count(IsEdgeUnconfirmed, all) == |removed|
      && Count(IsEdgeNotUnconfirmed, all) == |added| + Count(IsConfirmedEdgeRemoval, all)
  {
    hide Count;
    CountAppend(IsEdgeAdded, added, removed);
    CountAppend(IsConfirmedEdgeRemoval, added, removed);
    CountAppend(IsEdgeUnconfirmed, added, removed);
    CountAppend(IsEdgeNotUnconfirmed, added, removed);
    CountAll(IsEdgeAdded, added);
    CountNone(IsEdgeAdded, removed);
    CountNone(IsConfirmedEdgeRemoval, added);
    CountNone(IsEdgeUnconfirmed, added);
    CountAll(IsEdgeNotUnconfirmed, added);
    var anyRemoval := (x: RelationshipChange) => x.kind == RELATIONSHIP_REMOVED;
    CountAll(anyRemoval, removed);
    CountSplit(anyRemoval, IsConfirmedEdgeRemoval, IsEdgeUnconfirmed, removed);
    CountSplit(IsEdgeNotUnconfirmed, IsConfirmedEdgeRemoval, IsNoEdge, removed);
    CountNone(IsNoEdge, removed);
  }

  lemma EdgeCounts(p: Content, c: Content)
    ensures var added := FilterMap(EdgeAdded(EdgesOf(p), NodesOf(c), ReadingsOf(p)), c.edges);
      var removed := FilterMap(EdgeRemoved(EdgesOf(c), NodesOf(p), ReadingsOf(c)), p.edges);
      var all := SortBy(RelationshipChangeLe, FoundRelationshipChanges(p, c));
      && Count(IsEdgeAdded, all) == |added|
      && Count(IsConfirmedEdgeRemoval, all) + Count(IsEdgeUnconfirmed, all) == |removed|
      && Count(IsEdgeNotUnconfirmed, all) == |added| + Count(IsConfirmedEdgeRemoval, all)
  {
    var added := FilterMap(EdgeAdded(EdgesOf(p), NodesOf(c), ReadingsOf(p)), c.edges);
    var removed := FilterMap(EdgeRemoved(EdgesOf(c), NodesOf(p), ReadingsOf(c)), p.edges);
    EdgeChangesShaped(p, c);
    TwoLists(added, removed);
    var all := SortBy(RelationshipChangeLe, FoundRelationshipChanges(p, c));
    hide RelationshipChangeLe, FilterMap, Count;
    CountPermutation(IsEdgeAdded, all, FoundRelationshipChanges(p, c));
    CountPermutation(IsConfirmedEdgeRemoval, all, FoundRelationshipChanges(p, c));
    CountPermutation(IsEdgeUnconfirmed, all, FoundRelationshipChanges(p, c));
    CountPermutation(IsEdgeNotUnconfirmed, all, FoundRelationshipChanges(p, c));
  }

  /**
    Conservation: on both sides the previous size plus the additions equals the current size plus the
    confirmed and the unconfirmed removals, and `hasChanges` says that the five counts are not all zero.
   */
  lemma CountsAreConserved(previous: Snapshot, current: Snapshot)
    requires ValidContent(previous.content) && ValidContent(current.content)
    ensures var d := FullDiff(previous, current);
      && |current.content.nodes| + d.summary.removedNodes + Count(IsUnconfirmed, d.nodeChanges)
          == |previous.content.nodes| + d.summary.addedNodes
      && |current.content.edges| + d.summary.removedRelationships + Count(IsEdgeUnconfirmed, d.relationshipChanges)
          == |previous.content.edges| + d.summary.addedRelationships
      && (d.summary.hasChanges <==>
          d.summary.addedNodes + d.summary.removedNodes + d.summary.modifiedNodes
            + d.summary.addedRelationships + d.summary.removedRelationships > 0)
  {
    var p, c := previous.content, current.content;
    NodeSizes(p, c);
    EdgeSizes(p, c);
    NodeCounts(p, c);
    EdgeCounts(p, c);
    hide ValidContent, FoundNodeChanges, FoundRelationshipChanges, FoundUncertainties, OrderedUncertainties, FilterMap, SortBy, Count;
  }
}

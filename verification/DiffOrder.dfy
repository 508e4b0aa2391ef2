/** The comparison does not depend on the order of the lists inside either snapshot. */
module DiffOrder {
  import opened Ordering
  import opened Collections
  import opened Snapshots
  import opened DiffEngine

  ghost predicate Reordered(a: Content, b: Content) {
    && multiset(a.nodes) == multiset(b.nodes)
    && multiset(a.edges) == multiset(b.edges)
    && multiset(a.discoveryQuality) == multiset(b.discoveryQuality)
  }

  lemma ReorderedValid(a: Content, b: Content)
    requires Reordered(a, b) && ValidContent(a)
    ensures ValidContent(b)
  {
    UniqueByPermutation(NodeId, a.nodes, b.nodes);
    UniqueByPermutation(EdgeId, a.edges, b.edges);
    UniqueByPermutation(SubsystemName, a.discoveryQuality, b.discoveryQuality);
    SameElements(a.nodes, b.nodes);
    SameElements(a.edges, b.edges);
    hide UniqueBy;
    forall e | e in b.edges ensures HasNode(b.nodes, e.source) && HasNode(b.nodes, e.target) {
      assert e in a.edges;
      var n :| n in a.nodes && n.id == e.source;
      var m :| m in a.nodes && m.id == e.target;
      assert n in b.nodes && m in b.nodes;
    }
  }

  /** Each known subsystem is read at most once. */
  lemma ReadingsUnique(q: seq<DiscoveryQuality>)
    requires UniqueBy(SubsystemName, q)
    ensures UniqueBy(ReadingSubsystem, FilterMap(AsReading, q))
  {
    if q != [] {
      var n := |q| - 1;
      ReadingsUnique(q[..n]);
      FilterMapElements(AsReading, q[..n]);
      if AsReading(q[n]).Some? {
        var front, last := FilterMap(AsReading, q[..n]), AsReading(q[n]).value;
        forall i | 0 <= i < |front| ensures ReadingSubsystem(front[i]) != ReadingSubsystem(last) {
          assert front[i] in front;
          var x :| x in q[..n] && AsReading(x) == Some(front[i]);
          var k :| 0 <= k < n && q[k] == x;
          assert SubsystemName(q[k]) != SubsystemName(q[n]);
          SubsystemNamesDiffer(q[k].subsystem, q[n].subsystem);
        }
      }
    }
  }

  lemma SubsystemNamesDiffer(a: string, b: string)
    requires a != b && SubsystemOf(a).Some? && SubsystemOf(b).Some?
    ensures SubsystemOf(a) != SubsystemOf(b)
  {
  }

  lemma ReorderedMaps(a: Content, b: Content)
    requires Reordered(a, b) && ValidContent(a)
    ensures NodesOf(a) == NodesOf(b) && EdgesOf(a) == EdgesOf(b) && ReadingsOf(a) == ReadingsOf(b)
  {
    AssociateByPermutation(NodeId, a.nodes, b.nodes);
    AssociateByPermutation(EdgeId, a.edges, b.edges);
    FilterMapPermutation(AsReading, a.discoveryQuality, b.discoveryQuality);
    ReadingsUnique(a.discoveryQuality);
    hide FilterMap, AssociateBy, UniqueBy, EndpointsExist;
    AssociateByPermutation(ReadingSubsystem, FilterMap(AsReading, a.discoveryQuality), FilterMap(AsReading, b.discoveryQuality));
  }

  // ----- the lists -----

  lemma NodeChangesSeparated(p: Content, c: Content)
    requires ValidContent(p) && ValidContent(c)
    ensures TotalPreorder(NodeChangeLe)
    ensures Separates(NodeChangeLe, FoundNodeChanges(p, c))
  {
    KeysLeOrder();
    hide KeysLe;
    var found := FoundNodeChanges(p, c);
    hide FoundNodeChanges;
    forall x, y | x in found && y in found && NodeChangeLe(x, y) && NodeChangeLe(y, x) ensures x == y {
      var k, l := [KindRank(x.kind), x.nodeType, x.nodeId], [KindRank(y.kind), y.nodeType, y.nodeId];
      assert k == l;
      assert k[0] == l[0] && k[2] == l[2];
      KindRankInjective(x.kind, y.kind);
      SameChange(p, c, x, y);
    }
  }

  /** The node that a found change is about. */
  lemma FoundNodeChange(p: Content, c: Content, x: NodeChange) returns (n: SnapshotNode)
    requires x in FoundNodeChanges(p, c)
    ensures n.id == x.nodeId && n in (if x.kind == ADDED then c.nodes else p.nodes)
    ensures x.kind == ADDED ==> Added(NodesOf(p), ReadingsOf(p))(n) == Some(x)
    ensures x.kind == REMOVED ==> Removed(NodesOf(c), ReadingsOf(c))(n) == Some(x)
    ensures x.kind == MODIFIED ==> Modified(NodesOf(c), ReadingsOf(c))(n) == Some(x)
  {
    AssociateByKeys(NodeId, c.nodes);
    var f, g, h := Added(NodesOf(p), ReadingsOf(p)), Removed(NodesOf(c), ReadingsOf(c)), Modified(NodesOf(c), ReadingsOf(c));
    hide Required, Incomplete, ReadingsOf, AssociateBy, FilterMap, FieldChanges;
    FilterMapElements(f, c.nodes);
    FilterMapElements(g, p.nodes);
    FilterMapElements(h, p.nodes);
    if x in FilterMap(f, c.nodes) {
      n :| n in c.nodes && f(n) == Some(x);
    } else if x in FilterMap(g, p.nodes) {
      n :| n in p.nodes && g(n) == Some(x);
    } else {
      n :| n in p.nodes && h(n) == Some(x);
    }
  }

  lemma KindRankInjective(a: NodeChangeKind, b: NodeChangeKind)
    requires KindRank(a) == KindRank(b)
    ensures a == b
  {
    assert KindRank(a)[0] == KindRank(b)[0];
  }

  lemma SameNode(nodes: seq<SnapshotNode>, n: SnapshotNode, m: SnapshotNode)
    requires UniqueBy(NodeId, nodes) && n in nodes && m in nodes && n.id == m.id
    ensures n == m
  {
    UniqueByDistinct(NodeId, nodes);
  }

  lemma SameChange(p: Content, c: Content, x: NodeChange, y: NodeChange)
    requires ValidContent(p) && ValidContent(c)
    requires x in FoundNodeChanges(p, c) && y in FoundNodeChanges(p, c)
    requires x.kind == y.kind && x.nodeId == y.nodeId
    ensures x == y
  {
    hide UniqueBy, FoundNodeChanges, ReadingsOf, NodesOf, Added, Removed, Modified;
    var n := FoundNodeChange(p, c, x);
    var m := FoundNodeChange(p, c, y);
    SameNode(if x.kind == ADDED then c.nodes else p.nodes, n, m);
  }

  lemma EdgeChangesSeparated(p: Content, c: Content)
    requires ValidContent(p) && ValidContent(c)
    ensures TotalPreorder(RelationshipChangeLe)
    ensures Separates(RelationshipChangeLe, FoundRelationshipChanges(p, c))
  {
    KeysLeOrder();
    hide KeysLe;
    var found := FoundRelationshipChanges(p, c);
    hide FoundRelationshipChanges;
    forall x, y | x in found && y in found && RelationshipChangeLe(x, y) && RelationshipChangeLe(y, x) ensures x == y {
      var k, l := [RelationshipRank(x.kind), x.edge.relation, x.edge.id], [RelationshipRank(y.kind), y.edge.relation, y.edge.id];
      assert k == l;
      assert k[0] == l[0] && k[2] == l[2];
      SameEdgeChange(p, c, x, y);
    }
  }

  lemma FoundEdgeChange(p: Content, c: Content, x: RelationshipChange)
    requires x in FoundRelationshipChanges(p, c)
    ensures x.kind == RELATIONSHIP_ADDED ==> x.edge in c.edges && EdgeAdded(EdgesOf(p), NodesOf(c), ReadingsOf(p))(x.edge) == Some(x)
    ensures x.kind == RELATIONSHIP_REMOVED ==> x.edge in p.edges && EdgeRemoved(EdgesOf(c), NodesOf(p), ReadingsOf(c))(x.edge) == Some(x)
  {
    hide RequiredByEdge, Incomplete, ReadingsOf, AssociateBy, FilterMap;
    FilterMapElements(EdgeAdded(EdgesOf(p), NodesOf(c), ReadingsOf(p)), c.edges);
    FilterMapElements(EdgeRemoved(EdgesOf(c), NodesOf(p), ReadingsOf(c)), p.edges);
  }

  lemma SameEdgeChange(p: Content, c: Content, x: RelationshipChange, y: RelationshipChange)
    requires ValidContent(p) && ValidContent(c)
    requires x in FoundRelationshipChanges(p, c) && y in FoundRelationshipChanges(p, c)
    requires RelationshipRank(x.kind) == RelationshipRank(y.kind) && x.edge.id == y.edge.id
    ensures x == y
  {
    UniqueByDistinct(EdgeId, p.edges);
    UniqueByDistinct(EdgeId, c.edges);
    FoundEdgeChange(p, c, x);
    FoundEdgeChange(p, c, y);
    hide FoundRelationshipChanges, ReadingsOf, NodesOf, EdgesOf, ValidContent, EdgeAdded, EdgeRemoved;
    assert x.kind == y.kind;
  }

  lemma MultisetAppend<T>(a: seq<T>, b: seq<T>, x: seq<T>, y: seq<T>)
    requires multiset(a) == multiset(x) && multiset(b) == multiset(y)
    ensures multiset(a + b) == multiset(x + y)
  {
  }

  lemma ReorderedNodeChanges(p: Content, q: Content, c: Content, d: Content)
    requires Reordered(p, q) && Reordered(c, d) && ValidContent(p) && ValidContent(c)
    ensures SortBy(NodeChangeLe, FoundNodeChanges(p, c)) == SortBy(NodeChangeLe, FoundNodeChanges(q, d))
  {
    ReorderedMaps(p, q);
    ReorderedMaps(c, d);
    NodeChangesSeparated(p, c);
    var f, g, h := Added(NodesOf(p), ReadingsOf(p)), Removed(NodesOf(c), ReadingsOf(c)), Modified(NodesOf(c), ReadingsOf(c));
    FilterMapPermutation(f, c.nodes, d.nodes);
    FilterMapPermutation(g, p.nodes, q.nodes);
    FilterMapPermutation(h, p.nodes, q.nodes);
    hide NodesOf, ReadingsOf, FilterMap, SortBy, NodeChangeLe, ValidContent, Added, Removed, Modified;
    MultisetAppend(FilterMap(f, c.nodes), FilterMap(g, p.nodes), FilterMap(f, d.nodes), FilterMap(g, q.nodes));
    MultisetAppend(FilterMap(f, c.nodes) + FilterMap(g, p.nodes), FilterMap(h, p.nodes),
      FilterMap(f, d.nodes) + FilterMap(g, q.nodes), FilterMap(h, q.nodes));
    SortByCanonical(NodeChangeLe, FoundNodeChanges(p, c), FoundNodeChanges(q, d));
  }

  lemma ReorderedEdgeChanges(p: Content, q: Content, c: Content, d: Content)
    requires Reordered(p, q) && Reordered(c, d) && ValidContent(p) && ValidContent(c)
    ensures SortBy(RelationshipChangeLe, FoundRelationshipChanges(p, c)) ==
      SortBy(RelationshipChangeLe, FoundRelationshipChanges(q, d))
  {
    ReorderedMaps(p, q);
    ReorderedMaps(c, d);
    EdgeChangesSeparated(p, c);
    var f, g := EdgeAdded(EdgesOf(p), NodesOf(c), ReadingsOf(p)), EdgeRemoved(EdgesOf(c), NodesOf(p), ReadingsOf(c));
    FilterMapPermutation(f, c.edges, d.edges);
    FilterMapPermutation(g, p.edges, q.edges);
    hide NodesOf, EdgesOf, ReadingsOf, FilterMap, SortBy, RelationshipChangeLe, ValidContent, EdgeAdded, EdgeRemoved;
    MultisetAppend(FilterMap(f, c.edges), FilterMap(g, p.edges), FilterMap(f, d.edges), FilterMap(g, q.edges));
    SortByCanonical(RelationshipChangeLe, FoundRelationshipChanges(p, c), FoundRelationshipChanges(q, d));
  }

  lemma {:induction false} DoubtsMember(needs: seq<set<DiffSubsystem>>, previous: Readings, k: UncertaintyKey)
    ensures k in Doubts(needs, previous) <==>
      exists r :: r in needs && k in KeysFor(Incomplete(r, previous), PREVIOUS_DISCOVERY_INCOMPLETE)
  {
    hide KeysFor, Incomplete;
    if needs != [] {
      var front, last := needs[..|needs| - 1], needs[|needs| - 1];
      assert needs == front + [last];
      DoubtsMember(front, previous, k);
    }
  }

  lemma ReorderedDoubts<T>(f: T -> Option<set<DiffSubsystem>>, s: seq<T>, t: seq<T>, previous: Readings)
    requires multiset(s) == multiset(t)
    ensures Doubts(FilterMap(f, s), previous) == Doubts(FilterMap(f, t), previous)
  {
    FilterMapPermutation(f, s, t);
    var a, b := FilterMap(f, s), FilterMap(f, t);
    hide FilterMap, Doubts, KeysFor, Incomplete;
    SameElements(a, b);
    forall k ensures k in Doubts(a, previous) <==> k in Doubts(b, previous) {
      DoubtsMember(a, previous, k);
      DoubtsMember(b, previous, k);
    }
  }

  lemma ReorderedUncertainties(p: Content, q: Content, c: Content, d: Content)
    requires Reordered(p, q) && Reordered(c, d) && ValidContent(p) && ValidContent(c)
    ensures FoundUncertainties(p, c) == FoundUncertainties(q, d)
  {
    ReorderedMaps(p, q);
    ReorderedMaps(c, d);
    ReorderedDoubts(AddedNeeds(NodesOf(p)), c.nodes, d.nodes, ReadingsOf(p));
    ReorderedDoubts(EdgeAddedNeeds(EdgesOf(p), NodesOf(c)), c.edges, d.edges, ReadingsOf(p));
    hide NodesOf, EdgesOf, ReadingsOf, FilterMap, Doubts, KeysFor, Incomplete, ValidContent;
  }

  ghost predicate ReorderedSnapshot(a: Snapshot, b: Snapshot) {
    Reordered(a.content, b.content) && b == a.(content := b.content)
  }

  lemma FullDiffIgnoresOrder(p: Snapshot, q: Snapshot, c: Snapshot, d: Snapshot)
    requires ReorderedSnapshot(p, q) && ReorderedSnapshot(c, d)
    requires ValidContent(p.content) && ValidContent(c.content)
    ensures FullDiff(p, c) == FullDiff(q, d)
  {
    ReorderedNodeChanges(p.content, q.content, c.content, d.content);
    ReorderedEdgeChanges(p.content, q.content, c.content, d.content);
    ReorderedUncertainties(p.content, q.content, c.content, d.content);
    hide ValidContent, Reordered, SortBy, FoundNodeChanges, FoundRelationshipChanges, FoundUncertainties, OrderedUncertainties, Count;
  }

  lemma ReorderedValidity(a: Content, b: Content)
    requires Reordered(a, b)
    ensures ValidContent(a) <==> ValidContent(b)
  {
    if ValidContent(a) { ReorderedValid(a, b); }
    if ValidContent(b) { ReorderedValid(b, a); }
  }

  /** Reordering the nodes, edges and quality entries of both snapshots leaves the whole result unchanged. */
  lemma CompareIgnoresOrder(p: Snapshot, q: Snapshot, c: Snapshot, d: Snapshot)
    requires ReorderedSnapshot(p, q) && ReorderedSnapshot(c, d)
    ensures Compare(Some(p), c) == Compare(Some(q), d)
    ensures Compare(None, c) == Compare(None, d)
  {
    ReorderedValidity(p.content, q.content);
    ReorderedValidity(c.content, d.content);
    if ValidContent(p.content) && ValidContent(c.content) { FullDiffIgnoresOrder(p, q, c, d); }
    hide ValidContent, Reordered, FullDiff;
  }
}

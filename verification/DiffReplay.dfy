/** A diff as a patch: replaying it, turning it around, and what better discovery changes in it. */
module DiffReplay {
  import opened Ordering
  import opened Collections
  import opened Snapshots
  import opened DiffEngine
  import opened DiffMeaning
  import opened DiffOrder

  // ----- the field changes of one node -----

  const FieldOf := (f: FieldChange) => f.field

  function UnsortedFields(before: SnapshotNode, after: SnapshotNode, r: Readings): seq<FieldChange> {
    TypeChange(before, after) + LabelChange(before, after)
      + FilterMap(MetadataChange(before, after, r), SortedSet(before.metadata.Keys + after.metadata.Keys))
  }

  lemma MetadataChangeFacts(before: SnapshotNode, after: SnapshotNode, r: Readings, key: string)
    ensures var change := MetadataChange(before, after, r)(key);
      change.Some? ==>
        && change.value == FieldChange(MetadataField(key), Value(before.metadata, key), Value(after.metadata, key))
        && key in before.metadata.Keys + after.metadata.Keys
  {
    hide Required, FieldSubsystems, Incomplete, IsQualityKey;
  }

  lemma MetadataMember(before: SnapshotNode, after: SnapshotNode, r: Readings, f: FieldChange)
    ensures f in FilterMap(MetadataChange(before, after, r), SortedSet(before.metadata.Keys + after.metadata.Keys)) <==>
      f.field.MetadataField? && MetadataChange(before, after, r)(f.field.key) == Some(f)
  {
    hide MetadataChange, FilterMap, SortedSet;
    var change, keys := MetadataChange(before, after, r), SortedSet(before.metadata.Keys + after.metadata.Keys);
    FilterMapElements(change, keys);
    if f in FilterMap(change, keys) {
      var k :| k in keys && change(k) == Some(f);
      MetadataChangeFacts(before, after, r, k);
    }
    if f.field.MetadataField? && change(f.field.key) == Some(f) {
      MetadataChangeFacts(before, after, r, f.field.key);
    }
  }

  lemma FieldMember(before: SnapshotNode, after: SnapshotNode, r: Readings, f: FieldChange)
    ensures f in FieldChanges(before, after, r) <==>
      match f.field
      case TypeField => f in TypeChange(before, after)
      case LabelField => f in LabelChange(before, after)
      case MetadataField(key) => MetadataChange(before, after, r)(key) == Some(f)
  {
    SortByElements(FieldLe, UnsortedFields(before, after, r));
    MetadataMember(before, after, r, f);
    hide MetadataChange, FilterMap, SortBy, FieldLe;
  }

  lemma UniqueConcat(a: seq<FieldChange>, b: seq<FieldChange>)
    requires UniqueBy(FieldOf, a) && UniqueBy(FieldOf, b)
    requires forall x, y :: x in a && y in b ==> x.field != y.field
    ensures UniqueBy(FieldOf, a + b)
  {
    var c := a + b;
    forall i, j | 0 <= i < j < |c| ensures FieldOf(c[i]) != FieldOf(c[j]) {
      if i < |a| <= j { assert a[i] in a && b[j - |a|] in b; }
    }
  }

  lemma HeadsUnique(before: SnapshotNode, after: SnapshotNode)
    ensures var heads := TypeChange(before, after) + LabelChange(before, after);
      UniqueBy(FieldOf, heads) && forall f :: f in heads ==> !f.field.MetadataField?
  {
  }

  /** No field is reported twice. */
  lemma FieldsUnique(before: SnapshotNode, after: SnapshotNode, r: Readings)
    ensures UniqueBy(FieldOf, FieldChanges(before, after, r))
  {
    var keys := SortedSet(before.metadata.Keys + after.metadata.Keys);
    SortedSetDistinct(before.metadata.Keys + after.metadata.Keys);
    MetadataFieldsUnique(before, after, r, keys);
    var metadata := FilterMap(MetadataChange(before, after, r), keys);
    forall f | f in metadata ensures f.field.MetadataField? { MetadataMember(before, after, r, f); }
    HeadsUnique(before, after);
    hide MetadataChange, FilterMap, SortBy, FieldLe, TypeChange, LabelChange, SortedSet, UniqueBy;
    UniqueConcat(TypeChange(before, after) + LabelChange(before, after), metadata);
    UniqueByPermutation(FieldOf, UnsortedFields(before, after, r), FieldChanges(before, after, r));
  }

  lemma {:induction false} MetadataFieldsUnique(before: SnapshotNode, after: SnapshotNode, r: Readings, keys: seq<string>)
    requires Distinct(keys)
    ensures UniqueBy(FieldOf, FilterMap(MetadataChange(before, after, r), keys))
  {
    hide MetadataChange;
    if keys != [] {
      var n := |keys| - 1;
      var change := MetadataChange(before, after, r);
      MetadataFieldsUnique(before, after, r, keys[..n]);
      FilterMapElements(change, keys[..n]);
      if change(keys[n]).Some? {
        MetadataChangeFacts(before, after, r, keys[n]);
        var front := FilterMap(change, keys[..n]);
        forall i | 0 <= i < |front| ensures FieldOf(front[i]) != MetadataField(keys[n]) {
          assert front[i] in front;
          var k :| k in keys[..n] && change(k) == Some(front[i]);
          MetadataChangeFacts(before, after, r, k);
        }
      }
    }
  }

  // ----- replaying field changes -----

  function Patch(n: SnapshotNode, f: FieldChange): SnapshotNode {
    match f.field
    case TypeField => if f.after.Some? then n.(nodeType := f.after.value) else n
    case LabelField => if f.after.Some? then n.(title := f.after.value) else n
    case MetadataField(key) =>
      n.(metadata := if f.after.Some? then n.metadata[key := f.after.value] else n.metadata - {key})
  }

  function PatchAll(n: SnapshotNode, fields: seq<FieldChange>): SnapshotNode {
    if fields == [] then n else Patch(PatchAll(n, fields[..|fields| - 1]), fields[|fields| - 1])
  }

  lemma UniqueLast(fields: seq<FieldChange>)
    requires fields != [] && UniqueBy(FieldOf, fields)
    ensures var front, last := fields[..|fields| - 1], fields[|fields| - 1];
      && UniqueBy(FieldOf, front)
      && (forall f :: f in fields <==> f in front || f == last)
      && (forall f :: f in front ==> f.field != last.field)
  {
    var front, last := fields[..|fields| - 1], fields[|fields| - 1];
    assert fields == front + [last];
    forall f | f in front ensures f.field != last.field {
      var i :| 0 <= i < |front| && front[i] == f;
      assert FieldOf(fields[i]) != FieldOf(fields[|fields| - 1]);
    }
  }

  lemma {:induction false} PatchedKey(n: SnapshotNode, fields: seq<FieldChange>, key: string)
    requires UniqueBy(FieldOf, fields)
    ensures forall f :: f in fields && f.field == MetadataField(key) ==> Value(PatchAll(n, fields).metadata, key) == f.after
    ensures (forall f :: f in fields ==> f.field != MetadataField(key)) ==>
      Value(PatchAll(n, fields).metadata, key) == Value(n.metadata, key)
  {
    if fields != [] {
      UniqueLast(fields);
      hide UniqueBy;
      PatchedKey(n, fields[..|fields| - 1], key);
    }
  }

  lemma {:induction false} PatchedType(n: SnapshotNode, fields: seq<FieldChange>)
    requires UniqueBy(FieldOf, fields)
    ensures forall f :: f in fields && f.field == TypeField && f.after.Some? ==> PatchAll(n, fields).nodeType == f.after.value
    ensures (forall f :: f in fields ==> f.field != TypeField) ==> PatchAll(n, fields).nodeType == n.nodeType
  {
    if fields != [] {
      UniqueLast(fields);
      hide UniqueBy;
      PatchedType(n, fields[..|fields| - 1]);
    }
  }

  lemma {:induction false} PatchedTitle(n: SnapshotNode, fields: seq<FieldChange>)
    requires UniqueBy(FieldOf, fields)
    ensures forall f :: f in fields && f.field == LabelField && f.after.Some? ==> PatchAll(n, fields).title == f.after.value
    ensures (forall f :: f in fields ==> f.field != LabelField) ==> PatchAll(n, fields).title == n.title
  {
    if fields != [] {
      UniqueLast(fields);
      hide UniqueBy;
      PatchedTitle(n, fields[..|fields| - 1]);
    }
  }

  /** Agreement of a patched node with the current one, apart from quality keys and the engine label. */
  ghost predicate Rebuilt(before: SnapshotNode, patched: SnapshotNode, after: SnapshotNode) {
    && patched.nodeType == after.nodeType
    && patched.title == (if before.nodeType == "DOCKER_ENGINE" then before.title else after.title)
    && (forall k :: !IsQualityKey(k) ==> Value(patched.metadata, k) == Value(after.metadata, k))
    && (forall k :: IsQualityKey(k) ==> Value(patched.metadata, k) == Value(before.metadata, k))
  }

  /** With complete discovery a metadata change is reported exactly for each changed key outside the quality keys. */
  lemma CompleteReports(before: SnapshotNode, after: SnapshotNode, r: Readings, k: string)
    requires Incomplete(Remote, r) == {}
    ensures MetadataChange(before, after, r)(k).Some? <==>
      !IsQualityKey(k) && Value(before.metadata, k) != Value(after.metadata, k)
  {
    CompleteCoversAll(r, Required(before.nodeType) + Required(after.nodeType));
    CompleteCoversAll(r, FieldSubsystems(after.nodeType, k));
    hide Required, FieldSubsystems, Incomplete, IsQualityKey;
  }

  lemma PatchRebuildsMetadata(before: SnapshotNode, after: SnapshotNode, r: Readings, k: string)
    requires Incomplete(Remote, r) == {}
    ensures Value(PatchAll(before, FieldChanges(before, after, r)).metadata, k) ==
      if IsQualityKey(k) then Value(before.metadata, k) else Value(after.metadata, k)
  {
    hide MetadataChange, FieldChanges, PatchAll, Incomplete, IsQualityKey, UniqueBy;
    var fields := FieldChanges(before, after, r);
    FieldsUnique(before, after, r);
    PatchedKey(before, fields, k);
    CompleteReports(before, after, r, k);
    var change := MetadataChange(before, after, r)(k);
    if change.Some? {
      MetadataChangeFacts(before, after, r, k);
      FieldMember(before, after, r, change.value);
    } else {
      forall f | f in fields ensures f.field != MetadataField(k) { FieldMember(before, after, r, f); }
    }
  }

  lemma PatchRebuildsType(before: SnapshotNode, after: SnapshotNode, r: Readings)
    ensures PatchAll(before, FieldChanges(before, after, r)).nodeType == after.nodeType
  {
    hide MetadataChange, FieldChanges, PatchAll, UniqueBy;
    var fields := FieldChanges(before, after, r);
    FieldsUnique(before, after, r);
    PatchedType(before, fields);
    var t := FieldChange(TypeField, Some(before.nodeType), Some(after.nodeType));
    FieldMember(before, after, r, t);
    forall f | f in fields ensures f.field == TypeField ==> f == t { FieldMember(before, after, r, f); }
  }

  lemma PatchRebuildsTitle(before: SnapshotNode, after: SnapshotNode, r: Readings)
    ensures PatchAll(before, FieldChanges(before, after, r)).title ==
      if before.nodeType == "DOCKER_ENGINE" then before.title else after.title
  {
    hide MetadataChange, FieldChanges, PatchAll, UniqueBy;
    var fields := FieldChanges(before, after, r);
    FieldsUnique(before, after, r);
    PatchedTitle(before, fields);
    var l := FieldChange(LabelField, Some(before.title), Some(after.title));
    FieldMember(before, after, r, l);
    forall f | f in fields ensures f.field == LabelField ==> f == l { FieldMember(before, after, r, f); }
  }

  /** With complete discovery the field changes rebuild the current node from the previous one. */
  lemma PatchRebuilds(before: SnapshotNode, after: SnapshotNode, r: Readings)
    requires Incomplete(Remote, r) == {}
    ensures Rebuilt(before, PatchAll(before, FieldChanges(before, after, r)), after)
  {
    hide FieldChanges, PatchAll, Incomplete, IsQualityKey;
    PatchRebuildsType(before, after, r);
    PatchRebuildsTitle(before, after, r);
    var patched := PatchAll(before, FieldChanges(before, after, r));
    forall k ensures Value(patched.metadata, k) ==
      if IsQualityKey(k) then Value(before.metadata, k) else Value(after.metadata, k)
    {
      PatchRebuildsMetadata(before, after, r, k);
    }
  }

  // ----- replaying the whole diff -----

  ghost function RemovedIds(d: InfrastructureDiff): set<string> {
    set x | x in d.nodeChanges && x.kind == REMOVED :: x.nodeId
  }

  ghost function AddedIds(d: InfrastructureDiff): set<string> {
    set x | x in d.nodeChanges && x.kind == ADDED :: x.nodeId
  }

  ghost function RemovedEdgeIds(d: InfrastructureDiff): set<string> {
    set x | x in d.relationshipChanges && x.kind == RELATIONSHIP_REMOVED :: x.edge.id
  }

  ghost function AddedEdges(d: InfrastructureDiff): set<SnapshotEdge> {
    set x | x in d.relationshipChanges && x.kind == RELATIONSHIP_ADDED :: x.edge
  }

  /** The field changes a diff reports for a node. */
  ghost function FieldsFor(d: InfrastructureDiff, id: string): seq<FieldChange> {
    if exists x :: x in d.nodeChanges && x.kind == MODIFIED && x.nodeId == id then
      var x :| x in d.nodeChanges && x.kind == MODIFIED && x.nodeId == id;
      x.fields
    else []
  }

  lemma PublishedNode(p: Snapshot, c: Snapshot, x: NodeChange)
    ensures x in FullDiff(p, c).nodeChanges <==> x in FoundNodeChanges(p.content, c.content)
  {
    SortByElements(NodeChangeLe, FoundNodeChanges(p.content, c.content));
    hide SortBy, FoundNodeChanges, FoundRelationshipChanges, FoundUncertainties, OrderedUncertainties, Count;
  }

  lemma PublishedEdge(p: Snapshot, c: Snapshot, x: RelationshipChange)
    ensures x in FullDiff(p, c).relationshipChanges <==> x in FoundRelationshipChanges(p.content, c.content)
  {
    SortByElements(RelationshipChangeLe, FoundRelationshipChanges(p.content, c.content));
    hide SortBy, FoundNodeChanges, FoundRelationshipChanges, FoundUncertainties, OrderedUncertainties, Count;
  }

  /** An addition is published exactly for each node that only the current snapshot lists. */
  lemma AddedPublished(p: Content, c: Content, n: SnapshotNode)
    requires n in c.nodes && n.id !in NodesOf(p)
    ensures ChangeOf(ADDED, AdditionEvidence(Required(n.nodeType), ReadingsOf(p)), n, []) in FoundNodeChanges(p, c)
  {
    hide AssociateBy, Required, Incomplete, ReadingsOf, FilterMap;
    FilterMapElements(Added(NodesOf(p), ReadingsOf(p)), c.nodes);
    assert Added(NodesOf(p), ReadingsOf(p))(n).Some?;
  }

  lemma RemovedPublished(p: Content, c: Content, n: SnapshotNode)
    requires n in p.nodes && n.id !in NodesOf(c)
    ensures ChangeOf(REMOVED, RemovalEvidence(Required(n.nodeType), ReadingsOf(c)), n, []) in FoundNodeChanges(p, c)
  {
    hide AssociateBy, Required, Incomplete, ReadingsOf, FilterMap;
    FilterMapElements(Removed(NodesOf(c), ReadingsOf(c)), p.nodes);
    assert Removed(NodesOf(c), ReadingsOf(c))(n).Some?;
  }

  lemma ModifiedPublished(p: Content, c: Content, n: SnapshotNode)
    requires n in p.nodes && n.id in NodesOf(c) && FieldChanges(n, NodesOf(c)[n.id], ReadingsOf(c)) != []
    ensures ChangeOf(MODIFIED, CONFIRMED, NodesOf(c)[n.id], FieldChanges(n, NodesOf(c)[n.id], ReadingsOf(c))) in FoundNodeChanges(p, c)
  {
    hide AssociateBy, FieldChanges, ReadingsOf, FilterMap;
    FilterMapElements(Modified(NodesOf(c), ReadingsOf(c)), p.nodes);
    assert Modified(NodesOf(c), ReadingsOf(c))(n).Some?;
  }

  /** What a found change says about the identifier it names. */
  lemma FoundSides(p: Content, c: Content, x: NodeChange)
    requires x in FoundNodeChanges(p, c)
    ensures x.kind == ADDED ==> x.nodeId in NodesOf(c) && x.nodeId !in NodesOf(p)
    ensures x.kind == REMOVED ==> x.nodeId in NodesOf(p) && x.nodeId !in NodesOf(c)
    ensures x.kind == MODIFIED ==> x.nodeId in NodesOf(p) && x.nodeId in NodesOf(c)
  {
    AssociateByKeys(NodeId, p.nodes);
    AssociateByKeys(NodeId, c.nodes);
    hide FoundNodeChanges, Required, Incomplete, ReadingsOf, FieldChanges, AssociateBy;
    var n := FoundNodeChange(p, c, x);
    assert NodeId(n) == x.nodeId;
  }

  lemma AddedIdsExact(p: Snapshot, c: Snapshot)
    ensures AddedIds(FullDiff(p, c)) == NodesOf(c.content).Keys - NodesOf(p.content).Keys
  {
    var d := FullDiff(p, c);
    var before, after := NodesOf(p.content), NodesOf(c.content);
    AssociateByKeys(NodeId, c.content.nodes);
    hide FullDiff, AssociateBy, FoundNodeChanges, Required, Incomplete, ReadingsOf;
    forall x | x in d.nodeChanges && x.kind == ADDED ensures x.nodeId in after.Keys - before.Keys {
      PublishedNode(p, c, x);
      FoundSides(p.content, c.content, x);
    }
    forall id | id in after.Keys - before.Keys ensures id in AddedIds(d) {
      var n := after[id];
      var x := ChangeOf(ADDED, AdditionEvidence(Required(n.nodeType), ReadingsOf(p.content)), n, []);
      AddedPublished(p.content, c.content, n);
      PublishedNode(p, c, x);
      assert x.nodeId == id;
    }
  }

  lemma RemovedIdsExact(p: Snapshot, c: Snapshot)
    ensures RemovedIds(FullDiff(p, c)) == NodesOf(p.content).Keys - NodesOf(c.content).Keys
  {
    var d := FullDiff(p, c);
    var before, after := NodesOf(p.content), NodesOf(c.content);
    AssociateByKeys(NodeId, p.content.nodes);
    hide FullDiff, AssociateBy, FoundNodeChanges, Required, Incomplete, ReadingsOf;
    forall x | x in d.nodeChanges && x.kind == REMOVED ensures x.nodeId in before.Keys - after.Keys {
      PublishedNode(p, c, x);
      FoundSides(p.content, c.content, x);
    }
    forall id | id in before.Keys - after.Keys ensures id in RemovedIds(d) {
      var n := before[id];
      var x := ChangeOf(REMOVED, RemovalEvidence(Required(n.nodeType), ReadingsOf(c.content)), n, []);
      RemovedPublished(p.content, c.content, n);
      PublishedNode(p, c, x);
      assert x.nodeId == id;
    }
  }

  lemma ModifiedFields(p: Content, c: Content, x: NodeChange)
    requires ValidContent(p) && x in FoundNodeChanges(p, c) && x.kind == MODIFIED
    ensures x.nodeId in NodesOf(p) && x.nodeId in NodesOf(c)
    ensures x.fields == FieldChanges(NodesOf(p)[x.nodeId], NodesOf(c)[x.nodeId], ReadingsOf(c))
  {
    AssociateByValues(NodeId, p.nodes);
    FoundSides(p, c, x);
    hide FoundNodeChanges, AssociateBy, FieldChanges, ReadingsOf;
    var n := FoundNodeChange(p, c, x);
    assert NodesOf(p)[NodeId(n)] == n;
  }

  lemma FieldsForShared(p: Snapshot, c: Snapshot, id: string)
    requires ValidContent(p.content) && ValidContent(c.content)
    requires id in NodesOf(p.content) && id in NodesOf(c.content)
    ensures FieldsFor(FullDiff(p, c), id) ==
      FieldChanges(NodesOf(p.content)[id], NodesOf(c.content)[id], ReadingsOf(c.content))
  {
    hide FullDiff, FoundNodeChanges, FieldChanges, ReadingsOf, ValidContent, NodesOf;
    var d := FullDiff(p, c);
    var n, m := NodesOf(p.content)[id], NodesOf(c.content)[id];
    var fields := FieldChanges(n, m, ReadingsOf(c.content));
    ListedNode(p.content, id);
    ListedNode(c.content, id);
    forall x | x in d.nodeChanges && x.kind == MODIFIED && x.nodeId == id ensures x.fields == fields {
      PublishedNode(p, c, x);
      ModifiedFields(p.content, c.content, x);
    }
    if fields != [] {
      var x := ChangeOf(MODIFIED, CONFIRMED, m, fields);
      ModifiedPublished(p.content, c.content, n);
      PublishedNode(p, c, x);
      assert x in d.nodeChanges && x.kind == MODIFIED && x.nodeId == id;
    }
  }

  lemma ListedNode(c: Content, id: string)
    requires id in NodesOf(c)
    ensures NodesOf(c)[id] in c.nodes && NodesOf(c)[id].id == id
  {
    AssociateByKeys(NodeId, c.nodes);
  }

  /**
    Replay: the additions and removals turn the previous identifiers into the current ones, and with
    complete current discovery the reported fields rebuild every shared node.
   */
  lemma ReplayRebuilds(p: Snapshot, c: Snapshot)
    requires ValidContent(p.content) && ValidContent(c.content)
    ensures var d := FullDiff(p, c);
      var before, after := NodesOf(p.content), NodesOf(c.content);
      && before.Keys - RemovedIds(d) + AddedIds(d) == after.Keys
      && (CurrentComplete(c.content) ==> forall id :: id in before && id in after ==>
            Rebuilt(before[id], PatchAll(before[id], FieldsFor(d, id)), after[id]))
  {
    hide FullDiff, NodesOf, ReadingsOf, Incomplete, FieldsFor, PatchAll, FieldChanges, ValidContent, Rebuilt, AddedIds, RemovedIds;
    AddedIdsExact(p, c);
    RemovedIdsExact(p, c);
    var before, after := NodesOf(p.content), NodesOf(c.content);
    if CurrentComplete(c.content) {
      forall id | id in before && id in after
        ensures Rebuilt(before[id], PatchAll(before[id], FieldsFor(FullDiff(p, c), id)), after[id])
      {
        FieldsForShared(p, c, id);
        PatchRebuilds(before[id], after[id], ReadingsOf(c.content));
      }
    }
  }

  /** The same for edge identifiers; added edges come back field by field. */
  lemma ReplayEdges(p: Snapshot, c: Snapshot)
    requires ValidContent(p.content) && ValidContent(c.content)
    ensures var d := FullDiff(p, c);
      && RemovedEdgeIds(d) == EdgesOf(p.content).Keys - EdgesOf(c.content).Keys
      && AddedEdges(d) == set e | e in c.content.edges && e.id !in EdgesOf(p.content)
  {
    var d := FullDiff(p, c);
    var before, after := EdgesOf(p.content), EdgesOf(c.content);
    AssociateByKeys(EdgeId, p.content.edges);
    hide FullDiff, AssociateBy, FoundRelationshipChanges, RequiredByEdge, Incomplete, ReadingsOf, NodesOf, ValidContent;
    forall x | x in d.relationshipChanges
      ensures x.kind == RELATIONSHIP_ADDED ==> x.edge in c.content.edges && x.edge.id !in before
      ensures x.kind == RELATIONSHIP_REMOVED ==> x.edge.id in before.Keys - after.Keys
    {
      PublishedEdge(p, c, x);
      FoundEdgeChange(p.content, c.content, x);
      assert EdgeId(x.edge) == x.edge.id;
    }
    forall e | e in c.content.edges && e.id !in before ensures e in AddedEdges(d) {
      var x := RelationshipChange(RELATIONSHIP_ADDED, AdditionEvidence(RequiredByEdge(e, NodesOf(c.content)), ReadingsOf(p.content)), e);
      EdgeAddedPublished(p.content, c.content, e);
      PublishedEdge(p, c, x);
      assert x.edge == e;
    }
    forall id | id in before.Keys - after.Keys ensures id in RemovedEdgeIds(d) {
      var e := before[id];
      var x := RelationshipChange(RELATIONSHIP_REMOVED, RemovalEvidence(RequiredByEdge(e, NodesOf(p.content)), ReadingsOf(c.content)), e);
      EdgeRemovedPublished(p.content, c.content, e);
      PublishedEdge(p, c, x);
      assert x.edge.id == id;
    }
  }

  lemma EdgeAddedPublished(p: Content, c: Content, e: SnapshotEdge)
    requires e in c.edges && e.id !in EdgesOf(p)
    ensures RelationshipChange(RELATIONSHIP_ADDED, AdditionEvidence(RequiredByEdge(e, NodesOf(c)), ReadingsOf(p)), e)
      in FoundRelationshipChanges(p, c)
  {
    hide AssociateBy, RequiredByEdge, Incomplete, ReadingsOf, FilterMap;
    FilterMapElements(EdgeAdded(EdgesOf(p), NodesOf(c), ReadingsOf(p)), c.edges);
    assert EdgeAdded(EdgesOf(p), NodesOf(c), ReadingsOf(p))(e).Some?;
  }

  lemma EdgeRemovedPublished(p: Content, c: Content, e: SnapshotEdge)
    requires e in p.edges && e.id !in EdgesOf(c)
    ensures RelationshipChange(RELATIONSHIP_REMOVED, RemovalEvidence(RequiredByEdge(e, NodesOf(p)), ReadingsOf(c)), e)
      in FoundRelationshipChanges(p, c)
  {
    hide AssociateBy, RequiredByEdge, Incomplete, ReadingsOf, FilterMap;
    FilterMapElements(EdgeRemoved(EdgesOf(c), NodesOf(p), ReadingsOf(c)), p.edges);
    assert EdgeRemoved(EdgesOf(c), NodesOf(p), ReadingsOf(c))(e).Some?;
  }

  /** The previous edges without the removed ones, and the added ones. */
  ghost function ReplayedEdges(p: Snapshot, d: InfrastructureDiff): set<SnapshotEdge> {
    (set e | e in p.content.edges && e.id !in RemovedEdgeIds(d)) + AddedEdges(d)
  }

  /** No edge differs between the two snapshots under one identifier. */
  ghost predicate EdgesKeepIds(p: Content, c: Content) {
    forall e, f :: e in p.edges && f in c.edges && e.id == f.id ==> e == f
  }

  lemma ReplayedMember(p: Snapshot, c: Snapshot, e: SnapshotEdge)
    requires ValidContent(p.content) && ValidContent(c.content)
    ensures e in ReplayedEdges(p, FullDiff(p, c)) <==>
      || (e in p.content.edges && e.id in EdgesOf(c.content))
      || (e in c.content.edges && e.id !in EdgesOf(p.content))
  {
    ReplayEdges(p, c);
    hide FullDiff, AddedEdges, RemovedEdgeIds, ValidContent;
    if e in p.content.edges { ListedEdge(p.content, e); }
    hide EdgesOf;
  }

  /** Replaying the relationship changes gives back the current edges, field by field, exactly when no edge changed under its identifier. */
  lemma ReplayEdgesExactly(p: Snapshot, c: Snapshot)
    requires ValidContent(p.content) && ValidContent(c.content)
    ensures ReplayedEdges(p, FullDiff(p, c)) == Elems(c.content.edges) <==> EdgesKeepIds(p.content, c.content)
  {
    hide FullDiff, EdgesOf, ReplayedEdges, ValidContent;
    var there := ReplayedEdges(p, FullDiff(p, c));
    if EdgesKeepIds(p.content, c.content) {
      forall e ensures e in there <==> e in c.content.edges { ReplayedListed(p, c, e); }
    } else {
      var e, f :| e in p.content.edges && f in c.content.edges && e.id == f.id && e != f;
      ReplayedMember(p, c, e);
      ListedEdge(c.content, f);
      if e in c.content.edges { ListedEdge(c.content, e); }
    }
  }

  lemma ReplayedListed(p: Snapshot, c: Snapshot, e: SnapshotEdge)
    requires ValidContent(p.content) && ValidContent(c.content) && EdgesKeepIds(p.content, c.content)
    ensures e in ReplayedEdges(p, FullDiff(p, c)) <==> e in c.content.edges
  {
    hide FullDiff, EdgesOf, ReplayedEdges, ValidContent;
    ReplayedMember(p, c, e);
    if e.id in EdgesOf(c.content) { ListedEdgeId(c.content, e.id); }
    if e.id in EdgesOf(p.content) { ListedEdgeId(p.content, e.id); }
    if e in c.content.edges { ListedEdge(c.content, e); }
  }

  lemma ListedEdge(c: Content, e: SnapshotEdge)
    requires ValidContent(c) && e in c.edges
    ensures e.id in EdgesOf(c) && EdgesOf(c)[e.id] == e
  {
    AssociateByValues(EdgeId, c.edges);
    hide AssociateBy, EndpointsExist;
    assert EdgeId(e) == e.id;
  }

  lemma ListedEdgeId(c: Content, id: string)
    requires id in EdgesOf(c)
    ensures EdgesOf(c)[id] in c.edges && EdgesOf(c)[id].id == id
  {
    AssociateByKeys(EdgeId, c.edges);
  }

  /** An edge that changed under its identifier is not reported, and the replay holds on to the old one. */
  lemma ChangedEdgeStays(p: Snapshot, c: Snapshot, e: SnapshotEdge, f: SnapshotEdge)
    requires ValidContent(p.content) && ValidContent(c.content)
    requires e in p.content.edges && f in c.content.edges && e.id == f.id && e != f
    ensures e in ReplayedEdges(p, FullDiff(p, c)) && f !in ReplayedEdges(p, FullDiff(p, c))
    ensures forall x :: x in FullDiff(p, c).relationshipChanges ==> x.edge.id != e.id
  {
    hide FullDiff, EdgesOf, ReplayedEdges, ValidContent, FoundRelationshipChanges;
    ReplayedMember(p, c, e);
    ReplayedMember(p, c, f);
    ListedEdge(p.content, e);
    ListedEdge(c.content, f);
    if f in p.content.edges { ListedEdge(p.content, f); }
    forall x | x in FullDiff(p, c).relationshipChanges ensures x.edge.id != e.id {
      PublishedEdge(p, c, x);
      ChangedEdgeSide(p.content, c.content, x);
    }
  }

  lemma ChangedEdgeSide(p: Content, c: Content, x: RelationshipChange)
    requires ValidContent(p) && ValidContent(c) && x in FoundRelationshipChanges(p, c)
    ensures !(x.edge.id in EdgesOf(p) && x.edge.id in EdgesOf(c))
  {
    FoundEdgeChange(p, c, x);
    hide EdgesOf, FoundRelationshipChanges;
  }

  function Looped(relation: string): Content {
    Content([SnapshotNode("n", "n", "SERVER", map[])], [SnapshotEdge("e", "n", "n", relation)], [])
  }

  /** Two valid snapshots whose one edge changed its relation under its identifier. */
  lemma ChangedEdgeExample() returns (p: Snapshot, c: Snapshot)
    ensures ValidContent(p.content) && ValidContent(c.content) && c.content.edges != []
    ensures ReplayedEdges(p, FullDiff(p, c)) !! Elems(c.content.edges)
  {
    p := Snapshot(SNAPSHOT_SCHEMA_VERSION, "a", "s", 0, FingerprintOf(Looped("RUNS")), Looped("RUNS"));
    c := Snapshot(SNAPSHOT_SCHEMA_VERSION, "b", "s", 0, FingerprintOf(Looped("MOUNTS")), Looped("MOUNTS"));
    LoopedValid("RUNS");
    LoopedValid("MOUNTS");
    var e, f := p.content.edges[0], c.content.edges[0];
    assert |"RUNS"| != |"MOUNTS"|;
    hide FullDiff, ReplayedEdges, ValidContent;
    ChangedEdgeStays(p, c, e, f);
  }

  lemma LoopedValid(relation: string)
    ensures ValidContent(Looped(relation))
  {
    assert Looped(relation).nodes[0] in Looped(relation).nodes;
  }
}

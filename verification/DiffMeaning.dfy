/** What the status of a full comparison means, and how it relates to the equal-fingerprint shortcut. */
module DiffMeaning {
  import opened Ordering
  import opened Collections
  import opened Snapshots
  import opened DiffEngine
  import opened DiffAccounting

  // ----- members of the change lists -----

  /** Everything that is on the published node list, and why. */
  lemma NodeChangeMember(p: Content, c: Content, x: NodeChange)
    ensures x in SortBy(NodeChangeLe, FoundNodeChanges(p, c)) <==>
      || (exists n :: n in c.nodes && Added(NodesOf(p), ReadingsOf(p))(n) == Some(x))
      || (exists n :: n in p.nodes && Removed(NodesOf(c), ReadingsOf(c))(n) == Some(x))
      || (exists n :: n in p.nodes && Modified(NodesOf(c), ReadingsOf(c))(n) == Some(x))
  {
    var f, g, h := Added(NodesOf(p), ReadingsOf(p)), Removed(NodesOf(c), ReadingsOf(c)), Modified(NodesOf(c), ReadingsOf(c));
    SortByElements(NodeChangeLe, FoundNodeChanges(p, c));
    hide NodesOf, ReadingsOf, Added, Removed, Modified, NodeChangeLe, SortBy, FilterMap;
    FilterMapElements(f, c.nodes);
    FilterMapElements(g, p.nodes);
    FilterMapElements(h, p.nodes);
  }

  lemma EdgeChangeMember(p: Content, c: Content, x: RelationshipChange)
    ensures x in SortBy(RelationshipChangeLe, FoundRelationshipChanges(p, c)) <==>
      || (exists e :: e in c.edges && EdgeAdded(EdgesOf(p), NodesOf(c), ReadingsOf(p))(e) == Some(x))
      || (exists e :: e in p.edges && EdgeRemoved(EdgesOf(c), NodesOf(p), ReadingsOf(c))(e) == Some(x))
  {
    var f, g := EdgeAdded(EdgesOf(p), NodesOf(c), ReadingsOf(p)), EdgeRemoved(EdgesOf(c), NodesOf(p), ReadingsOf(c));
    SortByElements(RelationshipChangeLe, FoundRelationshipChanges(p, c));
    hide NodesOf, EdgesOf, ReadingsOf, EdgeAdded, EdgeRemoved, RelationshipChangeLe, SortBy, FilterMap;
    FilterMapElements(f, c.edges);
    FilterMapElements(g, p.edges);
  }

  // ----- completeness -----

  ghost predicate CurrentComplete(c: Content) { Incomplete(Remote, ReadingsOf(c)) == {} }

  lemma CompleteCoversAll(readings: Readings, required: set<DiffSubsystem>)
    requires Incomplete(Remote, readings) == {}
    ensures Incomplete(required, readings) == {}
  {
    forall s | s in Remote ensures IsComplete(s, readings) { assert s !in Incomplete(Remote, readings); }
    forall s | s in required ensures IsComplete(s, readings) {
      assert s == BASE_HOST || s in Remote;
    }
  }

  lemma KeysForEmpty(s: set<DiffSubsystem>, reason: UncertaintyReason)
    ensures KeysFor(s, reason) == {} <==> s == {}
  {
    if s != {} {
      var x :| x in s;
      assert UncertaintyKey(x, reason) in KeysFor(s, reason);
    }
  }

  lemma {:induction false} DoubtsNone(needs: seq<set<DiffSubsystem>>, previous: Readings)
    ensures Doubts(needs, previous) == {} <==> forall n :: n in needs ==> Incomplete(n, previous) == {}
  {
    if needs != [] {
      var front, last := needs[..|needs| - 1], needs[|needs| - 1];
      assert needs == front + [last];
      DoubtsNone(front, previous);
      KeysForEmpty(Incomplete(last, previous), PREVIOUS_DISCOVERY_INCOMPLETE);
    }
  }

  lemma AllKeysListed(k: UncertaintyKey)
    ensures k in AllUncertainties
  {
    var i := match k.subsystem case BASE_HOST => 0 case DOCKER => 2 case CADDY => 4 case SYSTEMD => 6 case HOST_LISTENERS => 8;
    var j := if k.reason == CURRENT_DISCOVERY_INCOMPLETE then i else i + 1;
    assert AllUncertainties[j] == k;
  }

  lemma UncertaintiesNone(keys: set<UncertaintyKey>)
    ensures OrderedUncertainties(keys) == [] <==> keys == {}
  {
    FilterMapElements(Reported(keys), AllUncertainties);
    hide ResourceTypesFor, FilterMap;
    if keys != {} {
      var k :| k in keys;
      AllKeysListed(k);
      assert Reported(keys)(k).Some?;
      assert Reported(keys)(k).value in OrderedUncertainties(keys);
    }
    if OrderedUncertainties(keys) != [] {
      var u := OrderedUncertainties(keys)[0];
      assert u in OrderedUncertainties(keys);
      var k :| k in AllUncertainties && Reported(keys)(k) == Some(u);
      assert k in keys;
    }
  }

  /** No node addition is doubtful exactly when no published node change is only newly observed. */
  lemma NodeDoubts(p: Content, c: Content)
    ensures Doubts(FilterMap(AddedNeeds(NodesOf(p)), c.nodes), ReadingsOf(p)) == {} <==>
      forall x :: x in SortBy(NodeChangeLe, FoundNodeChanges(p, c)) ==> x.evidence != NEWLY_OBSERVED
  {
    var needs, f := AddedNeeds(NodesOf(p)), Added(NodesOf(p), ReadingsOf(p));
    var all := SortBy(NodeChangeLe, FoundNodeChanges(p, c));
    DoubtsNone(FilterMap(needs, c.nodes), ReadingsOf(p));
    FilterMapElements(needs, c.nodes);
    NodeChangesShaped(p, c);
    hide Required, Incomplete, ReadingsOf, AssociateBy, FilterMap, Doubts, FieldChanges, SortBy, FoundNodeChanges, NodeChangeLe;
    if forall x :: x in all ==> x.evidence != NEWLY_OBSERVED {
      forall r | r in FilterMap(needs, c.nodes) ensures Incomplete(r, ReadingsOf(p)) == {} {
        var n :| n in c.nodes && needs(n) == Some(r);
        NodeChangeMember(p, c, f(n).value);
        assert f(n).value in all;
      }
    }
    if forall r :: r in FilterMap(needs, c.nodes) ==> Incomplete(r, ReadingsOf(p)) == {} {
      forall x | x in all ensures x.evidence != NEWLY_OBSERVED {
        NodeChangeMember(p, c, x);
        if exists n :: n in c.nodes && f(n) == Some(x) {
          var n :| n in c.nodes && f(n) == Some(x);
          assert needs(n).Some? && needs(n).value in FilterMap(needs, c.nodes);
        }
      }
    }
  }

  lemma EdgeDoubts(p: Content, c: Content)
    ensures Doubts(FilterMap(EdgeAddedNeeds(EdgesOf(p), NodesOf(c)), c.edges), ReadingsOf(p)) == {} <==>
      forall x :: x in SortBy(RelationshipChangeLe, FoundRelationshipChanges(p, c)) ==> x.evidence != NEWLY_OBSERVED
  {
    var needs, f := EdgeAddedNeeds(EdgesOf(p), NodesOf(c)), EdgeAdded(EdgesOf(p), NodesOf(c), ReadingsOf(p));
    var all := SortBy(RelationshipChangeLe, FoundRelationshipChanges(p, c));
    DoubtsNone(FilterMap(needs, c.edges), ReadingsOf(p));
    FilterMapElements(needs, c.edges);
    hide RequiredByEdge, Incomplete, ReadingsOf, AssociateBy, FilterMap, Doubts, SortBy, FoundRelationshipChanges, RelationshipChangeLe;
    if forall x :: x in all ==> x.evidence != NEWLY_OBSERVED {
      forall r | r in FilterMap(needs, c.edges) ensures Incomplete(r, ReadingsOf(p)) == {} {
        var e :| e in c.edges && needs(e) == Some(r);
        EdgeChangeMember(p, c, f(e).value);
        assert f(e).value in all;
      }
    }
    if forall r :: r in FilterMap(needs, c.edges) ==> Incomplete(r, ReadingsOf(p)) == {} {
      forall x | x in all ensures x.evidence != NEWLY_OBSERVED {
        EdgeChangeMember(p, c, x);
        if exists e :: e in c.edges && f(e) == Some(x) {
          var e :| e in c.edges && f(e) == Some(x);
          assert needs(e).Some? && needs(e).value in FilterMap(needs, c.edges);
        }
      }
    }
  }

  /** With complete current discovery no removal is left unconfirmed. */
  lemma RemovalsConfirmed(p: Content, c: Content)
    requires CurrentComplete(c)
    ensures forall x :: x in SortBy(NodeChangeLe, FoundNodeChanges(p, c)) ==> x.evidence != UNCONFIRMED_REMOVAL
    ensures forall x :: x in SortBy(RelationshipChangeLe, FoundRelationshipChanges(p, c)) ==> x.evidence != UNCONFIRMED_REMOVAL
  {
    hide Required, RequiredByEdge, Incomplete, ReadingsOf, AssociateBy, FieldChanges, SortBy, FoundRelationshipChanges, FoundNodeChanges;
    forall x | x in SortBy(NodeChangeLe, FoundNodeChanges(p, c)) ensures x.evidence != UNCONFIRMED_REMOVAL {
      NodeChangeMember(p, c, x);
      if exists n :: n in p.nodes && Removed(NodesOf(c), ReadingsOf(c))(n) == Some(x) {
        var n :| n in p.nodes && Removed(NodesOf(c), ReadingsOf(c))(n) == Some(x);
        CompleteCoversAll(ReadingsOf(c), Required(n.nodeType));
      }
    }
    forall x | x in SortBy(RelationshipChangeLe, FoundRelationshipChanges(p, c)) ensures x.evidence != UNCONFIRMED_REMOVAL {
      EdgeChangeMember(p, c, x);
      if exists e :: e in p.edges && EdgeRemoved(EdgesOf(c), NodesOf(p), ReadingsOf(c))(e) == Some(x) {
        var e :| e in p.edges && EdgeRemoved(EdgesOf(c), NodesOf(p), ReadingsOf(c))(e) == Some(x);
        CompleteCoversAll(ReadingsOf(c), RequiredByEdge(e, NodesOf(p)));
      }
    }
  }

  ghost predicate NothingNewlyObserved(d: InfrastructureDiff) {
    && (forall x :: x in d.nodeChanges ==> x.evidence != NEWLY_OBSERVED)
    && (forall x :: x in d.relationshipChanges ==> x.evidence != NEWLY_OBSERVED)
  }

  ghost predicate AllConfirmed(d: InfrastructureDiff) {
    && (forall x :: x in d.nodeChanges ==> x.evidence == CONFIRMED)
    && (forall x :: x in d.relationshipChanges ==> x.evidence == CONFIRMED)
  }

  lemma NoUncertainties(p: Content, c: Content)
    ensures FoundUncertainties(p, c) == {} <==>
      && CurrentComplete(c)
      && (forall x :: x in SortBy(NodeChangeLe, FoundNodeChanges(p, c)) ==> x.evidence != NEWLY_OBSERVED)
      && (forall x :: x in SortBy(RelationshipChangeLe, FoundRelationshipChanges(p, c)) ==> x.evidence != NEWLY_OBSERVED)
  {
    NodeDoubts(p, c);
    EdgeDoubts(p, c);
    KeysForEmpty(Incomplete(Remote, ReadingsOf(c)), CURRENT_DISCOVERY_INCOMPLETE);
    hide Doubts, FilterMap, SortBy, Incomplete, KeysFor, ReadingsOf, FoundNodeChanges, FoundRelationshipChanges;
  }

  /**
    A full comparison is free of the PARTIAL status exactly when all four current subsystems are
    complete and nothing is merely newly observed, and then every change is confirmed.
   */
  lemma StatusMeaning(previous: Snapshot, current: Snapshot)
    ensures var d := FullDiff(previous, current);
      && (d.status != PARTIAL <==> CurrentComplete(current.content) && NothingNewlyObserved(d))
      && (d.status != PARTIAL ==> AllConfirmed(d) && d.uncertainties == [])
      && (d.summary.isComplete <==> d.status != PARTIAL)
      && d.status in {PARTIAL, CHANGED, NO_CHANGES}
  {
    var p, c := previous.content, current.content;
    var nodes, edges := SortBy(NodeChangeLe, FoundNodeChanges(p, c)), SortBy(RelationshipChangeLe, FoundRelationshipChanges(p, c));
    NoUncertainties(p, c);
    UncertaintiesNone(FoundUncertainties(p, c));
    hide SortBy, FoundNodeChanges, FoundRelationshipChanges, FoundUncertainties, OrderedUncertainties, NodeChangeLe, RelationshipChangeLe;
    if CurrentComplete(c) {
      RemovalsConfirmed(p, c);
      hide CurrentComplete, Count;
      CountNone(IsUnconfirmed, nodes);
      CountNone(IsEdgeUnconfirmed, edges);
    }
  }

  // ----- the equal-fingerprint shortcut -----

  lemma {:induction false} NothingKept<T, U>(f: T -> Option<U>, s: seq<T>)
    requires forall x :: x in s ==> f(x).None?
    ensures FilterMap(f, s) == []
  {
    if s != [] {
      var front := s[..|s| - 1];
      assert s == front + [s[|s| - 1]];
      forall x | x in front ensures f(x).None? { assert x in s; }
      NothingKept(f, front);
    }
  }

  lemma SameNodeNoFields(n: SnapshotNode, readings: Readings)
    ensures FieldChanges(n, n, readings) == []
  {
    var keys := SortedSet(n.metadata.Keys + n.metadata.Keys);
    NothingKept(MetadataChange(n, n, readings), keys);
  }

  lemma EqualContentsNoNodeChanges(c: Content)
    requires ValidContent(c)
    ensures FoundNodeChanges(c, c) == []
    ensures FilterMap(AddedNeeds(NodesOf(c)), c.nodes) == []
  {
    AssociateByKeys(NodeId, c.nodes);
    AssociateByValues(NodeId, c.nodes);
    hide FieldChanges, Required, Incomplete, ReadingsOf, AssociateBy, ValidContent, FilterMap;
    NothingKept(Added(NodesOf(c), ReadingsOf(c)), c.nodes);
    NothingKept(Removed(NodesOf(c), ReadingsOf(c)), c.nodes);
    forall n | n in c.nodes ensures Modified(NodesOf(c), ReadingsOf(c))(n).None? {
      SameNodeNoFields(n, ReadingsOf(c));
    }
    NothingKept(Modified(NodesOf(c), ReadingsOf(c)), c.nodes);
    NothingKept(AddedNeeds(NodesOf(c)), c.nodes);
  }

  lemma EqualContentsNoEdgeChanges(c: Content)
    requires ValidContent(c)
    ensures FoundRelationshipChanges(c, c) == []
    ensures FilterMap(EdgeAddedNeeds(EdgesOf(c), NodesOf(c)), c.edges) == []
  {
    AssociateByKeys(EdgeId, c.edges);
    hide RequiredByEdge, Incomplete, ReadingsOf, AssociateBy, ValidContent, FilterMap;
    NothingKept(EdgeAdded(EdgesOf(c), NodesOf(c), ReadingsOf(c)), c.edges);
    NothingKept(EdgeRemoved(EdgesOf(c), NodesOf(c), ReadingsOf(c)), c.edges);
    NothingKept(EdgeAddedNeeds(EdgesOf(c), NodesOf(c)), c.edges);
  }

  /** Equal contents have no changes at all. */
  lemma EqualContentsNoChanges(c: Content)
    requires ValidContent(c)
    ensures FoundNodeChanges(c, c) == [] && FoundRelationshipChanges(c, c) == []
    ensures FoundUncertainties(c, c) == KeysFor(Incomplete(Remote, ReadingsOf(c)), CURRENT_DISCOVERY_INCOMPLETE)
  {
    EqualContentsNoNodeChanges(c);
    EqualContentsNoEdgeChanges(c);
    hide FoundNodeChanges, FoundRelationshipChanges, FilterMap, ReadingsOf, KeysFor, Incomplete;
  }

  lemma SummariseNothing(previous: Snapshot, current: Snapshot, uncertainties: seq<DiffUncertainty>)
    ensures var full := Summarise(previous, current, [], [], uncertainties);
      && full.nodeChanges == [] && full.relationshipChanges == []
      && (full == Terminal(Some(previous), current, NO_CHANGES, true) <==> uncertainties == [])
  {
  }

  /**
    The shortcut for equal fingerprints agrees with the full comparison on the change lists always,
    and on the whole result exactly when current discovery is complete.
   */
  lemma ShortcutAgrees(previous: Snapshot, current: Snapshot)
    requires previous.content == current.content && ValidContent(current.content)
    ensures var short := Terminal(Some(previous), current, NO_CHANGES, true);
      var full := FullDiff(previous, current);
      && short.nodeChanges == full.nodeChanges
      && short.relationshipChanges == full.relationshipChanges
      && (short == full <==> CurrentComplete(current.content))
  {
    var c := current.content;
    EqualContentsNoChanges(c);
    KeysForEmpty(Incomplete(Remote, ReadingsOf(c)), CURRENT_DISCOVERY_INCOMPLETE);
    UncertaintiesNone(FoundUncertainties(c, c));
    SummariseNothing(previous, current, OrderedUncertainties(FoundUncertainties(c, c)));
    hide Summarise, OrderedUncertainties, FoundNodeChanges, FoundRelationshipChanges, FoundUncertainties, ValidContent, Incomplete, ReadingsOf;
  }
}

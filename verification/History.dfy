/** The reference meaning of a history: the newest `limit` entries of a set of snapshots, newest first. */
module History {
  import opened Ordering
  import opened Collections
  import opened Snapshots
  import opened SnapshotStore

  ghost predicate IdsUnique(all: set<Metadata>) {
    forall a, b :: a in all && b in all && a.snapshotId == b.snapshotId ==> a == b
  }

  function Min(a: nat, b: nat): nat { if a <= b then a else b }

  ghost predicate IsNewest(h: seq<Metadata>, limit: nat, all: set<Metadata>) {
    && Sorted(MetadataOrder, h)
    && Distinct(h)
    && (forall m :: m in h ==> m in all)
    && |h| == Min(limit, |all|)
    && (forall kept, dropped :: kept in h && dropped in all && dropped !in h ==> MetadataOrder(kept, dropped))
  }

  lemma SubsetSize<T>(a: set<T>, b: set<T>)
    requires a <= b
    ensures |a| <= |b|
    ensures |a| == |b| ==> a == b
  {
    assert |b| == |a| + |b - a|;
    if |a| == |b| { assert b - a == {}; }
  }

  lemma NewestWithin(h: seq<Metadata>, g: seq<Metadata>, limit: nat, all: set<Metadata>)
    requires IdsUnique(all) && IsNewest(h, limit, all) && IsNewest(g, limit, all)
    ensures Elems(h) <= Elems(g)
  {
    MetadataOrderTotal();
    DistinctCardinality(h);
    DistinctCardinality(g);
    if Elems(g) <= Elems(h) {
      SubsetSize(Elems(g), Elems(h));
    } else {
      var y :| y in Elems(g) && y !in Elems(h);
      forall x | x in h ensures x in g {
        assert MetadataOrder(x, y);
        if x !in g { assert false; }
      }
    }
  }

  /** At most one list is the newest part of a given set. */
  lemma NewestUnique(h: seq<Metadata>, g: seq<Metadata>, limit: nat, all: set<Metadata>)
    requires IdsUnique(all) && IsNewest(h, limit, all) && IsNewest(g, limit, all)
    ensures h == g
  {
    MetadataOrderTotal();
    NewestWithin(h, g, limit, all);
    NewestWithin(g, h, limit, all);
    DistinctPermutation(h, g);
    assert Separates(MetadataOrder, h);
    SortedUnique(MetadataOrder, h, g);
  }

  lemma TakeSorted(limit: nat, s: seq<Metadata>)
    requires Sorted(MetadataOrder, s) && Distinct(s)
    ensures IsNewest(Take(limit, s), limit, Elems(s))
  {
    DistinctCardinality(s);
    var h := Take(limit, s);
    forall kept, dropped | kept in h && dropped in Elems(s) && dropped !in h ensures MetadataOrder(kept, dropped) {
      var i :| 0 <= i < |h| && h[i] == kept;
      var j :| 0 <= j < |s| && s[j] == dropped;
      assert s[i] == kept;
      assert j < |h| ==> dropped in h;
    }
  }

  /** Sorting a repeat-free list and cutting it gives the newest part of its elements. */
  lemma SortTakeNewest(limit: nat, s: seq<Metadata>)
    requires Distinct(s)
    ensures IsNewest(Take(limit, SortBy(MetadataOrder, s)), limit, Elems(s))
  {
    MetadataOrderTotal();
    SortBySorted(MetadataOrder, s);
    SortByElements(MetadataOrder, s);
    PermutationDistinct(s, SortBy(MetadataOrder, s));
    TakeSorted(limit, SortBy(MetadataOrder, s));
    assert Elems(SortBy(MetadataOrder, s)) == Elems(s);
  }

  lemma SortedCopy(s: seq<Metadata>)
    requires Distinct(s)
    ensures var r := SortBy(MetadataOrder, s);
      Sorted(MetadataOrder, r) && Distinct(r) && |r| == |s| && forall m :: m in r <==> m in s
  {
    MetadataOrderTotal();
    SortBySorted(MetadataOrder, s);
    SortByElements(MetadataOrder, s);
    PermutationDistinct(s, SortBy(MetadataOrder, s));
  }

  lemma UniqueSeparates(s: seq<Metadata>)
    requires UniqueBy(MetadataId, s)
    ensures Distinct(s) && Separates(MetadataOrder, s)
  {
    MetadataOrderTotal();
    UniqueByDistinct(MetadataId, s);
  }

  lemma SortedIsSorted(s: seq<Metadata>)
    requires Sorted(MetadataOrder, s) && UniqueBy(MetadataId, s)
    ensures SortBy(MetadataOrder, s) == s
  {
    MetadataOrderTotal();
    UniqueByDistinct(MetadataId, s);
    SortBySorted(MetadataOrder, s);
    SortByElements(MetadataOrder, s);
    assert Separates(MetadataOrder, s);
    SortedUnique(MetadataOrder, s, SortBy(MetadataOrder, s));
  }

  lemma NewestUniqueIds(h: seq<Metadata>, limit: nat, all: set<Metadata>)
    requires IdsUnique(all) && IsNewest(h, limit, all)
    ensures UniqueBy(MetadataId, h)
  {
    forall i, j | 0 <= i < j < |h| ensures MetadataId(h[i]) != MetadataId(h[j]) {
      assert h[i] in all && h[j] in all && h[i] != h[j];
    }
  }

  /** Dropping entries outside the newest part does not change it. */
  lemma NewestShrink(h: seq<Metadata>, limit: nat, all: set<Metadata>, fewer: set<Metadata>)
    requires IsNewest(h, limit, all) && fewer <= all && Elems(h) <= fewer
    ensures IsNewest(h, limit, fewer)
  {
    DistinctCardinality(h);
    SubsetSize(Elems(h), fewer);
    SubsetSize(fewer, all);
  }

  /** The newest part after one more entry can be computed from the newest part before it. */
  lemma NewestAdd(h: seq<Metadata>, g: seq<Metadata>, limit: nat, all: set<Metadata>, m: Metadata)
    requires limit >= 1 && m !in all
    requires IsNewest(h, limit, all) && IsNewest(g, limit, Elems(h) + {m})
    ensures IsNewest(g, limit, all + {m})
  {
    MetadataOrderTotal();
    DistinctCardinality(h);
    DistinctCardinality(g);
    assert |Elems(h) + {m}| == |h| + 1;
    assert |all + {m}| == |all| + 1;
    forall kept, dropped | kept in g && dropped in all + {m} && dropped !in g
      ensures MetadataOrder(kept, dropped)
    {
      if dropped !in Elems(h) + {m} {
        assert dropped in all && dropped !in h;
        if |h| < limit { DistinctSubsetWhole(h, all); }
        NewestAddDropped(h, g, limit, all, m, kept, dropped);
      }
    }
  }

  lemma DistinctSubsetWhole(h: seq<Metadata>, all: set<Metadata>)
    requires Distinct(h) && (forall m :: m in h ==> m in all) && |h| == |all|
    ensures forall m :: m in all ==> m in h
  {
    DistinctCardinality(h);
    SubsetSize(Elems(h), all);
  }

  lemma NewestAddDropped(
    h: seq<Metadata>, g: seq<Metadata>, limit: nat, all: set<Metadata>, m: Metadata, kept: Metadata, dropped: Metadata)
    requires limit >= 1 && m !in all && |h| == limit
    requires IsNewest(h, limit, all) && IsNewest(g, limit, Elems(h) + {m})
    requires kept in g && dropped in all && dropped !in h
    ensures MetadataOrder(kept, dropped)
  {
    MetadataOrderTotal();
    if kept !in h {
      assert kept == m;
      DistinctCardinality(h);
      DistinctCardinality(g);
      assert |Elems(h) + {m}| == limit + 1;
      // g keeps m and has only `limit` places, so it lost some entry of h.
      if Elems(h) <= Elems(g) {
        SubsetSize(Elems(h) + {m}, Elems(g));
        assert false;
      }
      var lost :| lost in Elems(h) && lost !in Elems(g);
      assert MetadataOrder(m, lost) && MetadataOrder(lost, dropped);
    }
  }
}

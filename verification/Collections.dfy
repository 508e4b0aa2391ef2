/**
  List operations shared by the models: filtering, mapping, association by key, and what each of
  them keeps when its input is permuted.
 */
module Collections {
  import opened Ordering

  datatype Option<+T> = None | Some(value: T)

  datatype Result<+T, +E> = Success(value: T) | Failure(error: E)

  /** Keeps the values of `f` that are present, in order; defined from the back so that a loop can extend it. */
  function FilterMap<T, U>(f: T -> Option<U>, s: seq<T>): seq<U> {
    if s == [] then []
    else
      var n := |s| - 1;
      match f(s[n])
      case None => FilterMap(f, s[..n])
      case Some(u) => FilterMap(f, s[..n]) + [u]
  }

  lemma FilterMapStep<T, U>(f: T -> Option<U>, s: seq<T>, k: nat)
    requires k < |s|
    ensures f(s[k]).None? ==> FilterMap(f, s[..k + 1]) == FilterMap(f, s[..k])
    ensures f(s[k]).Some? ==> FilterMap(f, s[..k + 1]) == FilterMap(f, s[..k]) + [f(s[k]).value]
  {
    assert s[..k + 1][..k] == s[..k];
  }

  lemma {:induction false} FilterMapElements<T, U>(f: T -> Option<U>, s: seq<T>)
    ensures forall x :: x in s && f(x).Some? ==> f(x).value in FilterMap(f, s)
    ensures forall u :: u in FilterMap(f, s) ==> exists x :: x in s && f(x) == Some(u)
  {
    if s != [] {
      var n := |s| - 1;
      FilterMapElements(f, s[..n]);
      assert s == s[..n] + [s[n]];
      forall u | u in FilterMap(f, s) ensures exists x :: x in s && f(x) == Some(u) {
        if u in FilterMap(f, s[..n]) {
          var x :| x in s[..n] && f(x) == Some(u);
          assert x in s;
        } else {
          assert f(s[n]) == Some(u);
        }
      }
    }
  }

  lemma {:induction false} FilterMapAppend<T, U>(f: T -> Option<U>, a: seq<T>, b: seq<T>)
    ensures FilterMap(f, a + b) == FilterMap(f, a) + FilterMap(f, b)
  {
    if b == [] {
      assert a + b == a;
    } else {
      var n := |b| - 1;
      assert (a + b)[..|a + b| - 1] == a + b[..n];
      FilterMapAppend(f, a, b[..n]);
    }
  }

  /** A permutation of a non-empty list splits the other list around the last element. */
  lemma PermutationStep<T>(a: seq<T>, b: seq<T>) returns (front: seq<T>, back: seq<T>)
    requires a != [] && multiset(a) == multiset(b)
    ensures b == front + [a[|a| - 1]] + back
    ensures multiset(a[..|a| - 1]) == multiset(front + back)
  {
    var n := |a| - 1;
    assert a == a[..n] + [a[n]];
    SameElements(a, b);
    assert a[n] in b;
    var k :| 0 <= k < |b| && b[k] == a[n];
    front, back := b[..k], b[k + 1..];
    assert b == front + [a[n]] + back;
    MultisetAround(front, [a[n]], back);
    assert multiset(a[..n]) == multiset(a) - multiset{a[n]};
    assert multiset(front + back) == multiset(b) - multiset{a[n]};
  }

  function Kept<U>(o: Option<U>): seq<U> { match o case None => [] case Some(u) => [u] }

  lemma FilterMapAround<T, U>(f: T -> Option<U>, front: seq<T>, x: T, back: seq<T>)
    ensures FilterMap(f, front + [x] + back) == FilterMap(f, front) + Kept(f(x)) + FilterMap(f, back)
  {
    var fx := front + [x];
    FilterMapAppend(f, fx, back);
    assert fx[..|fx| - 1] == front;
  }

  lemma MultisetAround<U>(a: seq<U>, b: seq<U>, c: seq<U>)
    ensures multiset(a + b + c) == multiset(a + c) + multiset(b)
  {
  }

  lemma {:induction false} FilterMapPermutation<T, U>(f: T -> Option<U>, a: seq<T>, b: seq<T>)
    requires multiset(a) == multiset(b)
    ensures multiset(FilterMap(f, a)) == multiset(FilterMap(f, b))
  {
    if a == [] {
      SameElements(a, b);
    } else {
      var x := a[|a| - 1];
      var front, back := PermutationStep(a, b);
      FilterMapPermutation(f, a[..|a| - 1], front + back);
      FilterMapAround(f, front, x, back);
      FilterMapAppend(f, front, back);
      MultisetAround(FilterMap(f, front), Kept(f(x)), FilterMap(f, back));
    }
  }

  /** Values obtained from distinct list positions stay distinct when `f` separates them. */
  lemma {:induction false} FilterMapDistinct<T, U>(f: T -> Option<U>, s: seq<T>)
    requires forall i, j :: 0 <= i < j < |s| && f(s[i]).Some? && f(s[j]).Some? ==> f(s[i]) != f(s[j])
    ensures Distinct(FilterMap(f, s))
  {
    if s != [] {
      var n := |s| - 1;
      FilterMapDistinct(f, s[..n]);
      if f(s[n]).Some? {
        FilterMapElements(f, s[..n]);
        forall u | u in FilterMap(f, s[..n]) ensures u != f(s[n]).value {
          var x :| x in s[..n] && f(x) == Some(u);
          var i :| 0 <= i < n && s[i] == x;
        }
      }
    }
  }

  function Map<T, U>(f: T -> U, s: seq<T>): (r: seq<U>)
    ensures |r| == |s| && forall i :: 0 <= i < |s| ==> r[i] == f(s[i])
  {
    if s == [] then [] else Map(f, s[..|s| - 1]) + [f(s[|s| - 1])]
  }

  lemma {:induction false} MapPermutation<T, U>(f: T -> U, a: seq<T>, b: seq<T>)
    requires multiset(a) == multiset(b)
    ensures multiset(Map(f, a)) == multiset(Map(f, b))
  {
    MapAsFilterMap(f, a);
    MapAsFilterMap(f, b);
    FilterMapPermutation(Always(f), a, b);
  }

  ghost function Always<T, U>(f: T -> U): T -> Option<U> { (x: T) => Some(f(x)) }

  lemma {:induction false} MapAsFilterMap<T, U>(f: T -> U, s: seq<T>)
    ensures Map(f, s) == FilterMap(Always(f), s)
  {
    if s != [] { MapAsFilterMap(f, s[..|s| - 1]); }
  }

  lemma FilterMapOrigin<T, U>(f: T -> Option<U>, s: seq<T>, u: U) returns (x: T)
    requires u in FilterMap(f, s)
    ensures x in s && f(x) == Some(u)
  {
    FilterMapElements(f, s);
    x :| x in s && f(x) == Some(u);
  }

  function FlatMap<T, U>(f: T -> seq<U>, s: seq<T>): seq<U> {
    if s == [] then [] else FlatMap(f, s[..|s| - 1]) + f(s[|s| - 1])
  }

  lemma FlatMapStep<T, U>(f: T -> seq<U>, s: seq<T>, k: nat)
    requires k < |s|
    ensures FlatMap(f, s[..k + 1]) == FlatMap(f, s[..k]) + f(s[k])
  {
    assert s[..k + 1][..k] == s[..k];
  }

  lemma {:induction false} FlatMapSplit<T, U>(f: T -> seq<U>, s: seq<T>, i: nat)
    requires i <= |s|
    ensures FlatMap(f, s) == FlatMap(f, s[..i]) + FlatMap(f, s[i..])
    decreases |s|
  {
    if i == |s| {
      assert s[..i] == s && s[i..] == [];
    } else {
      var n := |s| - 1;
      FlatMapSplit(f, s[..n], i);
      assert s[..n][..i] == s[..i] && s[i..][..n - i] == s[..n][i..];
    }
  }

  lemma {:induction false} FlatMapOrigin<T, U>(f: T -> seq<U>, s: seq<T>, u: U) returns (x: T)
    requires u in FlatMap(f, s)
    ensures x in s && u in f(x)
  {
    var n := |s| - 1;
    assert s == s[..n] + [s[n]];
    if u in f(s[n]) {
      x := s[n];
    } else {
      x := FlatMapOrigin(f, s[..n], u);
    }
  }

  lemma {:induction false} FlatMapMember<T, U>(f: T -> seq<U>, s: seq<T>, x: T, u: U)
    requires x in s && u in f(x)
    ensures u in FlatMap(f, s)
  {
    var n := |s| - 1;
    if s[n] != x {
      assert s == s[..n] + [s[n]];
      FlatMapMember(f, s[..n], x, u);
    }
  }

  lemma {:induction false} FlatMapAppend<T, U>(f: T -> seq<U>, a: seq<T>, b: seq<T>)
    ensures FlatMap(f, a + b) == FlatMap(f, a) + FlatMap(f, b)
  {
    FlatMapSplit(f, a + b, |a|);
    assert (a + b)[..|a|] == a && (a + b)[|a|..] == b;
  }

  lemma FlatMapOne<T, U>(f: T -> seq<U>, x: T)
    ensures FlatMap(f, [x]) == f(x)
  {
    assert [x][..0] == [];
    assert FlatMap(f, [x][..0]) == [];
  }

  lemma {:induction false} FlatMapPermutation<T, U>(f: T -> seq<U>, a: seq<T>, b: seq<T>)
    requires multiset(a) == multiset(b)
    ensures multiset(FlatMap(f, a)) == multiset(FlatMap(f, b))
  {
    if a == [] {
      assert |multiset(b)| == 0;
      assert b == [];
    } else {
      var n := |a| - 1;
      var front, back := PermutationStep(a, b);
      FlatMapPermutation(f, a[..n], front + back);
      FlatMapAppend(f, front, back);
      FlatMapAppend(f, front + [a[n]], back);
      FlatMapAppend(f, front, [a[n]]);
      FlatMapOne(f, a[n]);
      MultisetAround(FlatMap(f, front), f(a[n]), FlatMap(f, back));
    }
  }

  /** Functions with the same elements, list by list, flatten to the same elements. */
  lemma {:induction false} FlatMapAgree<T, U>(f: T -> seq<U>, g: T -> seq<U>, s: seq<T>)
    requires forall x :: x in s ==> multiset(f(x)) == multiset(g(x))
    ensures multiset(FlatMap(f, s)) == multiset(FlatMap(g, s))
  {
    if s != [] {
      var n := |s| - 1;
      assert s == s[..n] + [s[n]];
      forall x | x in s[..n] ensures multiset(f(x)) == multiset(g(x)) { assert x in s; }
      FlatMapAgree(f, g, s[..n]);
      assert s[n] in s;
    }
  }

  /** Flattening twice holds what flattening the pieces holds. */
  lemma {:induction false} FlatMapNested<T, U, V>(f: T -> seq<U>, g: U -> seq<V>, h: T -> seq<V>, s: seq<T>)
    requires forall x :: x in s ==> multiset(FlatMap(g, f(x))) == multiset(h(x))
    ensures multiset(FlatMap(g, FlatMap(f, s))) == multiset(FlatMap(h, s))
  {
    if s != [] {
      var n := |s| - 1;
      assert s == s[..n] + [s[n]];
      forall x | x in s[..n] ensures multiset(FlatMap(g, f(x))) == multiset(h(x)) { assert x in s; }
      FlatMapNested(f, g, h, s[..n]);
      FlatMapAppend(g, FlatMap(f, s[..n]), f(s[n]));
      assert s[n] in s;
    }
  }

  lemma MapFront<T, U>(f: T -> U, s: seq<T>)
    requires s != []
    ensures Map(f, s) == Map(f, s[..|s| - 1]) + [f(s[|s| - 1])]
  {
  }

  function Filter<T>(p: T -> bool, s: seq<T>): seq<T> {
    if s == [] then []
    else
      var n := |s| - 1;
      Filter(p, s[..n]) + if p(s[n]) then [s[n]] else []
  }

  lemma FilterStep<T>(p: T -> bool, s: seq<T>, k: nat)
    requires k < |s|
    ensures Filter(p, s[..k + 1]) == Filter(p, s[..k]) + if p(s[k]) then [s[k]] else []
  {
    assert s[..k + 1][..k] == s[..k];
  }

  lemma {:induction false} FilterElements<T>(p: T -> bool, s: seq<T>)
    ensures forall x :: x in Filter(p, s) <==> x in s && p(x)
  {
    if s != [] {
      FilterElements(p, s[..|s| - 1]);
      assert s == s[..|s| - 1] + [s[|s| - 1]];
    }
  }

  lemma {:induction false} FilterTwice<T>(p: T -> bool, q: T -> bool, s: seq<T>)
    requires forall x :: x in s && q(x) ==> p(x)
    ensures Filter(q, Filter(p, s)) == Filter(q, s)
  {
    if s != [] {
      var front, last := s[..|s| - 1], s[|s| - 1];
      assert s == front + [last];
      forall x | x in front && q(x) ensures p(x) { assert x in s; }
      FilterTwice(p, q, front);
      var kept := Filter(p, front);
      assert (kept + [last])[..|kept|] == kept;
      assert kept + [] == kept;
      assert last in s;
    }
  }

  lemma FilterMember<T>(p: T -> bool, s: seq<T>, x: T)
    ensures x in Filter(p, s) <==> x in s && p(x)
  {
    FilterElements(p, s);
  }

  lemma {:induction false} FilterNothing<T>(p: T -> bool, s: seq<T>)
    requires forall x :: x in s ==> p(x)
    ensures Filter(p, s) == s
  {
    if s != [] {
      var front := s[..|s| - 1];
      assert s == front + [s[|s| - 1]];
      forall x | x in front ensures p(x) { assert x in s; }
      FilterNothing(p, front);
    }
  }

  lemma MapOrigin<T, U>(f: T -> U, s: seq<T>, y: U) returns (x: T)
    requires y in Map(f, s)
    ensures x in s && f(x) == y
  {
    var i :| 0 <= i < |s| && Map(f, s)[i] == y;
    x := s[i];
  }

  lemma MapMember<T, U>(f: T -> U, s: seq<T>, x: T)
    ensures x in s ==> f(x) in Map(f, s)
  {
    if x in s {
      var i :| 0 <= i < |s| && s[i] == x;
      assert Map(f, s)[i] == f(x);
    }
  }

  lemma {:induction false} FilterDistinct<T>(p: T -> bool, s: seq<T>)
    requires Distinct(s)
    ensures Distinct(Filter(p, s))
  {
    if s != [] {
      FilterDistinct(p, s[..|s| - 1]);
      FilterElements(p, s[..|s| - 1]);
    }
  }

  lemma {:induction false} FilterUniqueBy<K, V>(key: V -> K, p: V -> bool, s: seq<V>)
    requires UniqueBy(key, s)
    ensures UniqueBy(key, Filter(p, s))
  {
    if s != [] {
      var n := |s| - 1;
      FilterUniqueBy(key, p, s[..n]);
      var kept := Filter(p, s[..n]);
      forall k | 0 <= k < |kept| ensures key(kept[k]) != key(s[n]) {
        FilterMember(p, s[..n], kept[k]);
        var i :| 0 <= i < n && s[i] == kept[k];
      }
    }
  }

  function Count<T>(p: T -> bool, s: seq<T>): nat {
    if s == [] then 0 else Count(p, s[..|s| - 1]) + if p(s[|s| - 1]) then 1 else 0
  }

  lemma {:induction false} CountAppend<T>(p: T -> bool, a: seq<T>, b: seq<T>)
    ensures Count(p, a + b) == Count(p, a) + Count(p, b)
  {
    if b == [] {
      assert a + b == a;
    } else {
      assert (a + b)[..|a + b| - 1] == a + b[..|b| - 1];
      CountAppend(p, a, b[..|b| - 1]);
    }
  }

  lemma CountAround<T>(p: T -> bool, front: seq<T>, x: T, back: seq<T>)
    ensures Count(p, front + [x] + back) == Count(p, front) + (if p(x) then 1 else 0) + Count(p, back)
  {
    var fx := front + [x];
    CountAppend(p, fx, back);
    assert fx[..|fx| - 1] == front;
  }

  lemma {:induction false} CountPermutation<T>(p: T -> bool, a: seq<T>, b: seq<T>)
    requires multiset(a) == multiset(b)
    ensures Count(p, a) == Count(p, b)
  {
    if a == [] {
      SameElements(a, b);
    } else {
      var front, back := PermutationStep(a, b);
      CountPermutation(p, a[..|a| - 1], front + back);
      CountAround(p, front, a[|a| - 1], back);
      CountAppend(p, front, back);
    }
  }

  lemma {:induction false} CountAll<T>(p: T -> bool, s: seq<T>)
    requires forall x :: x in s ==> p(x)
    ensures Count(p, s) == |s|
  {
    if s != [] { CountAll(p, s[..|s| - 1]); }
  }

  lemma {:induction false} CountNone<T>(p: T -> bool, s: seq<T>)
    requires forall x :: x in s ==> !p(x)
    ensures Count(p, s) == 0
  {
    if s != [] { CountNone(p, s[..|s| - 1]); }
  }

  lemma {:induction false} CountSplit<T>(p: T -> bool, q: T -> bool, r: T -> bool, s: seq<T>)
    requires forall x :: x in s ==> (p(x) <==> q(x) || r(x)) && !(q(x) && r(x))
    ensures Count(p, s) == Count(q, s) + Count(r, s)
  {
    if s != [] {
      assert s[|s| - 1] in s;
      CountSplit(p, q, r, s[..|s| - 1]);
    }
  }

  /** A map from key to the last value that has it. */
  function AssociateBy<K, V>(key: V -> K, s: seq<V>): map<K, V> {
    if s == [] then map[]
    else AssociateBy(key, s[..|s| - 1])[key(s[|s| - 1]) := s[|s| - 1]]
  }

  predicate UniqueBy<K(==), V>(key: V -> K, s: seq<V>) {
    forall i, j :: 0 <= i < j < |s| ==> key(s[i]) != key(s[j])
  }

  lemma {:induction false} AssociateByKeys<K, V>(key: V -> K, s: seq<V>)
    ensures forall v :: v in s ==> key(v) in AssociateBy(key, s)
    ensures forall k :: k in AssociateBy(key, s) ==> AssociateBy(key, s)[k] in s && key(AssociateBy(key, s)[k]) == k
  {
    if s != [] {
      var n := |s| - 1;
      AssociateByKeys(key, s[..n]);
      assert s == s[..n] + [s[n]];
    }
  }

  lemma {:induction false} AssociateByValues<K, V>(key: V -> K, s: seq<V>)
    requires UniqueBy(key, s)
    ensures forall v :: v in s ==> key(v) in AssociateBy(key, s) && AssociateBy(key, s)[key(v)] == v
  {
    if s != [] {
      var n := |s| - 1;
      AssociateByValues(key, s[..n]);
      assert s == s[..n] + [s[n]];
      forall v | v in s[..n] ensures key(v) != key(s[n]) {
        var i :| 0 <= i < n && s[i] == v;
      }
    }
  }

  /** The association does not depend on list order when keys are unique. */
  lemma AssociateByPermutation<K, V>(key: V -> K, a: seq<V>, b: seq<V>)
    requires multiset(a) == multiset(b) && UniqueBy(key, a)
    ensures UniqueBy(key, b)
    ensures AssociateBy(key, a) == AssociateBy(key, b)
  {
    SameElements(a, b);
    UniqueByPermutation(key, a, b);
    AssociateByKeys(key, a);
    AssociateByKeys(key, b);
    AssociateByValues(key, a);
    AssociateByValues(key, b);
  }

  lemma UniqueByPermutation<K, V>(key: V -> K, a: seq<V>, b: seq<V>)
    requires multiset(a) == multiset(b) && UniqueBy(key, a)
    ensures UniqueBy(key, b)
  {
    MapPermutation(key, a, b);
    assert Distinct(Map(key, a));
    PermutationDistinct(Map(key, a), Map(key, b));
    forall i, j | 0 <= i < j < |b| ensures key(b[i]) != key(b[j]) {
      assert Map(key, b)[i] != Map(key, b)[j];
    }
  }

  lemma UniqueByDistinct<K, V>(key: V -> K, s: seq<V>)
    requires UniqueBy(key, s)
    ensures Distinct(s)
    ensures forall x, y :: x in s && y in s && key(x) == key(y) ==> x == y
  {
    forall x, y | x in s && y in s && key(x) == key(y) ensures x == y {
      var i :| 0 <= i < |s| && s[i] == x;
      var j :| 0 <= j < |s| && s[j] == y;
    }
  }

  // ----- the last value of every key, in key order -----

  function Lookup<V>(m: map<string, V>): string -> Option<V> { (k: string) => if k in m then Some(m[k]) else None }

  /** `{key(v): v for v in s}` read back in sorted key order. */
  function LastByKey<V>(key: V -> string, s: seq<V>): seq<V> {
    var unique := AssociateBy(key, s);
    FilterMap(Lookup(unique), SortedSet(unique.Keys))
  }

  lemma LookupMember<V>(m: map<string, V>, keys: seq<string>, v: V)
    ensures v in FilterMap(Lookup(m), keys) <==> exists k :: k in keys && k in m && m[k] == v
  {
    FilterMapElements(Lookup(m), keys);
    hide FilterMap;
    if k :| k in keys && k in m && m[k] == v { assert Lookup(m)(k) == Some(v); }
  }

  lemma LastByKeyMember<V>(key: V -> string, s: seq<V>, v: V)
    ensures v in LastByKey(key, s) <==> key(v) in AssociateBy(key, s) && AssociateBy(key, s)[key(v)] == v
    ensures v in LastByKey(key, s) ==> v in s
  {
    var unique := AssociateBy(key, s);
    var keys := SortedSet(unique.Keys);
    AssociateByKeys(key, s);
    LookupMember(unique, keys, v);
    hide AssociateBy, SortedSet, FilterMap;
  }

  lemma LastByKeyDistinct<V>(key: V -> string, s: seq<V>)
    ensures Distinct(LastByKey(key, s))
    ensures forall x, y :: x in LastByKey(key, s) && y in LastByKey(key, s) && key(x) == key(y) ==> x == y
  {
    var unique := AssociateBy(key, s);
    var keys := SortedSet(unique.Keys);
    AssociateByKeys(key, s);
    SortedSetDistinct(unique.Keys);
    assert LastByKey(key, s) == FilterMap(Lookup(unique), keys);
    forall x, y | x in LastByKey(key, s) && y in LastByKey(key, s) && key(x) == key(y) ensures x == y {
      LastByKeyMember(key, s, x);
      LastByKeyMember(key, s, y);
    }
    hide AssociateBy, SortedSet, FilterMap, LastByKey;
    forall i, j | 0 <= i < j < |keys| && Lookup(unique)(keys[i]).Some? && Lookup(unique)(keys[j]).Some?
      ensures Lookup(unique)(keys[i]) != Lookup(unique)(keys[j])
    {
      assert keys[i] in keys && keys[j] in keys;
      assert key(unique[keys[i]]) == keys[i] && key(unique[keys[j]]) == keys[j];
    }
    FilterMapDistinct(Lookup(unique), keys);
  }

  lemma LastByKeyKept<V>(key: V -> string, a: seq<V>, b: seq<V>, k: string)
    requires forall v :: v in LastByKey(key, a) <==> v in LastByKey(key, b)
    requires k in AssociateBy(key, a)
    ensures k in AssociateBy(key, b) && AssociateBy(key, b)[k] == AssociateBy(key, a)[k]
  {
    var v := AssociateBy(key, a)[k];
    AssociateByKeys(key, a);
    hide AssociateBy, LastByKey;
    LastByKeyMember(key, a, v);
    LastByKeyMember(key, b, v);
  }

  /** The list is determined by its elements. */
  lemma LastByKeyEqual<V>(key: V -> string, a: seq<V>, b: seq<V>)
    requires forall v :: v in LastByKey(key, a) <==> v in LastByKey(key, b)
    ensures LastByKey(key, a) == LastByKey(key, b)
  {
    hide AssociateBy, FilterMap, SortedSet;
    var m, n := AssociateBy(key, a), AssociateBy(key, b);
    assert m == n by {
      hide LastByKey;
      forall k | k in m ensures k in n && m[k] == n[k] { LastByKeyKept(key, a, b, k); }
      forall k | k in n ensures k in m { LastByKeyKept(key, b, a, k); }
    }
  }
}

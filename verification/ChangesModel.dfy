/** How the changes view groups relationship changes: retargeted relationships become one entry. */
module ChangesModel {
  import opened Ordering
  import opened Collections
  import opened Snapshots
  import opened Texts
  import opened Comparing

  const NUL := '\0'
  const REMOVAL := "RELATIONSHIP_REMOVED"
  const ADDITION := "RELATIONSHIP_ADDED"
  const UNCONFIRMED := "UNCONFIRMED_REMOVAL"

  /** A relationship change as the view receives it. */
  datatype ChangeRecord = ChangeRecord(id: string, kind: string, evidence: string, edge: SnapshotEdge)

  datatype Presentation = Presentation(
    id: string, relation: string, subject: Option<SnapshotNode>, subjectInCurrent: bool,
    beforeTarget: Option<SnapshotNode>, afterTarget: Option<SnapshotNode>, records: seq<ChangeRecord>, uncertain: bool)

  type Resources = map<string, ResourceSnapshot>

  const ResourceId := (r: ResourceSnapshot) => r.nodeId
  const RecordId := (r: ChangeRecord) => r.id
  const RecordsOf := (p: Presentation) => p.records

  predicate IdLe(a: ChangeRecord, b: ChangeRecord) { StringLe(a.id, b.id) }

  function OfKind(kind: string): ChangeRecord -> bool { (r: ChangeRecord) => r.kind == kind }

  function FirstOf(p: ChangeRecord -> bool, s: seq<ChangeRecord>): Option<ChangeRecord> {
    if s == [] then None else if p(s[0]) then Some(s[0]) else FirstOf(p, s[1..])
  }

  function OrElse(a: Option<SnapshotNode>, b: Option<SnapshotNode>): Option<SnapshotNode> { if a.Some? then a else b }

  function Before(resources: Resources, id: string): Option<SnapshotNode> {
    if id in resources then resources[id].before else None
  }

  function After(resources: Resources, id: string): Option<SnapshotNode> {
    if id in resources then resources[id].after else None
  }

  /** `relationshipPresentation` */
  function Present(records: seq<ChangeRecord>, resources: Resources, uncertain: bool): Presentation
    requires records != []
  {
    var first, removed, added := records[0].edge, FirstOf(OfKind(REMOVAL), records), FirstOf(OfKind(ADDITION), records);
    Presentation(
      Join("|", SortBy(StringLe, Map(RecordId, records))), first.relation,
      OrElse(After(resources, first.source), Before(resources, first.source)), After(resources, first.source).Some?,
      if removed.None? then None
      else OrElse(Before(resources, removed.value.edge.target), After(resources, removed.value.edge.target)),
      if added.None? then None
      else OrElse(After(resources, added.value.edge.target), Before(resources, added.value.edge.target)),
      SortBy(IdLe, records), uncertain)
  }

  function Alone(resources: Resources, uncertain: bool): ChangeRecord -> Presentation {
    (r: ChangeRecord) => Present([r], resources, uncertain)
  }

  // ----- certain changes -----

  function Key(r: ChangeRecord): string { r.edge.source + [NUL] + r.edge.relation }

  function KeyIs(k: string): ChangeRecord -> bool { (r: ChangeRecord) => Key(r) == k }

  const IsCertain := (r: ChangeRecord) => r.evidence != UNCONFIRMED
  const IsUncertain := (r: ChangeRecord) => r.evidence == UNCONFIRMED

  /** The keys in the order in which they first occur. */
  function FirstKeys(s: seq<ChangeRecord>): seq<string> {
    if s == [] then []
    else
      var n := |s| - 1;
      var keys := FirstKeys(s[..n]);
      if Key(s[n]) in keys then keys else keys + [Key(s[n])]
  }

  function GroupIn(s: seq<ChangeRecord>): string -> seq<ChangeRecord> { (k: string) => Filter(KeyIs(k), s) }

  /** One removal and one addition. */
  predicate IsRetarget(records: seq<ChangeRecord>) {
    |records| == 2 && |Filter(OfKind(REMOVAL), records)| == 1 && |Filter(OfKind(ADDITION), records)| == 1
  }

  function GroupShown(records: seq<ChangeRecord>, resources: Resources): seq<Presentation> {
    if IsRetarget(records) then [Present(records, resources, false)] else Map(Alone(resources, false), records)
  }

  function ShownIn(s: seq<ChangeRecord>, resources: Resources): string -> seq<Presentation> {
    (k: string) => GroupShown(GroupIn(s)(k), resources)
  }

  function SubjectType(p: Presentation): string { if p.subject.Some? then p.subject.value.nodeType else "" }

  function SubjectTitle(p: Presentation): string { if p.subject.Some? then p.subject.value.title else "" }

  function ShownLe(typeLabel: string -> string): (Presentation, Presentation) -> bool {
    (p: Presentation, q: Presentation) =>
      KeysLe([typeLabel(SubjectType(p)), SubjectTitle(p), p.id], [typeLabel(SubjectType(q)), SubjectTitle(q), q.id])
  }

  /** `relationshipPresentations` */
  function Certain(changes: seq<ChangeRecord>, resources: Resources, typeLabel: string -> string): seq<Presentation> {
    var certain := Filter(IsCertain, changes);
    SortBy(ShownLe(typeLabel), FlatMap(ShownIn(certain, resources), FirstKeys(certain)))
  }

  predicate ShownIdLe(p: Presentation, q: Presentation) { StringLe(p.id, q.id) }

  /** `uncertainRelationshipPresentations` */
  function Uncertain(changes: seq<ChangeRecord>, resources: Resources): seq<Presentation> {
    SortBy(ShownIdLe, Map(Alone(resources, true), Filter(IsUncertain, changes)))
  }

  // ----- as computed -----

  lemma KeysStep(s: seq<ChangeRecord>, i: nat)
    requires i < |s|
    ensures FirstKeys(s[..i + 1]) == FirstKeys(s[..i]) + if Key(s[i]) in FirstKeys(s[..i]) then [] else [Key(s[i])]
  {
    assert s[..i + 1][..i] == s[..i];
  }

  /** The insertion-ordered map of groups, as its keys in order and its entries. */
  method CollectGroups(certain: seq<ChangeRecord>) returns (keys: seq<string>, groups: map<string, seq<ChangeRecord>>)
    ensures keys == FirstKeys(certain)
    ensures forall k :: k in keys ==> k in groups && groups[k] == GroupIn(certain)(k)
  {
    keys, groups := [], map[];
    for i := 0 to |certain|
      invariant keys == FirstKeys(certain[..i])
      invariant forall k :: k in keys <==> k in groups
      invariant forall k :: GroupIn(certain[..i])(k) == if k in groups then groups[k] else []
    {
      var k := Key(certain[i]);
      KeysStep(certain, i);
      forall j ensures GroupIn(certain[..i + 1])(j) == GroupIn(certain[..i])(j) + if j == k then [certain[i]] else [] {
        FilterStep(KeyIs(j), certain, i);
      }
      hide FirstKeys, Key, GroupIn;
      if k !in groups { keys := keys + [k]; }
      groups := groups[k := (if k in groups then groups[k] else []) + [certain[i]]];
    }
    assert certain[..|certain|] == certain;
  }

  method RelationshipPresentations(changes: seq<ChangeRecord>, resources: Resources, typeLabel: string -> string)
    returns (presentations: seq<Presentation>)
    ensures presentations == Certain(changes, resources, typeLabel)
  {
    var certain := Filter(IsCertain, changes);
    var keys, groups := CollectGroups(certain);
    presentations := [];
    hide FirstKeys, GroupIn, Present, Filter, Map, SortBy;
    for i := 0 to |keys|
      invariant presentations == FlatMap(ShownIn(certain, resources), keys[..i])
    {
      FlatMapStep(ShownIn(certain, resources), keys, i);
      var records := groups[keys[i]];
      var removed := Filter(OfKind(REMOVAL), records);
      var added := Filter(OfKind(ADDITION), records);
      if |records| == 2 && |removed| == 1 && |added| == 1 {
        presentations := presentations + [Present(records, resources, false)];
      } else {
        presentations := presentations + Map(Alone(resources, false), records);
      }
    }
    assert keys[..|keys|] == keys;
    presentations := SortBy(ShownLe(typeLabel), presentations);
  }

  // ----- nothing is lost -----

  function Without(k: string): ChangeRecord -> bool { (r: ChangeRecord) => Key(r) != k }

  lemma {:induction false} SplitBy(p: ChangeRecord -> bool, q: ChangeRecord -> bool, s: seq<ChangeRecord>)
    requires forall r :: r in s ==> p(r) != q(r)
    ensures multiset(s) == multiset(Filter(p, s)) + multiset(Filter(q, s))
  {
    if s != [] {
      var n := |s| - 1;
      assert s == s[..n] + [s[n]];
      forall r | r in s[..n] ensures p(r) != q(r) { assert r in s; }
      SplitBy(p, q, s[..n]);
      assert s[n] in s;
    }
  }

  lemma {:induction false} FirstKeysExact(s: seq<ChangeRecord>)
    ensures Distinct(FirstKeys(s))
    ensures forall r :: r in s ==> Key(r) in FirstKeys(s)
    ensures forall k :: k in FirstKeys(s) ==> exists r :: r in s && Key(r) == k
  {
    if s != [] {
      var n := |s| - 1;
      assert s == s[..n] + [s[n]];
      hide Key;
      FirstKeysExact(s[..n]);
      forall k | k in FirstKeys(s) ensures exists r :: r in s && Key(r) == k {
        if k != Key(s[n]) {
          var r :| r in s[..n] && Key(r) == k;
          assert r in s;
        }
      }
    }
  }

  lemma SomeKey(s: seq<ChangeRecord>, keys: seq<string>)
    requires s != [] && forall r :: r in s ==> Key(r) in keys
    ensures keys != []
  {
    assert s[0] in s;
  }

  /** Groups by distinct keys that cover a list hold each of its records once. */
  lemma {:induction false} GroupsCover(s: seq<ChangeRecord>, keys: seq<string>)
    requires Distinct(keys) && forall r :: r in s ==> Key(r) in keys
    ensures multiset(FlatMap(GroupIn(s), keys)) == multiset(s)
    decreases |keys|
  {
    hide Key, Filter;
    if keys == [] {
      if s != [] { SomeKey(s, keys); }
    } else {
      var n := |keys| - 1;
      var k, rest := keys[n], Filter(Without(keys[n]), s);
      assert keys == keys[..n] + [k];
      SplitBy(KeyIs(k), Without(k), s);
      forall r | r in rest ensures Key(r) in keys[..n] {
        FilterMember(Without(k), s, r);
      }
      forall j | j in keys[..n] ensures multiset(GroupIn(s)(j)) == multiset(GroupIn(rest)(j)) {
        FilterTwice(Without(k), KeyIs(j), s);
      }
      GroupsCover(rest, keys[..n]);
      FlatMapAgree(GroupIn(s), GroupIn(rest), keys[..n]);
    }
  }

  lemma AloneHolds(resources: Resources, uncertain: bool, r: ChangeRecord)
    ensures Alone(resources, uncertain)(r).records == [r]
  {
    assert [r][1..] == [];
    assert SortBy(IdLe, [r][1..]) == [];
  }

  lemma NoAlones(resources: Resources, uncertain: bool)
    ensures FlatMap(RecordsOf, Map(Alone(resources, uncertain), [])) == []
  {
    assert Map(Alone(resources, uncertain), []) == [];
  }

  lemma {:induction false} AlonesHold(resources: Resources, uncertain: bool, records: seq<ChangeRecord>)
    ensures FlatMap(RecordsOf, Map(Alone(resources, uncertain), records)) == records
  {
    hide Present, Map, FlatMap, Alone;
    if records == [] {
      NoAlones(resources, uncertain);
    } else {
      var front, last := records[..|records| - 1], records[|records| - 1];
      var shown := Alone(resources, uncertain);
      AlonesHold(resources, uncertain, front);
      AloneHolds(resources, uncertain, last);
      MapFront(shown, records);
      FlatMapAppend(RecordsOf, Map(shown, front), [shown(last)]);
      FlatMapOne(RecordsOf, shown(last));
      assert records == front + [last];
    }
  }

  lemma GroupHolds(records: seq<ChangeRecord>, resources: Resources)
    ensures multiset(FlatMap(RecordsOf, GroupShown(records, resources))) == multiset(records)
  {
    if IsRetarget(records) {
      FlatMapOne(RecordsOf, Present(records, resources, false));
    } else {
      hide Present;
      AlonesHold(resources, false, records);
    }
  }

  lemma GroupsHold(certain: seq<ChangeRecord>, resources: Resources, keys: seq<string>)
    ensures multiset(FlatMap(RecordsOf, FlatMap(ShownIn(certain, resources), keys))) == multiset(FlatMap(GroupIn(certain), keys))
  {
    hide GroupShown, Filter, FlatMap, GroupIn;
    var f := ShownIn(certain, resources);
    forall k ensures multiset(FlatMap(RecordsOf, f(k))) == multiset(GroupIn(certain)(k)) { GroupHolds(GroupIn(certain)(k), resources); }
    FlatMapNested(f, RecordsOf, GroupIn(certain), keys);
  }

  lemma CertainHolds(changes: seq<ChangeRecord>, resources: Resources, typeLabel: string -> string)
    ensures multiset(FlatMap(RecordsOf, Certain(changes, resources, typeLabel))) == multiset(Filter(IsCertain, changes))
  {
    hide FirstKeys, GroupShown, Filter, FlatMap, SortBy, Key;
    var certain := Filter(IsCertain, changes);
    var keys := FirstKeys(certain);
    var f := ShownIn(certain, resources);
    FirstKeysExact(certain);
    GroupsCover(certain, keys);
    FlatMapPermutation(RecordsOf, Certain(changes, resources, typeLabel), FlatMap(f, keys));
    GroupsHold(certain, resources, keys);
  }

  lemma UncertainHolds(changes: seq<ChangeRecord>, resources: Resources)
    ensures multiset(FlatMap(RecordsOf, Uncertain(changes, resources))) == multiset(Filter(IsUncertain, changes))
  {
    var records := Filter(IsUncertain, changes);
    AlonesHold(resources, true, records);
    FlatMapPermutation(RecordsOf, Uncertain(changes, resources), Map(Alone(resources, true), records));
  }

  /**
    Every relationship change is presented exactly once: removals that discovery could not confirm among
    the uncertain presentations, all others among the certain ones.
   */
  lemma NothingLost(changes: seq<ChangeRecord>, resources: Resources, typeLabel: string -> string)
    ensures var certain, uncertain := Certain(changes, resources, typeLabel), Uncertain(changes, resources);
      && multiset(FlatMap(RecordsOf, certain)) + multiset(FlatMap(RecordsOf, uncertain)) == multiset(changes)
      && multiset(FlatMap(RecordsOf, uncertain)) == multiset(Filter(IsUncertain, changes))
  {
    CertainHolds(changes, resources, typeLabel);
    UncertainHolds(changes, resources);
    hide Certain, Uncertain;
    SplitBy(IsCertain, IsUncertain, changes);
  }

  // ----- what is paired -----

  /** The group that a certain presentation comes from. */
  lemma ShownOrigin(changes: seq<ChangeRecord>, resources: Resources, typeLabel: string -> string, p: Presentation) returns (k: string)
    requires p in Certain(changes, resources, typeLabel)
    ensures k in FirstKeys(Filter(IsCertain, changes)) && p in GroupShown(GroupIn(Filter(IsCertain, changes))(k), resources)
  {
    var certain := Filter(IsCertain, changes);
    var f := ShownIn(certain, resources);
    SortByElements(ShownLe(typeLabel), FlatMap(f, FirstKeys(certain)));
    hide SortBy, FlatMap, FirstKeys, GroupShown, GroupIn, Filter;
    k := FlatMapOrigin(f, FirstKeys(certain), p);
  }

  lemma GroupIsShown(changes: seq<ChangeRecord>, resources: Resources, typeLabel: string -> string, r: ChangeRecord, p: Presentation)
    requires r in Filter(IsCertain, changes) && p in GroupShown(GroupIn(Filter(IsCertain, changes))(Key(r)), resources)
    ensures p in Certain(changes, resources, typeLabel)
  {
    var certain := Filter(IsCertain, changes);
    var f := ShownIn(certain, resources);
    SortByElements(ShownLe(typeLabel), FlatMap(f, FirstKeys(certain)));
    FirstKeysExact(certain);
    hide SortBy, FlatMap, FirstKeys, GroupShown, GroupIn, Filter, Key;
    FlatMapMember(f, FirstKeys(certain), Key(r), p);
  }

  lemma GroupMember(s: seq<ChangeRecord>, k: string, r: ChangeRecord)
    ensures r in GroupIn(s)(k) <==> r in s && Key(r) == k
  {
    FilterMember(KeyIs(k), s, r);
  }

  predicate IsPair(records: seq<ChangeRecord>, removed: ChangeRecord, added: ChangeRecord) {
    removed.kind == REMOVAL && added.kind == ADDITION && (records == [removed, added] || records == [added, removed])
  }

  lemma RetargetPair(records: seq<ChangeRecord>) returns (removed: ChangeRecord, added: ChangeRecord)
    requires IsRetarget(records)
    ensures IsPair(records, removed, added)
  {
    removed, added := Filter(OfKind(REMOVAL), records)[0], Filter(OfKind(ADDITION), records)[0];
    FilterMember(OfKind(REMOVAL), records, removed);
    FilterMember(OfKind(ADDITION), records, added);
    hide Filter;
    assert removed != added;
    var i :| 0 <= i < 2 && records[i] == removed;
    var j :| 0 <= j < 2 && records[j] == added;
    assert records == [records[0], records[1]];
  }

  lemma PairIsRetarget(records: seq<ChangeRecord>, removed: ChangeRecord, added: ChangeRecord)
    requires IsPair(records, removed, added)
    ensures IsRetarget(records)
  {
    assert records[..1][..0] == [] && records[..1] == [records[0]];
    assert Filter(OfKind(REMOVAL), records[..1][..0]) == [] && Filter(OfKind(ADDITION), records[..1][..0]) == [];
    assert |Filter(OfKind(REMOVAL), records[..1])| == if records[0].kind == REMOVAL then 1 else 0;
    assert |Filter(OfKind(ADDITION), records[..1])| == if records[0].kind == ADDITION then 1 else 0;
  }

  lemma PairSorted(records: seq<ChangeRecord>, removed: ChangeRecord, added: ChangeRecord)
    requires IsPair(records, removed, added)
    ensures IsPair(SortBy(IdLe, records), removed, added)
  {
    SortTwo(IdLe, records[0], records[1]);
    assert records == [records[0], records[1]];
    hide SortBy, IdLe;
  }

  lemma FirstOfPair(records: seq<ChangeRecord>, removed: ChangeRecord, added: ChangeRecord)
    requires IsPair(records, removed, added)
    ensures FirstOf(OfKind(REMOVAL), records) == Some(removed) && FirstOf(OfKind(ADDITION), records) == Some(added)
  {
    assert records[1..] == [records[1]];
  }

  predicate SameEnd(a: ChangeRecord, b: ChangeRecord) {
    a.edge.source == b.edge.source && a.edge.relation == b.edge.relation
  }

  /** What a presentation of a pair shows: one subject and relation, its target before and its target now. */
  predicate ShowsPair(p: Presentation, removed: ChangeRecord, added: ChangeRecord, resources: Resources) {
    var source, was, now := added.edge.source, removed.edge.target, added.edge.target;
    && IsPair(p.records, removed, added) && SameEnd(removed, added)
    && p.subject == OrElse(After(resources, source), Before(resources, source))
    && p.beforeTarget == OrElse(Before(resources, was), After(resources, was))
    && p.afterTarget == OrElse(After(resources, now), Before(resources, now))
    && p.relation == added.edge.relation
  }

  /** The source of the second record reads on into the relation of the first. */
  ghost predicate Shifted(a: ChangeRecord, b: ChangeRecord) { exists x :: ShiftedBy(a, b, x) }

  predicate ShiftedBy(a: ChangeRecord, b: ChangeRecord, x: string) {
    b.edge.source == a.edge.source + [NUL] + x && a.edge.relation == x + [NUL] + b.edge.relation
  }

  lemma LongerSource(a: ChangeRecord, b: ChangeRecord)
    requires Key(a) == Key(b) && |a.edge.source| < |b.edge.source|
    ensures Shifted(a, b)
  {
    var n, m := |a.edge.source|, |b.edge.source|;
    var x := b.edge.source[n + 1..];
    assert Key(a)[..m] == b.edge.source && Key(a)[..n] == a.edge.source && Key(a)[n] == NUL;
    assert b.edge.source == a.edge.source + [NUL] + x;
    assert Key(a)[n + 1..] == a.edge.relation && Key(b)[n + 1..] == x + [NUL] + b.edge.relation;
    assert ShiftedBy(a, b, x);
  }

  lemma ShiftedShares(a: ChangeRecord, b: ChangeRecord)
    requires Shifted(a, b)
    ensures Key(a) == Key(b) && |a.edge.source| < |b.edge.source|
  {
    var x :| ShiftedBy(a, b, x);
    assert a.edge.source + [NUL] + (x + [NUL] + b.edge.relation) == a.edge.source + [NUL] + x + [NUL] + b.edge.relation;
  }

  lemma SameLength(a: ChangeRecord, b: ChangeRecord)
    requires Key(a) == Key(b) && |a.edge.source| == |b.edge.source|
    ensures SameEnd(a, b)
  {
    var n := |a.edge.source|;
    assert Key(a)[..n] == a.edge.source && Key(b)[..n] == b.edge.source;
    assert Key(a)[n + 1..] == a.edge.relation && Key(b)[n + 1..] == b.edge.relation;
  }

  /** Records share a key exactly when they share source and relation or one is the other, shifted. */
  lemma KeyMeans(a: ChangeRecord, b: ChangeRecord)
    ensures Key(a) == Key(b) <==> SameEnd(a, b) || Shifted(a, b) || Shifted(b, a)
    ensures Key(a) == Key(b) ==> (SameEnd(a, b) <==> |a.edge.source| == |b.edge.source|)
  {
    if Shifted(a, b) { ShiftedShares(a, b); }
    if Shifted(b, a) { ShiftedShares(b, a); }
    if Key(a) == Key(b) {
      if |a.edge.source| < |b.edge.source| {
        LongerSource(a, b);
      } else if |b.edge.source| < |a.edge.source| {
        LongerSource(b, a);
      } else {
        SameLength(a, b);
      }
    }
  }

  /** Shifting takes a separator in a relation and one in the other source. */
  lemma ShiftedHoldNul(a: ChangeRecord, b: ChangeRecord)
    requires Shifted(a, b)
    ensures NUL in a.edge.relation && NUL in b.edge.source
  {
    var x :| ShiftedBy(a, b, x);
    assert a.edge.relation[|x|] == NUL && b.edge.source[|a.edge.source|] == NUL;
  }

  lemma PlainRelationsKeep(a: ChangeRecord, b: ChangeRecord)
    requires Key(a) == Key(b) && NUL !in a.edge.relation && NUL !in b.edge.relation
    ensures SameEnd(a, b)
  {
    hide Key, Shifted;
    KeyMeans(a, b);
    if Shifted(a, b) { ShiftedHoldNul(a, b); }
    if Shifted(b, a) { ShiftedHoldNul(b, a); }
  }

  /**
    A certain presentation holds one change, or a removal and an addition of one key; such a pair is shown
    as one relationship exactly when the two sources are equally long.
   */
  lemma CertainShape(changes: seq<ChangeRecord>, resources: Resources, typeLabel: string -> string, p: Presentation)
    returns (removed: ChangeRecord, added: ChangeRecord)
    requires p in Certain(changes, resources, typeLabel)
    ensures !p.uncertain && (|p.records| == 1 || (IsPair(p.records, removed, added)
      && Key(removed) == Key(added) && removed in changes && added in changes
      && (ShowsPair(p, removed, added, resources) <==> |removed.edge.source| == |added.edge.source|)))
  {
    hide GroupIn, FirstKeys, Certain, Filter, FirstOf, SortBy, Join, Map, Key, Present;
    var certain := Filter(IsCertain, changes);
    var k := ShownOrigin(changes, resources, typeLabel, p);
    var group := GroupIn(certain)(k);
    if IsRetarget(group) {
      removed, added := RetargetPair(group);
      GroupMember(certain, k, removed);
      GroupMember(certain, k, added);
      FilterMember(IsCertain, changes, removed);
      FilterMember(IsCertain, changes, added);
      PairPresented(group, resources, removed, added);
    } else {
      var r := MapOrigin(Alone(resources, false), group, p);
      AloneHolds(resources, false, r);
      NotUncertain([r], resources);
      removed, added := r, r;
    }
  }

  lemma NotUncertain(records: seq<ChangeRecord>, resources: Resources)
    requires records != []
    ensures !Present(records, resources, false).uncertain
  {
  }

  lemma PairPresented(group: seq<ChangeRecord>, resources: Resources, removed: ChangeRecord, added: ChangeRecord)
    requires IsPair(group, removed, added) && Key(removed) == Key(added)
    ensures var p := Present(group, resources, false);
      && !p.uncertain && IsPair(p.records, removed, added)
      && (ShowsPair(p, removed, added, resources) <==> |removed.edge.source| == |added.edge.source|)
  {
    hide SortBy, Join, Map, FirstOf, Key, Before, After, Shifted;
    PairSorted(group, removed, added);
    FirstOfPair(group, removed, added);
    KeyMeans(removed, added);
  }

  /** A removal and an addition of one key are shown together exactly when nothing else has that key. */
  lemma PairedExactly(changes: seq<ChangeRecord>, resources: Resources, typeLabel: string -> string, r: ChangeRecord, a: ChangeRecord)
    requires r in changes && a in changes && IsCertain(r) && IsCertain(a)
    requires r.kind == REMOVAL && a.kind == ADDITION && Key(r) == Key(a)
    ensures (exists p :: p in Certain(changes, resources, typeLabel) && r in p.records && a in p.records)
      <==> |Filter(KeyIs(Key(r)), Filter(IsCertain, changes))| == 2
  {
    var certain := Filter(IsCertain, changes);
    var group := GroupIn(certain)(Key(r));
    FilterMember(IsCertain, changes, r);
    FilterMember(IsCertain, changes, a);
    GroupMember(certain, Key(r), r);
    GroupMember(certain, Key(r), a);
    if |group| == 2 {
      TwoMembers(group, r, a);
      PairIsRetarget(group, r, a);
      PairSorted(group, r, a);
      var p := Present(group, resources, false);
      GroupIsShown(changes, resources, typeLabel, r, p);
      assert r in p.records && a in p.records by { hide Certain, GroupIn; }
    } else {
      hide Certain;
      forall p | p in Certain(changes, resources, typeLabel) && r in p.records ensures a !in p.records {
        NotTogether(changes, resources, typeLabel, r, a, p);
      }
    }
  }

  lemma TwoMembers(records: seq<ChangeRecord>, r: ChangeRecord, a: ChangeRecord)
    requires |records| == 2 && r in records && a in records && r.kind == REMOVAL && a.kind == ADDITION
    ensures IsPair(records, r, a)
  {
    assert records == [records[0], records[1]];
    assert r != a;
  }

  lemma NotTogether(changes: seq<ChangeRecord>, resources: Resources, typeLabel: string -> string, r: ChangeRecord, a: ChangeRecord, p: Presentation)
    requires p in Certain(changes, resources, typeLabel) && r in p.records && r.kind == REMOVAL && a.kind == ADDITION
    requires |GroupIn(Filter(IsCertain, changes))(Key(r))| != 2
    ensures a !in p.records
  {
    hide Certain, FirstKeys, GroupIn, SortBy, Present, Filter, Map, Key;
    var certain := Filter(IsCertain, changes);
    var k := ShownOrigin(changes, resources, typeLabel, p);
    var group := GroupIn(certain)(k);
    if IsRetarget(group) {
      PresentRecords(group, resources);
      SortByElements(IdLe, group);
      GroupMember(certain, k, r);
    } else {
      var x := MapOrigin(Alone(resources, false), group, p);
      AloneHolds(resources, false, x);
      assert a != r;
    }
  }

  lemma PresentRecords(records: seq<ChangeRecord>, resources: Resources)
    requires records != []
    ensures Present(records, resources, false).records == SortBy(IdLe, records)
  {
  }

  lemma CollidingKeys(a: ChangeRecord, b: ChangeRecord)
    requires a.edge.source == "x" && a.edge.relation == [NUL] + "y" && b.edge.source == "x" + [NUL] && b.edge.relation == "y"
    ensures Key(a) == Key(b) && !SameEnd(a, b)
  {
    assert Key(a) == "x" + [NUL, NUL] + "y";
    assert Key(b) == "x" + [NUL, NUL] + "y";
    assert |a.edge.source| != |b.edge.source|;
  }

  /** Without plain keys, a removal and an addition of different relationships can be shown as one. */
  lemma ForeignPair(resources: Resources, typeLabel: string -> string) returns (a: ChangeRecord, b: ChangeRecord, p: Presentation)
    ensures p in Certain([a, b], resources, typeLabel) && a in p.records && b in p.records
    ensures a.kind == REMOVAL && b.kind == ADDITION && !SameEnd(a, b)
  {
    a := ChangeRecord("a", REMOVAL, "CONFIRMED", SnapshotEdge("a", "x", "t", [NUL] + "y"));
    b := ChangeRecord("b", ADDITION, "CONFIRMED", SnapshotEdge("b", "x" + [NUL], "u", "y"));
    CollidingKeys(a, b);
    FilterNothing(IsCertain, [a, b]);
    hide Key;
    FilterNothing(KeyIs(Key(a)), [a, b]);
    hide Filter, Certain;
    PairedExactly([a, b], resources, typeLabel, a, b);
    p :| p in Certain([a, b], resources, typeLabel) && a in p.records && b in p.records;
  }
}

/** The reported status is honest, and the result does not depend on how units are batched. */
module SystemdHonesty {
  import opened Ordering
  import opened Collections
  import opened SystemdDiscovery

  // ----- when nothing is noted -----

  /** A batch whose show output is complete and well formed. */
  ghost predicate GoodBatch(s: Sanitizers, batch: seq<string>, shown: Shown) {
    && shown.Lines?
    && !AnyBadBlock(s, Blocks(shown.lines))
    && Elems(batch) <= Names(ShownUnits(s, shown.lines))
  }

  lemma BatchQuiet(s: Sanitizers, batch: seq<string>, shown: Shown)
    ensures BatchReasons(s, batch, shown) == {} <==> GoodBatch(s, batch, shown)
  {
    hide AnyBadBlock, ShownUnits, Blocks;
    if BatchReasons(s, batch, shown) == {} {
      assert COMMAND_FAILED !in BatchReasons(s, batch, shown) && TRUNCATED !in BatchReasons(s, batch, shown);
      assert SHOW_RECORD_MALFORMED !in BatchReasons(s, batch, shown) && SHOW_RECORD_MISSING !in BatchReasons(s, batch, shown);
    }
  }

  lemma {:induction false} BatchesQuiet(s: Sanitizers, batches: seq<seq<string>>, show: seq<string> -> Shown)
    ensures AllReasons(s, batches, show) == {} <==> forall batch :: batch in batches ==> GoodBatch(s, batch, show(batch))
  {
    hide BatchReasons, GoodBatch;
    if batches != [] {
      var n := |batches| - 1;
      assert batches == batches[..n] + [batches[n]];
      BatchesQuiet(s, batches[..n], show);
      BatchQuiet(s, batches[n], show(batches[n]));
      assert AllReasons(s, batches, show) == AllReasons(s, batches[..n], show) + BatchReasons(s, batches[n], show(batches[n]));
      if AllReasons(s, batches, show) == {} {
        assert forall x :: x in AllReasons(s, batches[..n], show) ==> x in AllReasons(s, batches, show);
        assert AllReasons(s, batches[..n], show) == {};
        assert forall x :: x in BatchReasons(s, batches[n], show(batches[n])) ==> x in AllReasons(s, batches, show);
        assert BatchReasons(s, batches[n], show(batches[n])) == {};
      }
    }
  }

  lemma ListQuiet(s: Sanitizers, lines: seq<string>)
    ensures ListReasons(s, lines) == {} <==>
      (forall line :: line in lines ==> !RowOf(s, line).BadRow?) && |ListedUnits(s, lines)| <= MAX_SYSTEMD_SERVICES
  {
    hide RowOf, ListedUnits;
    if ListReasons(s, lines) == {} {
      assert LIST_ROW_MALFORMED !in ListReasons(s, lines) && TRUNCATED !in ListReasons(s, lines);
    }
  }

  // ----- batches cover the units -----

  lemma {:induction false} ChunksCover(units: seq<string>, size: nat)
    requires size > 0
    ensures forall batch, u :: batch in Chunks(units, size) && u in batch ==> u in units
    ensures forall u :: u in units ==> exists batch :: batch in Chunks(units, size) && u in batch
    decreases |units|
  {
    if |units| > size {
      var first, rest := units[..size], units[size..];
      ChunksCover(rest, size);
      assert units == first + rest;
      forall u | u in units ensures exists batch :: batch in Chunks(units, size) && u in batch {
        if u in first {
          assert first in Chunks(units, size);
        } else {
          var batch :| batch in Chunks(rest, size) && u in batch;
          assert batch in Chunks(units, size);
        }
      }
    } else if units != [] {
      assert units in Chunks(units, size);
    }
  }

  // ----- the services -----

  lemma BatchMember(s: Sanitizers, base: map<string, Unit>, shown: Shown, u: Unit)
    requires u in BatchUnits(s, base, shown) && forall k :: k in base ==> base[k].unit == k
    ensures shown.Lines?
    ensures exists r :: r in ShownUnits(s, shown.lines) && r.unit in base && r.unit == u.unit && u == Merge(base[r.unit], r)
  {
    hide ShownUnits;
    var r := FilterMapOrigin(MergeInto(base), ShownUnits(s, shown.lines), u);
    assert r.unit in base && Merge(base[r.unit], r) == u;
    hide FilterMap;
  }

  lemma BaseUnits(s: Sanitizers, lines: seq<string>)
    ensures var base := BaseOf(s, lines);
      && (forall k :: k in base ==> base[k].unit == k)
      && (forall k :: k in base <==> k in UnitNames(s, lines))
  {
    var units := Truncated(ListedUnits(s, lines));
    AssociateByKeys(UnitName, units);
    hide AssociateBy, ListedUnits, Truncated, Map;
    forall k ensures k in BaseOf(s, lines) <==> k in Map(UnitName, units) {
      if k in BaseOf(s, lines) { MapMember(UnitName, units, BaseOf(s, lines)[k]); }
      if k in Map(UnitName, units) { var u := MapOrigin(UnitName, units, k); }
    }
  }

  /** Every listed unit that some good batch asked for comes back merged. */
  lemma GoodBatchGives(s: Sanitizers, base: map<string, Unit>, batch: seq<string>, shown: Shown, name: string)
    requires GoodBatch(s, batch, shown) && name in batch && name in base && base[name].unit == name
    ensures exists u :: u in BatchUnits(s, base, shown) && u.unit == name
  {
    hide AnyBadBlock, ShownUnits, FilterMap;
    assert name in Elems(batch);
    var r :| r in ShownUnits(s, shown.lines) && r.unit == name;
    FilterMapElements(MergeInto(base), ShownUnits(s, shown.lines));
    assert MergeInto(base)(r) == Some(Merge(base[name], r));
    assert Merge(base[name], r) in BatchUnits(s, base, shown);
  }

  /** A service is merged from the listing and from a show record of its own. */
  ghost predicate OwnRecord(s: Sanitizers, base: map<string, Unit>, batches: seq<seq<string>>, show: seq<string> -> Shown, u: Unit) {
    exists batch, r ::
      && batch in batches && show(batch).Lines?
      && r in ShownUnits(s, show(batch).lines) && r.unit == u.unit && r.unit in base
      && u == Merge(base[r.unit], r)
  }

  lemma ServicesOwned(s: Sanitizers, base: map<string, Unit>, batches: seq<seq<string>>, show: seq<string> -> Shown, u: Unit)
    requires forall k :: k in base ==> base[k].unit == k
    requires u in LastByKey(UnitName, FlatMap(BatchOf(s, base, show), batches))
    ensures OwnRecord(s, base, batches, show, u)
  {
    LastByKeyMember(UnitName, FlatMap(BatchOf(s, base, show), batches), u);
    hide LastByKey, FlatMap, ShownUnits, BatchUnits;
    var batch := FlatMapOrigin(BatchOf(s, base, show), batches, u);
    BatchMember(s, base, show(batch), u);
  }

  lemma ServicesComplete(s: Sanitizers, base: map<string, Unit>, batches: seq<seq<string>>, show: seq<string> -> Shown, name: string)
    requires name in base && base[name].unit == name
    requires exists batch :: batch in batches && name in batch
    requires forall batch :: batch in batches ==> GoodBatch(s, batch, show(batch))
    ensures exists u :: u in LastByKey(UnitName, FlatMap(BatchOf(s, base, show), batches)) && u.unit == name
  {
    var all := FlatMap(BatchOf(s, base, show), batches);
    var batch :| batch in batches && name in batch;
    AssociateByKeys(UnitName, all);
    hide LastByKey, FlatMap, GoodBatch, BatchUnits, AssociateBy;
    GoodBatchGives(s, base, batch, show(batch), name);
    var u :| u in BatchUnits(s, base, show(batch)) && u.unit == name;
    FlatMapMember(BatchOf(s, base, show), batches, batch, u);
    assert UnitName(u) in AssociateBy(UnitName, all);
    var kept := AssociateBy(UnitName, all)[name];
    LastByKeyMember(UnitName, all, kept);
  }

  // ----- honesty -----

  /** Everything that must hold for nothing to be noted. */
  ghost predicate Clean(s: Sanitizers, lines: seq<string>, show: seq<string> -> Shown, size: nat)
    requires size > 0
  {
    && (forall line :: line in lines ==> !RowOf(s, line).BadRow?)
    && |ListedUnits(s, lines)| <= MAX_SYSTEMD_SERVICES
    && (forall batch :: batch in Chunks(UnitNames(s, lines), size) ==> GoodBatch(s, batch, show(batch)))
  }

  lemma RowsShape(s: Sanitizers, lines: seq<string>, show: seq<string> -> Shown, size: nat)
    requires size > 0
    ensures var d := Discovered(s, Rows(lines), show, size);
      var batches := Chunks(UnitNames(s, lines), size);
      && d.reasons == ListReasons(s, lines) + AllReasons(s, batches, show)
      && d.status == (if d.reasons == {} then DISCOVERED else PARTIAL)
      && d.services == LastByKey(UnitName, FlatMap(BatchOf(s, BaseOf(s, lines), show), batches))
  {
    hide ListReasons, AllReasons, UnitNames, Chunks, LastByKey, FlatMap, BaseOf;
  }

  lemma EmptyUnion(a: set<Reason>, b: set<Reason>)
    ensures a + b == {} <==> a == {} && b == {}
  {
    if a + b == {} {
      assert forall x :: x in a ==> x in a + b;
      assert forall x :: x in b ==> x in a + b;
    }
  }

  /**
    DISCOVERED means exactly that every listing row was well formed, nothing was cut off and every batch
    was shown completely; PARTIAL means exactly that some reason is given.
   */
  lemma StatusExact(s: Sanitizers, lines: seq<string>, show: seq<string> -> Shown, size: nat)
    requires size > 0
    ensures var d := Discovered(s, Rows(lines), show, size);
      && (d.status == DISCOVERED <==> Clean(s, lines, show, size))
      && (d.status == PARTIAL <==> d.reasons != {})
      && (d.status == DISCOVERED || d.status == PARTIAL)
  {
    hide Discovered, ListReasons, AllReasons, GoodBatch, RowOf, ListedUnits, UnitNames, Chunks, LastByKey, FlatMap, BaseOf;
    var batches := Chunks(UnitNames(s, lines), size);
    RowsShape(s, lines, show, size);
    ListQuiet(s, lines);
    BatchesQuiet(s, batches, show);
    EmptyUnion(ListReasons(s, lines), AllReasons(s, batches, show));
  }

  lemma AllNames(s: Sanitizers, lines: seq<string>)
    requires |ListedUnits(s, lines)| <= MAX_SYSTEMD_SERVICES
    ensures forall name :: name in Names(ListedUnits(s, lines)) <==> name in BaseOf(s, lines)
  {
    hide ListedUnits, AssociateBy, Map;
    BaseUnits(s, lines);
    NamesAre(ListedUnits(s, lines));
  }

  /** Under DISCOVERED the services are exactly the listed units, each merged from its own show record. */
  lemma DiscoveredHonest(s: Sanitizers, lines: seq<string>, show: seq<string> -> Shown, size: nat)
    requires size > 0 && Discovered(s, Rows(lines), show, size).status == DISCOVERED
    ensures var d := Discovered(s, Rows(lines), show, size);
      && Names(d.services) == Names(ListedUnits(s, lines))
      && (forall u, v :: u in d.services && v in d.services && u.unit == v.unit ==> u == v)
      && (forall u :: u in d.services ==> OwnRecord(s, BaseOf(s, lines), Chunks(UnitNames(s, lines), size), show, u))
  {
    hide Discovered, LastByKey, FlatMap, BaseOf, Chunks, ListedUnits, UnitNames, OwnRecord, GoodBatch, RowOf, Map, BatchOf, ListReasons, AllReasons;
    StatusExact(s, lines, show, size);
    RowsShape(s, lines, show, size);
    AllNames(s, lines);
    var base, batches := BaseOf(s, lines), Chunks(UnitNames(s, lines), size);
    var services := Discovered(s, Rows(lines), show, size).services;
    LastByKeyDistinct(UnitName, FlatMap(BatchOf(s, base, show), batches));
    BaseUnits(s, lines);
    forall u | u in services ensures OwnRecord(s, base, batches, show, u) { ServicesOwned(s, base, batches, show, u); }
    forall name ensures name in Names(services) <==> name in base { ServiceNames(s, lines, show, size, name); }
  }

  lemma ServiceNames(s: Sanitizers, lines: seq<string>, show: seq<string> -> Shown, size: nat, name: string)
    requires size > 0 && Clean(s, lines, show, size)
    ensures var services := LastByKey(UnitName, FlatMap(BatchOf(s, BaseOf(s, lines), show), Chunks(UnitNames(s, lines), size)));
      name in Names(services) <==> name in BaseOf(s, lines)
  {
    hide LastByKey, FlatMap, BaseOf, Chunks, ListedUnits, UnitNames, OwnRecord, GoodBatch, RowOf, BatchOf;
    var base, batches := BaseOf(s, lines), Chunks(UnitNames(s, lines), size);
    var services := LastByKey(UnitName, FlatMap(BatchOf(s, base, show), batches));
    BaseUnits(s, lines);
    ChunksCover(UnitNames(s, lines), size);
    if name in base { ServicesComplete(s, base, batches, show, name); }
    if u :| u in services && u.unit == name {
      ServicesOwned(s, base, batches, show, u);
      OwnedKnown(s, base, batches, show, u);
    }
  }

  lemma OwnedKnown(s: Sanitizers, base: map<string, Unit>, batches: seq<seq<string>>, show: seq<string> -> Shown, u: Unit)
    requires OwnRecord(s, base, batches, show, u)
    ensures u.unit in base
  {
    hide ShownUnits;
  }

  lemma NamesAre(units: seq<Unit>)
    ensures forall name :: name in Names(units) <==> name in Map(UnitName, units)
  {
    hide Map;
    forall name ensures name in Names(units) <==> name in Map(UnitName, units) {
      if u :| u in units && u.unit == name { MapMember(UnitName, units, u); }
      if name in Map(UnitName, units) { var u := MapOrigin(UnitName, units, name); }
    }
  }

  // ----- batch independence -----

  /** Show records depend on the unit alone, not on which units are asked for together. */
  ghost predicate PerUnit(s: Sanitizers, show: seq<string> -> Shown, record: string -> Unit) {
    forall batch, r :: show(batch).Lines? && r in ShownUnits(s, show(batch).lines) ==> r == record(r.unit)
  }

  lemma OwnedBy(s: Sanitizers, base: map<string, Unit>, batches: seq<seq<string>>, show: seq<string> -> Shown, record: string -> Unit, u: Unit)
    requires PerUnit(s, show, record) && OwnRecord(s, base, batches, show, u)
    ensures u.unit in base && u == Merge(base[u.unit], record(u.unit))
  {
    hide ShownUnits, Merge;
  }

  lemma ServicesAgree(s: Sanitizers, lines: seq<string>, show: seq<string> -> Shown, record: string -> Unit, size: nat, other: nat, u: Unit)
    requires size > 0 && other > 0 && PerUnit(s, show, record)
    requires Discovered(s, Rows(lines), show, size).status == DISCOVERED
    requires Discovered(s, Rows(lines), show, other).status == DISCOVERED
    requires u in Discovered(s, Rows(lines), show, size).services
    ensures u in Discovered(s, Rows(lines), show, other).services
  {
    hide Discovered, OwnRecord, PerUnit, BaseOf, ListedUnits, Chunks, UnitNames, Merge;
    DiscoveredHonest(s, lines, show, size);
    DiscoveredHonest(s, lines, show, other);
    assert u.unit in Names(Discovered(s, Rows(lines), show, size).services);
    var v :| v in Discovered(s, Rows(lines), show, other).services && v.unit == u.unit;
    OwnedBy(s, BaseOf(s, lines), Chunks(UnitNames(s, lines), size), show, record, u);
    OwnedBy(s, BaseOf(s, lines), Chunks(UnitNames(s, lines), other), show, record, v);
  }

  /** What is discovered does not depend on the batch size. */
  lemma BatchIndependent(s: Sanitizers, lines: seq<string>, show: seq<string> -> Shown, record: string -> Unit, size: nat, other: nat)
    requires size > 0 && other > 0 && PerUnit(s, show, record)
    requires Discovered(s, Rows(lines), show, size).status == DISCOVERED
    requires Discovered(s, Rows(lines), show, other).status == DISCOVERED
    ensures Discovered(s, Rows(lines), show, size) == Discovered(s, Rows(lines), show, other)
  {
    hide Discovered, PerUnit, BaseOf, Chunks, UnitNames, LastByKey, FlatMap, BatchOf, ListReasons, AllReasons;
    RowsShape(s, lines, show, size);
    RowsShape(s, lines, show, other);
    var d, e := Discovered(s, Rows(lines), show, size), Discovered(s, Rows(lines), show, other);
    forall u ensures u in d.services <==> u in e.services {
      if u in d.services { ServicesAgree(s, lines, show, record, size, other, u); }
      if u in e.services { ServicesAgree(s, lines, show, record, other, size, u); }
    }
    LastByKeyEqual(UnitName, FlatMap(BatchOf(s, BaseOf(s, lines), show), Chunks(UnitNames(s, lines), size)),
      FlatMap(BatchOf(s, BaseOf(s, lines), show), Chunks(UnitNames(s, lines), other)));
  }
}

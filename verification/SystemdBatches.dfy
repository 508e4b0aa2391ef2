/** When show output is the records of the units asked for, one after another, batching does not matter at all. */
module SystemdBatches {
  import opened Ordering
  import opened Collections
  import opened SystemdDiscovery
  import opened SystemdHonesty

  /** The records of the units, separated by empty lines. */
  function Recorded(record: string -> seq<string>, batch: seq<string>): seq<string> {
    if batch == [] then []
    else if |batch| == 1 then record(batch[0])
    else Recorded(record, batch[..|batch| - 1]) + [""] + record(batch[|batch| - 1])
  }

  function UnitAt(s: Sanitizers, record: string -> seq<string>, name: string): Option<Unit> { UnitOfBlock(s)(record(name)) }

  /** Every unit has one record, free of empty lines and about itself, and is shown by it. */
  ghost predicate OnePerUnit(s: Sanitizers, show: seq<string> -> Shown, record: string -> seq<string>) {
    && (forall name :: "" !in record(name) && (UnitAt(s, record, name).Some? ==> UnitAt(s, record, name).value.unit == name))
    && (forall batch :: batch != [] ==> show(batch) == Lines(Recorded(record, batch)))
  }

  // ----- one batch -----

  lemma {:induction false} BlockGrows(a: seq<string>, b: seq<string>)
    requires "" !in b
    ensures var blocks := Blocks(a); Blocks(a + b) == blocks[..|blocks| - 1] + [blocks[|blocks| - 1] + b]
  {
    var blocks := Blocks(a);
    if b == [] {
      assert a + b == a;
      assert blocks[|blocks| - 1] + b == blocks[|blocks| - 1];
    } else {
      var n := |b| - 1;
      assert b == b[..n] + [b[n]] && b[n] in b;
      BlockGrows(a, b[..n]);
      assert (a + b)[..|a + b| - 1] == a + b[..n];
      assert blocks[|blocks| - 1] + b == blocks[|blocks| - 1] + b[..n] + [b[n]];
    }
  }

  lemma BlockCloses(a: seq<string>)
    ensures Blocks(a + [""]) == Blocks(a) + [[]]
  {
    assert (a + [""])[..|a|] == a;
  }

  lemma {:induction false} BlocksRecorded(record: string -> seq<string>, batch: seq<string>)
    requires batch != [] && forall name :: "" !in record(name)
    ensures Blocks(Recorded(record, batch)) == Map(record, batch)
  {
    if |batch| == 1 {
      BlockGrows([], record(batch[0]));
      assert [] + record(batch[0]) == record(batch[0]);
      assert Map(record, batch) == [record(batch[0])];
    } else {
      var n := |batch| - 1;
      BlocksRecorded(record, batch[..n]);
      var front := Recorded(record, batch[..n]);
      BlockCloses(front);
      BlockGrows(front + [""], record(batch[n]));
      MapFront(record, batch);
      var blocks := Blocks(front) + [[]];
      assert blocks[..|blocks| - 1] == Blocks(front) && [] + record(batch[n]) == record(batch[n]);
    }
  }

  lemma BadRecorded(s: Sanitizers, record: string -> seq<string>, batch: seq<string>)
    requires batch != [] && forall name :: "" !in record(name)
    ensures AnyBadBlock(s, Blocks(Recorded(record, batch))) <==> exists name :: name in batch && BadBlock(s, record(name))
  {
    BlocksRecorded(record, batch);
    hide Blocks, Recorded, BadBlock, Map;
    if name :| name in batch && BadBlock(s, record(name)) { MapMember(record, batch, name); }
    if b :| b in Map(record, batch) && BadBlock(s, b) { var name := MapOrigin(record, batch, b); }
  }

  /** Where equal keys mean equal elements, keeping the last of each key keeps everything. */
  lemma LastByKeyAll<V>(key: V -> string, s: seq<V>, v: V)
    requires forall x, y :: x in s && y in s && key(x) == key(y) ==> x == y
    ensures v in LastByKey(key, s) <==> v in s
  {
    LastByKeyMember(key, s, v);
    AssociateByKeys(key, s);
    hide AssociateBy, LastByKey;
  }

  lemma ShownRecorded(s: Sanitizers, show: seq<string> -> Shown, record: string -> seq<string>, batch: seq<string>, r: Unit)
    requires batch != [] && OnePerUnit(s, show, record)
    ensures r in ShownUnits(s, Recorded(record, batch)) <==> r.unit in batch && UnitAt(s, record, r.unit) == Some(r)
  {
    BlocksRecorded(record, batch);
    hide Blocks, Recorded, UnitOfBlock, Map, LastByKey, FilterMap;
    var blocks := Map(record, batch);
    var units := FilterMap(UnitOfBlock(s), blocks);
    forall x | x in units ensures x.unit in batch && UnitAt(s, record, x.unit) == Some(x) { RecordedOrigin(s, show, record, batch, x); }
    forall x, y | x in units && y in units && UnitName(x) == UnitName(y) ensures x == y {}
    LastByKeyAll(UnitName, units, r);
    if r.unit in batch && UnitAt(s, record, r.unit) == Some(r) {
      MapMember(record, batch, r.unit);
      FilterMapElements(UnitOfBlock(s), blocks);
    }
  }

  lemma RecordedOrigin(s: Sanitizers, show: seq<string> -> Shown, record: string -> seq<string>, batch: seq<string>, x: Unit)
    requires OnePerUnit(s, show, record) && x in FilterMap(UnitOfBlock(s), Map(record, batch))
    ensures x.unit in batch && UnitAt(s, record, x.unit) == Some(x)
  {
    hide UnitOfBlock, Map, FilterMap;
    var b := FilterMapOrigin(UnitOfBlock(s), Map(record, batch), x);
    var name := MapOrigin(record, batch, b);
    assert UnitAt(s, record, name) == Some(x);
  }

  // ----- the reasons -----

  ghost predicate SomeBad(s: Sanitizers, record: string -> seq<string>, units: seq<string>) {
    exists name :: name in units && BadBlock(s, record(name))
  }

  ghost predicate SomeMissing(s: Sanitizers, record: string -> seq<string>, units: seq<string>) {
    exists name :: name in units && UnitAt(s, record, name).None?
  }

  lemma BatchMissing(s: Sanitizers, show: seq<string> -> Shown, record: string -> seq<string>, batch: seq<string>)
    requires batch != [] && OnePerUnit(s, show, record)
    ensures Elems(batch) <= Names(ShownUnits(s, Recorded(record, batch))) <==> !SomeMissing(s, record, batch)
  {
    var shown := ShownUnits(s, Recorded(record, batch));
    hide Recorded, ShownUnits, UnitAt;
    forall name | name in batch ensures name in Names(shown) <==> UnitAt(s, record, name).Some? {
      if UnitAt(s, record, name).Some? { ShownRecorded(s, show, record, batch, UnitAt(s, record, name).value); }
      if u :| u in shown && u.unit == name { ShownRecorded(s, show, record, batch, u); }
    }
  }

  lemma BatchReasonsAre(s: Sanitizers, show: seq<string> -> Shown, record: string -> seq<string>, batch: seq<string>)
    requires batch != [] && OnePerUnit(s, show, record)
    ensures BatchReasons(s, batch, show(batch)) ==
      Flag(SomeBad(s, record, batch), SHOW_RECORD_MALFORMED) + Flag(SomeMissing(s, record, batch), SHOW_RECORD_MISSING)
  {
    BadRecorded(s, record, batch);
    BatchMissing(s, show, record, batch);
    hide Recorded, ShownUnits, UnitAt, Blocks, AnyBadBlock, BadBlock, SomeMissing;
  }

  ghost predicate Nonempty(batches: seq<seq<string>>) { forall b :: b in batches ==> b != [] }

  lemma {:induction false} AllReasonsAre(s: Sanitizers, show: seq<string> -> Shown, record: string -> seq<string>, batches: seq<seq<string>>, x: Reason)
    requires Nonempty(batches) && OnePerUnit(s, show, record)
    ensures x in AllReasons(s, batches, show) <==>
      || (x == SHOW_RECORD_MALFORMED && exists b :: b in batches && SomeBad(s, record, b))
      || (x == SHOW_RECORD_MISSING && exists b :: b in batches && SomeMissing(s, record, b))
  {
    hide SomeBad, SomeMissing, OnePerUnit, BatchReasons;
    if batches != [] {
      var front, last := batches[..|batches| - 1], batches[|batches| - 1];
      assert batches == front + [last] && last in batches;
      forall b | b in front ensures b != [] { assert b in batches; }
      AllReasonsAre(s, show, record, front, x);
      BatchReasonsAre(s, show, record, last);
    }
  }

  lemma {:induction false} ChunksNonempty(units: seq<string>, size: nat)
    requires size > 0
    ensures Nonempty(Chunks(units, size))
    decreases |units|
  {
    if |units| > size { ChunksNonempty(units[size..], size); }
  }

  lemma ChunksSome(s: Sanitizers, record: string -> seq<string>, units: seq<string>, size: nat)
    requires size > 0
    ensures SomeBad(s, record, units) <==> exists b :: b in Chunks(units, size) && SomeBad(s, record, b)
    ensures SomeMissing(s, record, units) <==> exists b :: b in Chunks(units, size) && SomeMissing(s, record, b)
  {
    ChunksCover(units, size);
    hide Chunks, BadBlock, UnitAt;
    var batches := Chunks(units, size);
    if name :| name in units && BadBlock(s, record(name)) {
      var b :| b in batches && name in b;
      assert SomeBad(s, record, b);
    }
    if name :| name in units && UnitAt(s, record, name).None? {
      var b :| b in batches && name in b;
      assert SomeMissing(s, record, b);
    }
  }

  /** The reasons are those of the single units. */
  lemma ChunkReasons(s: Sanitizers, show: seq<string> -> Shown, record: string -> seq<string>, units: seq<string>, size: nat)
    requires size > 0 && OnePerUnit(s, show, record)
    ensures AllReasons(s, Chunks(units, size), show) ==
      Flag(SomeBad(s, record, units), SHOW_RECORD_MALFORMED) + Flag(SomeMissing(s, record, units), SHOW_RECORD_MISSING)
  {
    hide Chunks, AllReasons, OnePerUnit, SomeBad, SomeMissing;
    ChunksNonempty(units, size);
    ChunksSome(s, record, units, size);
    forall x ensures x in AllReasons(s, Chunks(units, size), show) <==>
      (x == SHOW_RECORD_MALFORMED && SomeBad(s, record, units)) || (x == SHOW_RECORD_MISSING && SomeMissing(s, record, units))
    {
      AllReasonsAre(s, show, record, Chunks(units, size), x);
    }
  }

  // ----- the services -----

  /** The service that a listed unit with a record becomes. */
  predicate Served(s: Sanitizers, record: string -> seq<string>, base: map<string, Unit>, units: seq<string>, u: Unit) {
    u.unit in units && u.unit in base && UnitAt(s, record, u.unit).Some? && u == Merge(base[u.unit], UnitAt(s, record, u.unit).value)
  }

  lemma MergeKeepsName(base: Unit, shown: Unit)
    ensures Merge(base, shown).unit == base.unit
  {
  }

  lemma ServedMember(base: map<string, Unit>, shown: seq<Unit>, u: Unit)
    requires forall k :: k in base ==> base[k].unit == k
    ensures u in FilterMap(MergeInto(base), shown) <==> exists r :: r in shown && r.unit == u.unit && r.unit in base && u == Merge(base[r.unit], r)
  {
    FilterMapElements(MergeInto(base), shown);
    hide FilterMap, Merge;
    if u in FilterMap(MergeInto(base), shown) {
      var r :| r in shown && MergeInto(base)(r) == Some(u);
      MergeKeepsName(base[r.unit], r);
    }
    if r :| r in shown && r.unit == u.unit && r.unit in base && u == Merge(base[r.unit], r) { assert MergeInto(base)(r) == Some(u); }
  }

  lemma BatchServes(s: Sanitizers, show: seq<string> -> Shown, record: string -> seq<string>, base: map<string, Unit>, batch: seq<string>, u: Unit)
    requires batch != [] && OnePerUnit(s, show, record) && forall k :: k in base ==> base[k].unit == k
    ensures u in BatchUnits(s, base, show(batch)) <==> Served(s, record, base, batch, u)
  {
    hide Recorded, ShownUnits, UnitAt, FilterMap, Merge;
    var shown := ShownUnits(s, Recorded(record, batch));
    assert BatchUnits(s, base, show(batch)) == FilterMap(MergeInto(base), shown);
    ServedMember(base, shown, u);
    hide MergeInto;
    if r :| r in shown && r.unit == u.unit && r.unit in base && u == Merge(base[r.unit], r) { ShownRecorded(s, show, record, batch, r); }
    if Served(s, record, base, batch, u) { ShownRecorded(s, show, record, batch, UnitAt(s, record, u.unit).value); }
  }

  lemma ChunksServe(s: Sanitizers, show: seq<string> -> Shown, record: string -> seq<string>, base: map<string, Unit>, units: seq<string>, size: nat, u: Unit)
    requires size > 0 && OnePerUnit(s, show, record) && forall k :: k in base ==> base[k].unit == k
    ensures u in LastByKey(UnitName, FlatMap(BatchOf(s, base, show), Chunks(units, size))) <==> Served(s, record, base, units, u)
  {
    ChunksNonempty(units, size);
    ChunksCover(units, size);
    hide Chunks, OnePerUnit, UnitAt, Merge, BatchUnits, FlatMap, LastByKey;
    var batches := Chunks(units, size);
    var all := FlatMap(BatchOf(s, base, show), batches);
    forall v ensures v in all <==> Served(s, record, base, units, v) {
      if v in all {
        var batch := FlatMapOrigin(BatchOf(s, base, show), batches, v);
        BatchServes(s, show, record, base, batch, v);
      }
      if Served(s, record, base, units, v) {
        var batch :| batch in batches && v.unit in batch;
        BatchServes(s, show, record, base, batch, v);
        FlatMapMember(BatchOf(s, base, show), batches, batch, v);
      }
    }
    LastByKeyAll(UnitName, all, u);
  }

  /** For every listing, whatever its rows and records are like, any two batch sizes discover the same. */
  lemma BatchesDoNotMatter(s: Sanitizers, listing: Listing, show: seq<string> -> Shown, record: string -> seq<string>, size: nat, other: nat)
    requires size > 0 && other > 0 && OnePerUnit(s, show, record)
    ensures Discovered(s, listing, show, size) == Discovered(s, listing, show, other)
  {
    if listing.Rows? {
      var lines := listing.lines;
      var base, units := BaseOf(s, lines), UnitNames(s, lines);
      hide Discovered, OnePerUnit, BaseOf, Chunks, UnitNames, LastByKey, FlatMap, BatchOf, ListReasons, AllReasons, Served, SomeBad, SomeMissing;
      RowsShape(s, lines, show, size);
      RowsShape(s, lines, show, other);
      BaseUnits(s, lines);
      ChunkReasons(s, show, record, units, size);
      ChunkReasons(s, show, record, units, other);
      var a, b := FlatMap(BatchOf(s, base, show), Chunks(units, size)), FlatMap(BatchOf(s, base, show), Chunks(units, other));
      forall u ensures u in LastByKey(UnitName, a) <==> u in LastByKey(UnitName, b) {
        ChunksServe(s, show, record, base, units, size, u);
        ChunksServe(s, show, record, base, units, other, u);
      }
      LastByKeyEqual(UnitName, a, b);
    }
  }
}

/**
  What recovery and a trusted index give back.

  A *ledger* records which snapshot each identifier was issued for.  Identifiers are random UUIDs,
  so one identifier stands for one snapshot; readable files and index entries agree with the ledger.
 */
module StoreRecovery {
  import opened Ordering
  import opened Collections
  import opened Snapshots
  import opened SnapshotStore
  import opened History

  type Ledger = map<string, Snapshot>

  ghost function ReadableMetadata(cfg: Config, d: Disk): set<Metadata> {
    set id | id in d.files && Load(cfg, d, id).Some? :: ToMetadata(Load(cfg, d, id).value)
  }

  ghost function ScannedMetadata(cfg: Config, d: Disk, scan: seq<string>): set<Metadata> {
    set id | id in scan && Load(cfg, d, id).Some? :: ToMetadata(Load(cfg, d, id).value)
  }

  lemma {:induction false} Enumerate(ids: set<string>, n: nat) returns (listed: seq<string>)
    requires n <= |ids|
    ensures Distinct(listed) && |listed| == n && forall id :: id in listed ==> id in ids
  {
    listed := [];
    if n > 0 {
      var id :| id in ids;
      var rest := Enumerate(ids - {id}, n - 1);
      listed := rest + [id];
    }
  }

  /** Every directory can be scanned. */
  lemma ScanExists(d: Disk) returns (scan: seq<string>)
    ensures IsScan(d, scan)
  {
    assert |d.files.Keys| == |d.files|;
    scan := Enumerate(d.files.Keys, if |d.files| <= MAX_SNAPSHOT_FILES_SCANNED then |d.files| else MAX_SNAPSHOT_FILES_SCANNED);
  }

  lemma LoadedId(cfg: Config, d: Disk, id: string)
    ensures Load(cfg, d, id).Some? ==> Load(cfg, d, id).value.snapshotId == id && id in d.files
  {
    hide Validate;
  }

  lemma ReadableIdsUnique(cfg: Config, d: Disk, scan: seq<string>)
    ensures IdsUnique(ReadableMetadata(cfg, d))
    ensures IdsUnique(ScannedMetadata(cfg, d, scan))
  {
  }

  /** With at most 200 files, recovery looks at every one of them. */
  lemma ScanCoversAll(d: Disk, scan: seq<string>)
    requires IsScan(d, scan) && |d.files| <= MAX_SNAPSHOT_FILES_SCANNED
    ensures Elems(scan) == d.files.Keys
  {
    DistinctCardinality(scan);
    assert |d.files.Keys| == |d.files|;
    SubsetSize(Elems(scan), d.files.Keys);
  }

  lemma LoadedMetadata(cfg: Config, d: Disk, scan: seq<string>)
    requires Distinct(scan)
    ensures Distinct(FilterMap(LoadMetadata(cfg, d), scan))
    ensures UniqueBy(MetadataId, FilterMap(LoadMetadata(cfg, d), scan))
    ensures Elems(FilterMap(LoadMetadata(cfg, d), scan)) == ScannedMetadata(cfg, d, scan)
  {
    var f := LoadMetadata(cfg, d);
    FilterMapElements(f, scan);
    FilterMapDistinct(f, scan);
    var loaded := FilterMap(f, scan);
    forall m | m in ScannedMetadata(cfg, d, scan) ensures m in loaded {
      var id :| id in scan && Load(cfg, d, id).Some? && ToMetadata(Load(cfg, d, id).value) == m;
      assert f(id) == Some(m);
    }
    forall m | m in loaded ensures m in ScannedMetadata(cfg, d, scan) {
      var id :| id in scan && f(id) == Some(m);
      assert ToMetadata(Load(cfg, d, id).value) == m;
    }
    ReadableIdsUnique(cfg, d, scan);
    forall i, j | 0 <= i < j < |loaded| ensures MetadataId(loaded[i]) != MetadataId(loaded[j]) {
      assert loaded[i] in Elems(loaded) && loaded[j] in Elems(loaded) && loaded[i] != loaded[j];
    }
  }

  /** Recovery returns exactly the newest readable entries among the files it inspected. */
  lemma RecoverExact(cfg: Config, d: Disk, scan: seq<string>)
    requires IsScan(d, scan)
    ensures IsNewest(RecoverPlan(cfg, d, scan).result, cfg.retentionLimit, ScannedMetadata(cfg, d, scan))
    ensures var h := RecoverPlan(cfg, d, scan).result;
      && h == Take(cfg.retentionLimit, Valid(cfg, d, scan))
      && RecoverPlan(cfg, d, scan).actions == Tidy(Surplus(cfg, d, h, scan), h)
    ensures |d.files| <= MAX_SNAPSHOT_FILES_SCANNED ==>
      ScannedMetadata(cfg, d, scan) == ReadableMetadata(cfg, d)
  {
    LoadedMetadata(cfg, d, scan);
    var loaded := FilterMap(LoadMetadata(cfg, d), scan);
    SortTakeNewest(cfg.retentionLimit, loaded);
    ReadableIdsUnique(cfg, d, scan);
    var retained := Take(cfg.retentionLimit, Valid(cfg, d, scan));
    NewestUniqueIds(retained, cfg.retentionLimit, ScannedMetadata(cfg, d, scan));
    SortedIsSorted(retained);
    if |d.files| <= MAX_SNAPSHOT_FILES_SCANNED { ScanCoversAll(d, scan); }
  }

  // ----- agreement with the ledger -----

  ghost predicate EntriesAgree(entries: seq<Metadata>, limit: nat, ledger: Ledger) {
    && |entries| <= limit
    && forall m :: m in entries ==> m.snapshotId in ledger && ToMetadata(ledger[m.snapshotId]) == m
  }

  ghost predicate FilesAgree(cfg: Config, d: Disk, ledger: Ledger) {
    forall id :: id in d.files && Load(cfg, d, id).Some? ==> id in ledger && ledger[id] == Load(cfg, d, id).value
  }

  ghost predicate Agrees(cfg: Config, d: Disk, ledger: Ledger) {
    && (d.created || d.files == map[])
    && (forall id :: id in ledger ==> ledger[id].snapshotId == id)
    && FilesAgree(cfg, d, ledger)
    && (ReadIndex(cfg, d).Some? ==> EntriesAgree(ReadIndex(cfg, d).value, cfg.retentionLimit, ledger))
  }

  /** Every snapshot file is readable. */
  ghost predicate Intact(cfg: Config, d: Disk) {
    forall id :: id in d.files ==> Load(cfg, d, id).Some?
  }

  predicate IndexTrusted(cfg: Config, d: Disk) {
    ReadIndex(cfg, d).Some? && IndexMatches(ReadIndex(cfg, d).value, d)
  }

  /** A trusted index lists one true entry per file, readable or not. */
  lemma TrustedEntries(cfg: Config, d: Disk, ledger: Ledger)
    requires ValidConfig(cfg) && Agrees(cfg, d, ledger) && IndexTrusted(cfg, d)
    ensures var indexed := ReadIndex(cfg, d).value;
      && Distinct(indexed)
      && Take(MAX_SNAPSHOTS_INDEXED, SortBy(MetadataOrder, indexed)) == SortBy(MetadataOrder, indexed)
      && (forall m :: m in indexed ==> m.snapshotId in d.files)
      && (forall id :: id in d.files ==> id in ledger && ToMetadata(ledger[id]) in indexed)
      && |d.files| == |indexed| <= cfg.retentionLimit
  {
    hide LoadFile, Intact;
    var indexed := ReadIndex(cfg, d).value;
    hide ReadIndex;
    UniqueByDistinct(MetadataId, indexed);
    var ids := Map(MetadataId, indexed);
    assert Distinct(ids);
    DistinctCardinality(ids);
    assert |d.files.Keys| == |d.files|;
    forall m | m in indexed ensures m.snapshotId in d.files {
      var i :| 0 <= i < |indexed| && indexed[i] == m;
      assert ids[i] in Elems(ids);
    }
    forall id | id in d.files ensures id in ledger && ToMetadata(ledger[id]) in indexed {
      assert id in Elems(ids);
      var i :| 0 <= i < |ids| && ids[i] == id;
      assert indexed[i].snapshotId == id && indexed[i] in indexed;
    }
  }

  /** What a trusted index returns. */
  lemma TrustedRead(cfg: Config, d: Disk, ledger: Ledger, scan: seq<string>)
    requires ValidConfig(cfg) && Agrees(cfg, d, ledger) && IndexTrusted(cfg, d)
    ensures var r := ReadPlan(cfg, d, scan).result;
      && ReadPlan(cfg, d, scan).actions == []
      && Sorted(MetadataOrder, r) && Distinct(r)
      && EntriesAgree(r, cfg.retentionLimit, ledger)
      && (forall m :: m in r ==> m.snapshotId in d.files)
      && (forall id :: id in d.files ==> id in ledger && ToMetadata(ledger[id]) in r)
      && |r| == |d.files|
  {
    hide LoadFile, Take, SortBy, ReadIndex;
    var indexed := ReadIndex(cfg, d).value;
    TrustedEntries(cfg, d, ledger);
    SortedCopy(indexed);
    assert ReadPlan(cfg, d, scan).result == SortBy(MetadataOrder, indexed);
    hide ReadPlan;
  }

  lemma ReadableMember(cfg: Config, d: Disk, m: Metadata)
    ensures m in ReadableMetadata(cfg, d) <==>
      m.snapshotId in d.files && Load(cfg, d, m.snapshotId).Some? && ToMetadata(Load(cfg, d, m.snapshotId).value) == m
  {
  }

  lemma TrustedMember(cfg: Config, d: Disk, ledger: Ledger, r: seq<Metadata>, m: Metadata)
    requires Agrees(cfg, d, ledger) && Intact(cfg, d) && EntriesAgree(r, cfg.retentionLimit, ledger)
    requires forall x :: x in r ==> x.snapshotId in d.files
    requires forall id :: id in d.files ==> id in ledger && ToMetadata(ledger[id]) in r
    ensures m in r <==> m in ReadableMetadata(cfg, d)
  {
    hide LoadFile, ReadIndex, ReadableMetadata;
    ReadableMember(cfg, d, m);
    if m.snapshotId in d.files {
      assert Load(cfg, d, m.snapshotId).value == ledger[m.snapshotId];
    }
  }

  lemma TrustedIntact(cfg: Config, d: Disk, ledger: Ledger, scan: seq<string>)
    requires ValidConfig(cfg) && Agrees(cfg, d, ledger) && IndexTrusted(cfg, d) && Intact(cfg, d)
    ensures var r := ReadPlan(cfg, d, scan).result;
      Elems(r) == ReadableMetadata(cfg, d) && IsNewest(r, cfg.retentionLimit, ReadableMetadata(cfg, d))
  {
    hide LoadFile, ReadIndex, IndexTrusted, IndexMatches, ReadableMetadata;
    TrustedRead(cfg, d, ledger, scan);
    hide ReadPlan;
    var r := ReadPlan(cfg, d, scan).result;
    var all := ReadableMetadata(cfg, d);
    forall m ensures m in r <==> m in all {
      TrustedMember(cfg, d, ledger, r, m);
    }
    assert Elems(r) == all;
    DistinctCardinality(r);
  }

  /**
    `listMetadata` returns exactly the newest readable snapshots, unless a trusted index still lists
    a file that has become unreadable since.
   */
  lemma HistoryExact(cfg: Config, d: Disk, ledger: Ledger, scan: seq<string>)
    requires ValidConfig(cfg) && Agrees(cfg, d, ledger) && IsScan(d, scan)
    requires |d.files| <= MAX_SNAPSHOT_FILES_SCANNED
    ensures IsNewest(ListPlan(cfg, d, scan).result, cfg.retentionLimit, ReadableMetadata(cfg, d))
      <==> Intact(cfg, d) || !IndexTrusted(cfg, d)
  {
    if !d.created {
      assert ReadableMetadata(cfg, d) == {};
    } else if !IndexTrusted(cfg, d) {
      RecoverExact(cfg, d, scan);
    } else if Intact(cfg, d) {
      TrustedIntact(cfg, d, ledger, scan);
    } else {
      TrustedRead(cfg, d, ledger, scan);
      var id :| id in d.files && Load(cfg, d, id).None?;
      ReadableMember(cfg, d, ToMetadata(ledger[id]));
    }
  }
}

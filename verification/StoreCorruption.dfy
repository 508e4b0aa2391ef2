/**
  The directory under a hostile environment: single disk actions interleaved with crashes and with
  files that turn unreadable at any moment.
 */
module StoreCorruption {
  import opened Ordering
  import opened Collections
  import opened Snapshots
  import opened SnapshotStore
  import opened History
  import opened StoreRecovery
  import opened StoreCrash

  // ----- what `latest` returns -----

  lemma {:induction false} FirstLoadableFinds(cfg: Config, d: Disk, entries: seq<Metadata>) returns (k: nat)
    ensures k <= |entries| && forall j :: 0 <= j < k ==> Load(cfg, d, entries[j].snapshotId).None?
    ensures k == |entries| ==> FirstLoadable(cfg, d, entries).None?
    ensures k < |entries| ==> Load(cfg, d, entries[k].snapshotId).Some?
    ensures k < |entries| ==> FirstLoadable(cfg, d, entries) == Load(cfg, d, entries[k].snapshotId)
  {
    hide Load;
    if entries == [] || Load(cfg, d, entries[0].snapshotId).Some? {
      k := 0;
    } else {
      k := FirstLoadableFinds(cfg, d, entries[1..]);
      k := k + 1;
    }
  }

  /** The snapshots a reader can see: all readable ones, or those among the scanned files when there are too many. */
  ghost function Visible(cfg: Config, d: Disk, scan: seq<string>): set<Metadata> {
    if IndexTrusted(cfg, d) then ReadableMetadata(cfg, d) else ScannedMetadata(cfg, d, scan)
  }

  ghost predicate IsLatestOf(r: Option<Snapshot>, all: set<Metadata>) {
    match r
    case None => all == {}
    case Some(s) => ToMetadata(s) in all && forall m :: m in all ==> MetadataOrder(ToMetadata(s), m)
  }

  lemma LatestIsFirst(cfg: Config, d: Disk, scan: seq<string>, rescan: seq<string>)
    requires d.created && ReadPlan(cfg, d, scan).actions == []
    ensures LatestPlan(cfg, d, scan, rescan).result == FirstLoadable(cfg, d, ReadPlan(cfg, d, scan).result)
  {
    hide ReadPlan, FirstLoadable, RecoverPlan;
  }

  /** Under an agreeing ledger, an entry is readable exactly when its file loads. */
  lemma AgreedEntry(cfg: Config, d: Disk, ledger: Ledger, m: Metadata)
    requires Agrees(cfg, d, ledger) && m.snapshotId in ledger && ToMetadata(ledger[m.snapshotId]) == m
    ensures m in ReadableMetadata(cfg, d) <==> Load(cfg, d, m.snapshotId).Some?
    ensures Load(cfg, d, m.snapshotId).Some? ==> ToMetadata(Load(cfg, d, m.snapshotId).value) == m
  {
    hide LoadFile, ReadIndex, ReadableMetadata;
    ReadableMember(cfg, d, m);
  }

  lemma ReadableRecorded(cfg: Config, d: Disk, ledger: Ledger, m: Metadata)
    requires Agrees(cfg, d, ledger) && m in ReadableMetadata(cfg, d)
    ensures m.snapshotId in d.files && m.snapshotId in ledger && ToMetadata(ledger[m.snapshotId]) == m
    ensures Load(cfg, d, m.snapshotId).Some?
  {
    hide LoadFile, ReadIndex, ReadableMetadata;
    ReadableMember(cfg, d, m);
  }

  lemma TrustedLatest(cfg: Config, d: Disk, ledger: Ledger, scan: seq<string>, rescan: seq<string>)
    requires ValidConfig(cfg) && Agrees(cfg, d, ledger) && d.created && IndexTrusted(cfg, d)
    ensures IsLatestOf(LatestPlan(cfg, d, scan, rescan).result, ReadableMetadata(cfg, d))
  {
    hide Load, MetadataOrder, ReadPlan, IndexTrusted, ReadableMetadata, LatestPlan, FirstLoadable, Agrees, ValidConfig;
    TrustedRead(cfg, d, ledger, scan);
    LatestIsFirst(cfg, d, scan, rescan);
    MetadataOrderTotal();
    var entries := ReadPlan(cfg, d, scan).result;
    var k := FirstLoadableFinds(cfg, d, entries);
    forall m | m in ReadableMetadata(cfg, d) ensures k < |entries| && MetadataOrder(entries[k], m) {
      ReadableRecorded(cfg, d, ledger, m);
      var i :| 0 <= i < |entries| && entries[i] == m;
      assert i >= k;
    }
    if k < |entries| {
      assert entries[k] in entries;
      AgreedEntry(cfg, d, ledger, entries[k]);
    }
  }

  /** The disk after recovery: only unlisted readable files are gone, and the index is the new list. */
  lemma RecoveredDisk(cfg: Config, d: Disk, scan: seq<string>)
    requires IsScan(d, scan)
    ensures var plan := RecoverPlan(cfg, d, scan);
      var after := ApplyAll(cfg, d, plan.actions);
      && after.created == d.created
      && after.files == d.files - Ids(Surplus(cfg, d, plan.result, scan))
      && after.index == Apply(cfg, d, PutIndex(plan.result)).index
      && plan.result == Take(cfg.retentionLimit, Valid(cfg, d, scan))
  {
    hide RecoverPlan, Valid, Surplus, Take, ScannedMetadata;
    RecoverExact(cfg, d, scan);
    var h := RecoverPlan(cfg, d, scan).result;
    var gone := Surplus(cfg, d, h, scan);
    var actions := Tidy(gone, h);
    assert actions[..|gone| + 1] == actions;
    TidyPrefix(cfg, d, gone, h, |gone| + 1);
  }

  lemma ScannedMember(cfg: Config, d: Disk, scan: seq<string>, m: Metadata)
    ensures m in ScannedMetadata(cfg, d, scan) <==>
      m.snapshotId in scan && Load(cfg, d, m.snapshotId).Some? && ToMetadata(Load(cfg, d, m.snapshotId).value) == m
  {
  }

  lemma SurplusUnlisted(cfg: Config, d: Disk, h: seq<Metadata>, scan: seq<string>, id: string)
    requires Lists(h, id)
    ensures id !in Ids(Surplus(cfg, d, h, scan))
  {
    hide Valid;
    FilterElements(NotAmong(h), Valid(cfg, d, scan));
    IdsMember(Surplus(cfg, d, h, scan), id);
    var k :| k in h && k.snapshotId == id;
  }

  /** Recovery keeps the files of everything it lists. */
  lemma RecoveredLoads(cfg: Config, d: Disk, scan: seq<string>, m: Metadata)
    requires IsScan(d, scan) && m in RecoverPlan(cfg, d, scan).result
    ensures var after := ApplyAll(cfg, d, RecoverPlan(cfg, d, scan).actions);
      && m.snapshotId in d.files && m.snapshotId in after.files
      && Load(cfg, after, m.snapshotId) == Load(cfg, d, m.snapshotId)
      && Load(cfg, d, m.snapshotId).Some? && ToMetadata(Load(cfg, d, m.snapshotId).value) == m
  {
    hide RecoverPlan, Valid, Surplus, Take, LoadFile, ApplyAll, ScannedMetadata;
    RecoverExact(cfg, d, scan);
    ScannedMember(cfg, d, scan, m);
    RecoveredDisk(cfg, d, scan);
    SurplusUnlisted(cfg, d, RecoverPlan(cfg, d, scan).result, scan, m.snapshotId);
  }

  lemma RecoveredLatest(cfg: Config, d: Disk, scan: seq<string>, rescan: seq<string>)
    requires ValidConfig(cfg) && IsScan(d, scan) && d.created && !IndexTrusted(cfg, d)
    ensures IsLatestOf(LatestPlan(cfg, d, scan, rescan).result, ScannedMetadata(cfg, d, scan))
  {
    hide RecoverPlan, LoadFile, ScannedMetadata, MetadataOrder, ApplyAll, SortBy, FilterMap, Take, IndexMatches, ReadIndex;
    RecoverExact(cfg, d, scan);
    var all, entries := ScannedMetadata(cfg, d, scan), RecoverPlan(cfg, d, scan).result;
    assert ReadPlan(cfg, d, scan) == RecoverPlan(cfg, d, scan);
    hide ReadPlan;
    if entries == [] {
      assert all == {} by { hide Valid, Surplus; }
    } else {
      RecoveredLoads(cfg, d, scan, entries[0]);
      NewestHead(entries, cfg.retentionLimit, all);
      LatestIsHead(cfg, d, scan, rescan, entries);
    }
  }

  lemma LatestIsHead(cfg: Config, d: Disk, scan: seq<string>, rescan: seq<string>, entries: seq<Metadata>)
    requires d.created && entries != [] && ReadPlan(cfg, d, scan).result == entries
    requires Load(cfg, ApplyAll(cfg, d, ReadPlan(cfg, d, scan).actions), entries[0].snapshotId).Some?
    ensures LatestPlan(cfg, d, scan, rescan).result ==
      Load(cfg, ApplyAll(cfg, d, ReadPlan(cfg, d, scan).actions), entries[0].snapshotId)
  {
    hide ReadPlan, ApplyAll, Load, RecoverPlan;
  }

  lemma NewestHead(h: seq<Metadata>, limit: nat, all: set<Metadata>)
    requires IsNewest(h, limit, all) && h != []
    ensures h[0] in all && forall m :: m in all ==> MetadataOrder(h[0], m)
  {
    MetadataOrderTotal();
    hide MetadataOrder;
    forall m | m in all ensures MetadataOrder(h[0], m) {
      if m in h { SortedFirst(MetadataOrder, h, m); }
    }
  }

  /**
    The index is never trusted over the files: whatever has become unreadable, `latest` returns the
    newest visible snapshot, and nothing exactly when nothing is visible.
   */
  lemma LatestExact(cfg: Config, d: Disk, ledger: Ledger, scan: seq<string>, rescan: seq<string>)
    requires ValidConfig(cfg) && Agrees(cfg, d, ledger) && IsScan(d, scan)
    ensures IsLatestOf(LatestPlan(cfg, d, scan, rescan).result, Visible(cfg, d, scan))
    ensures |d.files| <= MAX_SNAPSHOT_FILES_SCANNED ==> Visible(cfg, d, scan) == ReadableMetadata(cfg, d)
  {
    hide LatestPlan, LoadFile;
    if |d.files| <= MAX_SNAPSHOT_FILES_SCANNED { RecoverExact(cfg, d, scan); }
    if !d.created {
      LatestOfNothing(cfg, d, scan, rescan);
    } else if IndexTrusted(cfg, d) {
      TrustedLatest(cfg, d, ledger, scan, rescan);
    } else {
      RecoveredLatest(cfg, d, scan, rescan);
    }
  }

  lemma LatestOfNothing(cfg: Config, d: Disk, scan: seq<string>, rescan: seq<string>)
    requires !d.created && d.files == map[]
    ensures IsLatestOf(LatestPlan(cfg, d, scan, rescan).result, Visible(cfg, d, scan))
  {
  }
}

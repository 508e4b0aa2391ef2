/**
  One capture on the directory of its server: look up the latest snapshot, project the graph, save.

  The proofs hold on any directory that agrees with its ledger, damaged files and stale indexes
  included, as `StoreMachine` reaches them.
 */
module Capturing {
  import opened Ordering
  import opened Collections
  import opened Graphs
  import opened Snapshots
  import opened SnapshotStore
  import opened History
  import opened StoreRecovery
  import opened StoreCrash
  import opened StoreCorruption
  import opened StoreMachine
  import opened Projection

  datatype CaptureInput = CaptureInput(graph: InfraGraph, snapshotId: string, capturedAt: int)

  /** What the reads of one capture inspect, should they have to scan the directory. */
  datatype CaptureScans = CaptureScans(read: seq<string>, rescan: seq<string>, save: seq<string>)

  /** The first two outcomes are exceptions in the source. */
  datatype CaptureOutcome =
    | GraphRejected(error: GraphError)
    | SaveRejected(result: SaveResult)
    | Captured(previous: Option<Snapshot>, current: Snapshot, result: SaveResult)

  /** `captureContext` for a resolved server. */
  function CapturePlan(cfg: Config, d: Disk, input: CaptureInput, scans: CaptureScans): Plan<CaptureOutcome> {
    var latest := LatestPlan(cfg, d, scans.read, scans.rescan);
    match Capture(input.graph, cfg.serverId, input.snapshotId, input.capturedAt)
    case Failure(e) => Plan(latest.actions, GraphRejected(e))
    case Success(current) =>
      var save := SavePlan(cfg, ApplyAll(cfg, d, latest.actions), current, scans.save);
      Plan(latest.actions + save.actions,
        if save.result.Saved? || save.result.Deduplicated? then Captured(latest.result, current, save.result)
        else SaveRejected(save.result))
  }

  ghost predicate ScansOf(cfg: Config, d: Disk, scans: CaptureScans) {
    && IsScan(d, scans.read)
    && (d.created ==> IsScan(ApplyAll(cfg, d, ReadPlan(cfg, d, scans.read).actions), scans.rescan))
    && IsScan(ApplyAll(cfg, d, LatestPlan(cfg, d, scans.read, scans.rescan).actions), scans.save)
  }

  // ----- reading never loses the latest snapshot -----

  /** The head of what the next read returns can be loaded. */
  ghost predicate HeadLoads(cfg: Config, d: Disk, scan: seq<string>) {
    var read := ReadPlan(cfg, d, scan);
    read.result == [] || Load(cfg, ApplyAll(cfg, d, read.actions), read.result[0].snapshotId).Some?
  }

  lemma RecoveredHeadLoads(cfg: Config, d: Disk, scan: seq<string>)
    requires IsScan(d, scan) && !IndexTrusted(cfg, d)
    ensures HeadLoads(cfg, d, scan)
  {
    assert ReadPlan(cfg, d, scan) == RecoverPlan(cfg, d, scan) by { hide RecoverPlan; }
    hide ReadPlan, RecoverPlan, Load, ApplyAll;
    var h := RecoverPlan(cfg, d, scan).result;
    if h != [] { RecoveredLoads(cfg, d, scan, h[0]); }
  }

  lemma HeadIsLatest(cfg: Config, d: Disk, scan: seq<string>, rescan: seq<string>)
    requires d.created && HeadLoads(cfg, d, scan)
    ensures var read := ReadPlan(cfg, d, scan);
      Newest(cfg, ApplyAll(cfg, d, read.actions), read.result) == LatestPlan(cfg, d, scan, rescan).result
  {
    hide ReadPlan, Load, ApplyAll, RecoverPlan;
  }

  lemma ReadEntriesListed(cfg: Config, d: Disk, entries: seq<Metadata>, m: Metadata)
    requires ReadIndex(cfg, Apply(cfg, d, PutIndex(entries))).Some?
    requires m in ReadIndex(cfg, Apply(cfg, d, PutIndex(entries))).value
    ensures m in entries
  {
    var stored := Map(Present, SortBy(MetadataOrder, entries));
    FilterMapElements(ValidEntry, stored);
    SortByElements(MetadataOrder, entries);
    hide SortBy, MetadataOrder, ValidMetadata;
    var e :| e in stored && ValidEntry(e) == Some(m);
    var i :| 0 <= i < |stored| && stored[i] == e;
  }

  lemma TrustedListed(cfg: Config, d: Disk, scan: seq<string>, m: Metadata)
    requires IndexTrusted(cfg, d) && m in ReadPlan(cfg, d, scan).result
    ensures m in ReadIndex(cfg, d).value
  {
    SortByElements(MetadataOrder, ReadIndex(cfg, d).value);
    hide SortBy, MetadataOrder, ReadIndex;
  }

  lemma TrustedReadsOnly(cfg: Config, d: Disk, scan: seq<string>)
    requires IndexTrusted(cfg, d)
    ensures ReadPlan(cfg, d, scan).actions == []
    ensures ApplyAll(cfg, d, ReadPlan(cfg, d, scan).actions) == d
  {
    hide RecoverPlan, ReadIndex, IndexMatches;
  }

  /** What a trusted index lists right after a recovery can be loaded. */
  lemma RecoveredEntryLoads(cfg: Config, d: Disk, scan: seq<string>, later: seq<string>, m: Metadata)
    requires IsScan(d, scan)
    requires var after := ApplyAll(cfg, d, RecoverPlan(cfg, d, scan).actions);
      IndexTrusted(cfg, after) && m in ReadPlan(cfg, after, later).result
    ensures Load(cfg, ApplyAll(cfg, d, RecoverPlan(cfg, d, scan).actions), m.snapshotId).Some?
  {
    hide RecoverPlan, Load, IsScan, ReadPlan, ReadIndex, Apply, ApplyAll, IndexMatches, Surplus;
    var h, after := RecoverPlan(cfg, d, scan).result, ApplyAll(cfg, d, RecoverPlan(cfg, d, scan).actions);
    RecoveredDisk(cfg, d, scan);
    TrustedListed(cfg, after, later, m);
    SameIndex(cfg, Apply(cfg, d, PutIndex(h)), after);
    ReadEntriesListed(cfg, d, h, m);
    RecoveredLoads(cfg, d, scan, m);
  }

  /** Right after a recovery the head loads, whatever is read next. */
  lemma RecoveredSettles(cfg: Config, d: Disk, scan: seq<string>, later: seq<string>)
    requires IsScan(d, scan)
    requires IsScan(ApplyAll(cfg, d, RecoverPlan(cfg, d, scan).actions), later)
    ensures HeadLoads(cfg, ApplyAll(cfg, d, RecoverPlan(cfg, d, scan).actions), later)
  {
    hide RecoverPlan, IsScan, ApplyAll, ReadPlan, IndexTrusted, Load;
    var after := ApplyAll(cfg, d, RecoverPlan(cfg, d, scan).actions);
    if IndexTrusted(cfg, after) {
      TrustedReadsOnly(cfg, after, later);
      var read := ReadPlan(cfg, after, later).result;
      if read != [] { RecoveredEntryLoads(cfg, d, scan, later, read[0]); }
    } else {
      RecoveredHeadLoads(cfg, after, later);
    }
  }

  // ----- the directory after `latest` -----

  lemma EmptiedIndex(cfg: Config, d: Disk, scan: seq<string>)
    requires IsScan(Apply(cfg, d, PutIndex([])), scan)
    ensures HeadLoads(cfg, Apply(cfg, d, PutIndex([])), scan)
  {
    var after := Apply(cfg, d, PutIndex([]));
    hide Apply, ReadPlan, ReadIndex, IsScan, Load, ApplyAll, IndexMatches;
    if IndexTrusted(cfg, after) {
      var read := ReadPlan(cfg, after, scan).result;
      if read != [] {
        TrustedListed(cfg, after, scan, read[0]);
        ReadEntriesListed(cfg, d, [], read[0]);
      }
    } else {
      RecoveredHeadLoads(cfg, after, scan);
    }
  }

  lemma {:induction false} FirstLoadableLoads(cfg: Config, d: Disk, entries: seq<Metadata>)
    requires FirstLoadable(cfg, d, entries).Some?
    requires entries != [] && FirstLoadable(cfg, d, entries).value.snapshotId == entries[0].snapshotId
    ensures Load(cfg, d, entries[0].snapshotId).Some?
  {
    hide Load;
    var k := FirstLoadableFinds(cfg, d, entries);
    LoadedId(cfg, d, entries[k].snapshotId);
  }

  /** The directory after `latest`, by what it found. */
  function AfterLatest(cfg: Config, d: Disk, scan: seq<string>, rescan: seq<string>): Disk {
    ApplyAll(cfg, d, LatestPlan(cfg, d, scan, rescan).actions)
  }

  lemma AfterLatestCases(cfg: Config, d: Disk, scan: seq<string>, rescan: seq<string>)
    requires d.created
    ensures var read := ReadPlan(cfg, d, scan);
      var after := ApplyAll(cfg, d, read.actions);
      var loaded := FirstLoadable(cfg, after, read.result);
      && LatestPlan(cfg, d, scan, rescan).result == loaded
      && AfterLatest(cfg, d, scan, rescan) ==
        if loaded.None? && read.result != [] then Apply(cfg, after, PutIndex([]))
        else if loaded.Some? && loaded.value.snapshotId != read.result[0].snapshotId then
          ApplyAll(cfg, after, RecoverPlan(cfg, after, rescan).actions)
        else after
  {
    var read := ReadPlan(cfg, d, scan);
    var after := ApplyAll(cfg, d, read.actions);
    hide ReadPlan, Load, RecoverPlan, Apply;
    ApplyAllAppend(cfg, d, read.actions, [PutIndex([])]);
    assert [PutIndex([])][..0] == [];
    ApplyAllAppend(cfg, d, read.actions, RecoverPlan(cfg, after, rescan).actions);
    hide ApplyAll, FirstLoadable;
  }

  lemma TrustedIgnoresScan(cfg: Config, d: Disk, scan: seq<string>, later: seq<string>)
    requires IndexTrusted(cfg, d)
    ensures ReadPlan(cfg, d, scan) == ReadPlan(cfg, d, later)
  {
    hide RecoverPlan, ReadIndex, IndexMatches;
  }

  lemma UntrustedRecovers(cfg: Config, d: Disk, scan: seq<string>)
    requires !IndexTrusted(cfg, d)
    ensures ReadPlan(cfg, d, scan) == RecoverPlan(cfg, d, scan)
  {
    hide RecoverPlan, ReadIndex, IndexMatches;
  }

  /** After `latest`, whatever it met, the head of the next read can be loaded. */
  lemma LatestSettles(cfg: Config, d: Disk, scan: seq<string>, rescan: seq<string>, later: seq<string>)
    requires d.created && IsScan(d, scan)
    requires IsScan(ApplyAll(cfg, d, ReadPlan(cfg, d, scan).actions), rescan)
    requires IsScan(AfterLatest(cfg, d, scan, rescan), later)
    ensures HeadLoads(cfg, AfterLatest(cfg, d, scan, rescan), later)
  {
    AfterLatestCases(cfg, d, scan, rescan);
    hide ReadPlan, Load, RecoverPlan, Apply, ApplyAll, IsScan, IndexTrusted, AfterLatest, LatestPlan, FirstLoadable;
    var read := ReadPlan(cfg, d, scan);
    var after := ApplyAll(cfg, d, read.actions);
    var loaded := FirstLoadable(cfg, after, read.result);
    if loaded.None? && read.result != [] {
      EmptiedIndex(cfg, after, later);
    } else if loaded.Some? && read.result != [] && loaded.value.snapshotId != read.result[0].snapshotId {
      RecoveredSettles(cfg, after, rescan, later);
    } else if IndexTrusted(cfg, d) {
      TrustedReadsOnly(cfg, d, scan);
      TrustedIgnoresScan(cfg, d, scan, later);
      if read.result != [] { FirstLoadableLoads(cfg, d, read.result); }
    } else {
      UntrustedRecovers(cfg, d, scan);
      NothingLoadable(cfg, after, read.result);
      RecoveredSettles(cfg, d, scan, later);
    }
  }

  lemma NothingLoadable(cfg: Config, d: Disk, entries: seq<Metadata>)
    ensures entries == [] ==> FirstLoadable(cfg, d, entries).None?
  {
  }

  // ----- reading keeps the latest snapshot -----

  lemma {:induction false} NoWritesShrink(cfg: Config, d: Disk, actions: seq<Action>)
    requires forall a :: a in actions ==> !a.PutSnapshot?
    ensures var after := ApplyAll(cfg, d, actions);
      && after.files.Keys <= d.files.Keys
      && (forall id :: id in after.files ==> after.files[id] == d.files[id])
      && (d.created ==> after.created)
  {
    hide SortBy;
    if actions != [] {
      var n := |actions| - 1;
      forall a | a in actions[..n] ensures !a.PutSnapshot? { assert a in actions; }
      NoWritesShrink(cfg, d, actions[..n]);
      assert actions[n] in actions;
    }
  }

  lemma ReadableShrinks(cfg: Config, d: Disk, after: Disk)
    requires after.files.Keys <= d.files.Keys && forall id :: id in after.files ==> after.files[id] == d.files[id]
    ensures ReadableMetadata(cfg, after) <= ReadableMetadata(cfg, d)
    ensures |after.files| <= |d.files|
  {
    hide LoadFile;
    SubsetSize(after.files.Keys, d.files.Keys);
    assert |after.files.Keys| == |after.files| && |d.files.Keys| == |d.files|;
  }

  lemma LoadableReadable(cfg: Config, d: Disk, entries: seq<Metadata>)
    ensures FirstLoadable(cfg, d, entries).Some? ==>
      ToMetadata(FirstLoadable(cfg, d, entries).value) in ReadableMetadata(cfg, d)
  {
    hide Load, ReadableMetadata;
    var k := FirstLoadableFinds(cfg, d, entries);
    if k < |entries| {
      LoadedId(cfg, d, entries[k].snapshotId);
      ReadableMember(cfg, d, ToMetadata(Load(cfg, d, entries[k].snapshotId).value));
    }
  }

  lemma LatestUnique(all: set<Metadata>, m: Metadata, n: Metadata)
    requires IdsUnique(all) && m in all && n in all
    requires (forall x :: x in all ==> MetadataOrder(m, x)) && (forall x :: x in all ==> MetadataOrder(n, x))
    ensures m == n
  {
    MetadataOrderTotal();
    assert MetadataOrder(m, n) && MetadataOrder(n, m);
  }

  /** Recovery keeps the file of the newest readable snapshot. */
  lemma RecoveryKeepsLatest(cfg: Config, d: Disk, scan: seq<string>, s: Snapshot)
    requires ValidConfig(cfg) && IsScan(d, scan) && |d.files| <= MAX_SNAPSHOT_FILES_SCANNED
    requires IsLatestOf(Some(s), ReadableMetadata(cfg, d))
    ensures ToMetadata(s) in ReadableMetadata(cfg, ApplyAll(cfg, d, RecoverPlan(cfg, d, scan).actions))
  {
    hide RecoverPlan, Load, ReadableMetadata, ApplyAll, IsScan, MetadataOrder, Valid, Surplus, Take, Tidy;
    RecoverExact(cfg, d, scan);
    ReadableIdsUnique(cfg, d, scan);
    var h := RecoverPlan(cfg, d, scan).result;
    var all := ReadableMetadata(cfg, d);
    assert all != {} && |all| >= 1;
    NewestHead(h, cfg.retentionLimit, all);
    LatestUnique(all, ToMetadata(s), h[0]);
    RecoveredLoads(cfg, d, scan, h[0]);
    ReadableMember(cfg, ApplyAll(cfg, d, RecoverPlan(cfg, d, scan).actions), h[0]);
  }

  lemma LatestSurvives(cfg: Config, d: Disk, ledger: Ledger, scan: seq<string>, rescan: seq<string>)
    requires ValidConfig(cfg) && Agrees(cfg, d, ledger) && d.created && |d.files| <= MAX_SNAPSHOT_FILES_SCANNED
    requires IsScan(d, scan) && IsScan(ApplyAll(cfg, d, ReadPlan(cfg, d, scan).actions), rescan)
    ensures IsLatestOf(LatestPlan(cfg, d, scan, rescan).result, ReadableMetadata(cfg, AfterLatest(cfg, d, scan, rescan)))
  {
    hide ReadPlan, Load, RecoverPlan, Apply, ApplyAll, IsScan, IndexTrusted, LatestPlan, FirstLoadable, Agrees, ReadableMetadata, MetadataOrder, Visible;
    LatestExact(cfg, d, ledger, scan, rescan);
    AfterLatestCases(cfg, d, scan, rescan);
    var read := ReadPlan(cfg, d, scan);
    var after, last := ApplyAll(cfg, d, read.actions), AfterLatest(cfg, d, scan, rescan);
    var loaded := FirstLoadable(cfg, after, read.result);
    ReadAgrees(cfg, d, ledger, scan);
    LatestAgrees(cfg, d, ledger, scan, rescan);
    NoWritesShrink(cfg, d, read.actions);
    NoWritesShrink(cfg, d, LatestPlan(cfg, d, scan, rescan).actions);
    hide PlanAgrees, EntriesAgree, AfterLatest;
    ReadableShrinks(cfg, d, after);
    ReadableShrinks(cfg, d, last);
    LoadableReadable(cfg, after, read.result);
    NothingLoadable(cfg, after, read.result);
    if loaded.Some? && loaded.value.snapshotId != read.result[0].snapshotId {
      RecoveryKeepsLatest(cfg, after, rescan, loaded.value);
    }
  }
}

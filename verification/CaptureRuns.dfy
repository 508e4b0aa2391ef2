/** What a capture reports, on every directory the store can reach. */
module CaptureRuns {
  import opened Ordering
  import opened Collections
  import opened Snapshots
  import opened SnapshotStore
  import opened StoreRecovery
  import opened StoreCrash
  import opened StoreRuns
  import opened StoreCorruption
  import opened StoreMachine
  import opened Projection
  import opened DiffEngine
  import opened Capturing

  // ----- what the save of a capture sees -----

  lemma MadeOf(cfg: Config, d: Disk)
    ensures var made := Apply(cfg, d, MakeDirectory);
      && made.created && made.files == d.files && made.index == d.index
      && ReadableMetadata(cfg, made) == ReadableMetadata(cfg, d)
      && (d.created ==> made == d)
      && (forall scan :: IsScan(d, scan) ==> IsScan(made, scan))
  {
  }

  lemma EmptyHeadLoads(cfg: Config, d: Disk, ledger: Ledger, scan: seq<string>)
    requires ValidConfig(cfg) && Agrees(cfg, d, ledger) && d.files == map[] && IsScan(d, scan)
    ensures HeadLoads(cfg, d, scan)
  {
    hide ReadPlan, Agrees, IsScan, IndexTrusted, Load;
    if IndexTrusted(cfg, d) {
      TrustedRead(cfg, d, ledger, scan);
    } else {
      RecoveredHeadLoads(cfg, d, scan);
    }
  }

  /** The snapshot `save` compares with is the one `latest` returned just before. */
  lemma SaveSeesLatest(cfg: Config, d: Disk, ledger: Ledger, previous: Option<Snapshot>, scan: seq<string>)
    requires ValidConfig(cfg) && Agrees(cfg, d, ledger) && |d.files| <= MAX_SNAPSHOT_FILES_SCANNED && IsScan(d, scan)
    requires HeadLoads(cfg, Apply(cfg, d, MakeDirectory), scan)
    requires IsLatestOf(previous, ReadableMetadata(cfg, d))
    ensures var made := Apply(cfg, d, MakeDirectory);
      var seen := Newest(cfg, ApplyAll(cfg, d, Opening(cfg, d, scan)), ReadPlan(cfg, made, scan).result);
      && (seen.Some? <==> previous.Some?)
      && (seen.Some? ==> ToMetadata(seen.value) == ToMetadata(previous.value))
  {
    var made := Apply(cfg, d, MakeDirectory);
    OpeningApplies(cfg, d, scan);
    MadeOf(cfg, d);
    ActionKeepsAgrees(cfg, d, ledger, MakeDirectory);
    hide ReadPlan, Load, ApplyAll, Apply, IsScan, Agrees, ReadableMetadata, LatestPlan, Visible, MetadataOrder, Opening, HeadLoads, Newest;
    HeadIsLatest(cfg, made, scan, []);
    LatestExact(cfg, made, ledger, scan, []);
    ReadableIdsUnique(cfg, d, scan);
    var seen := LatestPlan(cfg, made, scan, []).result;
    if seen.Some? && previous.Some? {
      LatestUnique(ReadableMetadata(cfg, d), ToMetadata(seen.value), ToMetadata(previous.value));
    }
  }

  lemma SaveDecision(cfg: Config, d: Disk, s: Snapshot, scan: seq<string>)
    ensures var made := Apply(cfg, d, MakeDirectory);
      var seen := Newest(cfg, ApplyAll(cfg, d, Opening(cfg, d, scan)), ReadPlan(cfg, made, scan).result);
      var repeats := seen.Some? && seen.value.graphFingerprint == s.graphFingerprint;
      var r := SavePlan(cfg, d, s, scan).result;
      && (r.Deduplicated? <==> Validate(s) && repeats)
      && (r.Deduplicated? ==> r.existing == ToMetadata(seen.value))
      && (r.Saved? <==> Acceptable(cfg, s) && !repeats)
  {
    hide Validate, ReadPlan, ApplyAll, Newest, StoreActions;
  }

  /** Everything a capture needs from the directory after `latest`. */
  lemma ReadyToSave(cfg: Config, d: Disk, ledger: Ledger, scans: CaptureScans)
    requires ValidConfig(cfg) && Agrees(cfg, d, ledger) && |d.files| <= MAX_SNAPSHOT_FILES_SCANNED && ScansOf(cfg, d, scans)
    ensures var last := AfterLatest(cfg, d, scans.read, scans.rescan);
      var previous := LatestPlan(cfg, d, scans.read, scans.rescan).result;
      && Agrees(cfg, last, ledger) && |last.files| <= MAX_SNAPSHOT_FILES_SCANNED
      && HeadLoads(cfg, Apply(cfg, last, MakeDirectory), scans.save)
      && IsLatestOf(previous, ReadableMetadata(cfg, d))
      && IsLatestOf(previous, ReadableMetadata(cfg, last))
  {
    var last := AfterLatest(cfg, d, scans.read, scans.rescan);
    MadeOf(cfg, last);
    LatestExact(cfg, d, ledger, scans.read, scans.rescan);
    LatestAgrees(cfg, d, ledger, scans.read, scans.rescan);
    NoWritesShrink(cfg, d, LatestPlan(cfg, d, scans.read, scans.rescan).actions);
    ReadableShrinks(cfg, d, last);
    ActionsKeepAgrees(cfg, d, ledger, LatestPlan(cfg, d, scans.read, scans.rescan).actions);
    if d.created {
      hide ReadPlan, LatestPlan, Load, ApplyAll, Agrees, ReadableMetadata, HeadLoads, Visible, PlanAgrees, MetadataOrder, IsScan;
      LatestSurvives(cfg, d, ledger, scans.read, scans.rescan);
      LatestSettles(cfg, d, scans.read, scans.rescan, scans.save);
    } else {
      NothingThere(cfg, d, ledger, scans);
    }
  }

  lemma NothingThere(cfg: Config, d: Disk, ledger: Ledger, scans: CaptureScans)
    requires ValidConfig(cfg) && Agrees(cfg, d, ledger) && !d.created && ScansOf(cfg, d, scans)
    ensures AfterLatest(cfg, d, scans.read, scans.rescan) == d
    ensures HeadLoads(cfg, Apply(cfg, d, MakeDirectory), scans.save)
  {
    assert d.files == map[];
    assert AfterLatest(cfg, d, scans.read, scans.rescan) == d;
    MadeOf(cfg, d);
    ActionKeepsAgrees(cfg, d, ledger, MakeDirectory);
    hide HeadLoads, Agrees, LatestPlan, ReadPlan;
    EmptyHeadLoads(cfg, Apply(cfg, d, MakeDirectory), ledger, scans.save);
  }

  // ----- what a capture reports -----

  /** What `capture` makes: a snapshot of this server whose content is canonical and well formed. */
  ghost predicate Issuable(cfg: Config, s: Snapshot) {
    && s.schemaVersion == SNAPSHOT_SCHEMA_VERSION
    && s.serverId == cfg.serverId
    && ValidContent(s.content)
    && s.graphFingerprint == FingerprintOf(s.content)
  }

  lemma CaptureIssuable(cfg: Config, input: CaptureInput)
    ensures var made := Capture(input.graph, cfg.serverId, input.snapshotId, input.capturedAt);
      made.Success? ==>
        && Issuable(cfg, made.value)
        && made.value.snapshotId == input.snapshotId
        && made.value.capturedAt == input.capturedAt
  {
    hide Canonical;
    if Capture(input.graph, cfg.serverId, input.snapshotId, input.capturedAt).Success? {
      CanonicalWellFormed(input.graph);
    }
  }

  ghost predicate LedgerIssued(cfg: Config, ledger: Ledger, now: int) {
    forall id :: id in ledger ==> Issuable(cfg, ledger[id]) && ledger[id].capturedAt <= now
  }

  predicate Terminates(status: DiffStatus) {
    status == INCOMPATIBLE_SNAPSHOT_SCHEMA || status == SERVER_MISMATCH || status == INVALID_TIME_ORDER || status == INVALID_SNAPSHOT
  }

  /** Comparing two issued snapshots in time order never ends in a failure status. */
  lemma IssuedCompare(cfg: Config, previous: Option<Snapshot>, current: Snapshot)
    requires Issuable(cfg, current)
    requires previous.Some? ==> Issuable(cfg, previous.value) && previous.value.capturedAt <= current.capturedAt
    ensures var diff := Compare(previous, current);
      && !Terminates(diff.status)
      && (diff.status == NO_BASELINE <==> previous.None?)
      && (previous.Some? && previous.value.graphFingerprint == current.graphFingerprint ==>
        diff.status == NO_CHANGES && diff.nodeChanges == [] && diff.relationshipChanges == [] && diff.uncertainties == [])
  {
    hide ValidContent, FoundNodeChanges, FoundRelationshipChanges, FoundUncertainties, SortBy, OrderedUncertainties, Count;
  }

  lemma LatestLoaded(cfg: Config, d: Disk, ledger: Ledger, scan: seq<string>, rescan: seq<string>)
    requires ValidConfig(cfg) && Agrees(cfg, d, ledger)
    ensures var r := LatestPlan(cfg, d, scan, rescan).result;
      r.Some? ==> Load(cfg, d, r.value.snapshotId) == r && r.value.snapshotId in ledger && ledger[r.value.snapshotId] == r.value
  {
    if d.created {
      var read := ReadPlan(cfg, d, scan);
      var after := ApplyAll(cfg, d, read.actions);
      AfterLatestCases(cfg, d, scan, rescan);
      ReadAgrees(cfg, d, ledger, scan);
      NoWritesShrink(cfg, d, read.actions);
      hide ReadPlan, LatestPlan, ApplyAll, LoadFile, ReadIndex, AfterLatest, PlanAgrees, EntriesAgree, RecoverPlan, FirstLoadable, Apply;
      var k := FirstLoadableFinds(cfg, after, read.result);
      if k < |read.result| { LoadedId(cfg, after, read.result[k].snapshotId); }
    }
  }

  /**
    The capture compared with the newest readable snapshot; it is not persisted exactly when that one
    has the same fingerprint, and then it reports no changes at all; it has no baseline exactly when
    no snapshot is readable; it does not end in a failure status.
   */
  ghost predicate Honest(cfg: Config, d: Disk, r: CaptureOutcome) {
    r.Captured? ==>
      var diff := Compare(r.previous, r.current);
      && IsLatestOf(r.previous, ReadableMetadata(cfg, d))
      && (!r.result.Saved? <==> r.previous.Some? && r.previous.value.graphFingerprint == r.current.graphFingerprint)
      && (!r.result.Saved? ==>
            r.result == Deduplicated(ToMetadata(r.previous.value)) && diff.status == NO_CHANGES
            && diff.nodeChanges == [] && diff.relationshipChanges == [] && diff.uncertainties == [])
      && (diff.status == NO_BASELINE <==> ReadableMetadata(cfg, d) == {})
      && !Terminates(diff.status)
  }

  /** Every uninterrupted capture on a directory that agrees with its ledger reports honestly. */
  lemma CaptureIsHonest(cfg: Config, d: Disk, ledger: Ledger, input: CaptureInput, scans: CaptureScans)
    requires ValidConfig(cfg) && Agrees(cfg, d, ledger) && |d.files| <= MAX_SNAPSHOT_FILES_SCANNED && ScansOf(cfg, d, scans)
    requires LedgerIssued(cfg, ledger, input.capturedAt)
    ensures Honest(cfg, d, CapturePlan(cfg, d, input, scans).result)
  {
    var last := AfterLatest(cfg, d, scans.read, scans.rescan);
    var previous := LatestPlan(cfg, d, scans.read, scans.rescan).result;
    var made := Capture(input.graph, cfg.serverId, input.snapshotId, input.capturedAt);
    ReadyToSave(cfg, d, ledger, scans);
    LatestLoaded(cfg, d, ledger, scans.read, scans.rescan);
    CaptureIssuable(cfg, input);
    hide LatestPlan, ReadPlan, Load, ApplyAll, Agrees, ReadableMetadata, HeadLoads, MetadataOrder, IsScan, Issuable, Capture, Compare, SavePlan, Newest, Apply, Opening, Validate;
    if made.Success? {
      SaveSeesLatest(cfg, last, ledger, previous, scans.save);
      SaveDecision(cfg, last, made.value, scans.save);
      IssuedCompare(cfg, previous, made.value);
    }
  }

  // ----- what the next capture compares with -----

  ghost predicate Newer(ledger: Ledger, s: Snapshot) {
    && s.snapshotId !in ledger
    && forall id :: id in ledger ==> MetadataOrder(ToMetadata(s), ToMetadata(ledger[id]))
  }

  lemma OpeningKeepsLatest(cfg: Config, d: Disk, ledger: Ledger, previous: Option<Snapshot>, scan: seq<string>)
    requires ValidConfig(cfg) && Agrees(cfg, d, ledger) && |d.files| <= MAX_SNAPSHOT_FILES_SCANNED && IsScan(d, scan)
    requires IsLatestOf(previous, ReadableMetadata(cfg, d))
    ensures var after := ApplyAll(cfg, d, Opening(cfg, d, scan));
      && Agrees(cfg, after, ledger) && after.created
      && IsLatestOf(previous, ReadableMetadata(cfg, after))
  {
    var made := Apply(cfg, d, MakeDirectory);
    MadeOf(cfg, d);
    OpeningApplies(cfg, d, scan);
    ActionKeepsAgrees(cfg, d, ledger, MakeDirectory);
    ReadAgrees(cfg, made, ledger, scan);
    hide Opening, ReadableMetadata, MetadataOrder, Agrees, Apply, IsScan, EntriesAgree, PlanAgrees;
    NoWritesShrink(cfg, made, ReadPlan(cfg, made, scan).actions);
    ActionsKeepAgrees(cfg, made, ledger, ReadPlan(cfg, made, scan).actions);
    hide ReadPlan, IndexTrusted, ApplyAll, RecoverPlan;
    ReadableShrinks(cfg, made, ApplyAll(cfg, made, ReadPlan(cfg, made, scan).actions));
    if IndexTrusted(cfg, made) {
      TrustedReadsOnly(cfg, made, scan);
    } else {
      UntrustedRecovers(cfg, made, scan);
      if previous.Some? { RecoveryKeepsLatest(cfg, made, scan, previous.value); }
    }
  }

  lemma NewestSortsFirst(all: seq<Metadata>, m: Metadata)
    requires m in all
    requires forall x :: x in all ==> MetadataOrder(m, x) && (x.snapshotId == m.snapshotId ==> x == m)
    ensures SortBy(MetadataOrder, all) != [] && SortBy(MetadataOrder, all)[0] == m
  {
    MetadataOrderTotal();
    SortBySorted(MetadataOrder, all);
    SortByElements(MetadataOrder, all);
    var sorted := SortBy(MetadataOrder, all);
    hide MetadataOrder, SortBy;
    assert m in sorted;
    SortedFirst(MetadataOrder, sorted, m);
    assert sorted[0] in all;
  }

  lemma NewerIsRetained(cfg: Config, ledger: Ledger, current: seq<Metadata>, s: Snapshot)
    requires ValidConfig(cfg) && EntriesAgree(current, cfg.retentionLimit, ledger) && Newer(ledger, s)
    ensures ToMetadata(s) in Retained(cfg, current, s)
  {
    var m := ToMetadata(s);
    var all := Filter(Except(s.snapshotId), current) + [m];
    MetadataOrderTotal();
    FilterElements(Except(s.snapshotId), current);
    hide MetadataOrder, SortBy, Filter;
    forall x | x in all ensures MetadataOrder(m, x) && (x.snapshotId == m.snapshotId ==> x == m) {
      if x != m { assert x in current && x.snapshotId in ledger; }
    }
    NewestSortsFirst(all, m);
    assert Retained(cfg, current, s)[0] == m;
  }

  lemma StoredFiles(cfg: Config, d: Disk, current: seq<Metadata>, s: Snapshot)
    ensures var after := ApplyAll(cfg, d, StoreActions(cfg, current, s));
      after.files == Apply(cfg, d, PutSnapshot(s)).files - Ids(Evicted(cfg, current, s))
  {
    var actions := StoreActions(cfg, current, s);
    var tidy := Tidy(Evicted(cfg, current, s), Retained(cfg, current, s));
    StorePrefix(cfg, d, current, s, |actions|);
    TidyPrefix(cfg, Apply(cfg, d, PutSnapshot(s)), Evicted(cfg, current, s), Retained(cfg, current, s), |tidy|);
    hide Evicted, Retained, ApplyAll, Apply, Ids;
    assert actions[..|actions|] == actions && tidy[..|tidy|] == tidy;
  }

  lemma EvictedExcludes(cfg: Config, current: seq<Metadata>, s: Snapshot)
    requires ToMetadata(s) in Retained(cfg, current, s)
    ensures s.snapshotId !in Ids(Evicted(cfg, current, s))
  {
    hide Retained;
    FilterElements(NotAmong(Retained(cfg, current, s)), current);
    IdsMember(Evicted(cfg, current, s), s.snapshotId);
  }

  /** A stored snapshot newer than everything issued is the newest readable one. */
  lemma StoreMakesLatest(cfg: Config, d: Disk, ledger: Ledger, current: seq<Metadata>, s: Snapshot)
    requires ValidConfig(cfg) && Agrees(cfg, d, ledger) && EntriesAgree(current, cfg.retentionLimit, ledger)
    requires Newer(ledger, s) && s.serverId == cfg.serverId && Acceptable(cfg, s)
    ensures IsLatestOf(Some(s), ReadableMetadata(cfg, ApplyAll(cfg, d, StoreActions(cfg, current, s))))
  {
    MetadataOrderTotal();
    NewerIsRetained(cfg, ledger, current, s);
    EvictedExcludes(cfg, current, s);
    StoredFiles(cfg, d, current, s);
    WrittenLoads(cfg, d, s);
    hide Retained, Evicted, Ids, ApplyAll, ReadIndex, LoadFile, ReadableMetadata, EntriesAgree, Acceptable, MetadataOrder, StoreActions;
    var after := ApplyAll(cfg, d, StoreActions(cfg, current, s));
    ReadableMember(cfg, after, ToMetadata(s));
    forall m | m in ReadableMetadata(cfg, after) ensures MetadataOrder(ToMetadata(s), m) {
      ReadableMember(cfg, after, m);
      if m.snapshotId != s.snapshotId {
        assert d.files[m.snapshotId] == after.files[m.snapshotId];
        assert ledger[m.snapshotId] == Load(cfg, d, m.snapshotId).value;
      }
    }
  }

  /** A capture leaves as the latest readable snapshot the one it reports as current, or the equal one it kept. */
  lemma CaptureBecomesLatest(cfg: Config, d: Disk, ledger: Ledger, input: CaptureInput, scans: CaptureScans)
    requires ValidConfig(cfg) && Agrees(cfg, d, ledger) && |d.files| <= MAX_SNAPSHOT_FILES_SCANNED && ScansOf(cfg, d, scans)
    requires CapturePlan(cfg, d, input, scans).result.Captured?
    requires Newer(ledger, CapturePlan(cfg, d, input, scans).result.current)
    ensures var plan := CapturePlan(cfg, d, input, scans);
      IsLatestOf(if plan.result.result.Saved? then Some(plan.result.current) else plan.result.previous,
        ReadableMetadata(cfg, ApplyAll(cfg, d, plan.actions)))
  {
    var last, latest := AfterLatest(cfg, d, scans.read, scans.rescan), LatestPlan(cfg, d, scans.read, scans.rescan);
    var current := Capture(input.graph, cfg.serverId, input.snapshotId, input.capturedAt).value;
    var save := SavePlan(cfg, last, current, scans.save);
    ReadyToSave(cfg, d, ledger, scans);
    CaptureIssuable(cfg, input);
    ApplyAllAppend(cfg, d, latest.actions, save.actions);
    SaveShape(cfg, last, current, scans.save);
    var listed := ReadPlan(cfg, Apply(cfg, last, MakeDirectory), scans.save).result;
    hide LatestPlan, ReadPlan, Load, ApplyAll, Agrees, ReadableMetadata, HeadLoads, MetadataOrder, IsScan, Capture, SavePlan, Newer, Acceptable, Opening, StoreActions;
    OpeningKeepsLatest(cfg, last, ledger, latest.result, scans.save);
    if save.result.Saved? {
      OpeningAgrees(cfg, last, ledger, scans.save);
      var ready := ApplyAll(cfg, last, Opening(cfg, last, scans.save));
      ApplyAllAppend(cfg, last, Opening(cfg, last, scans.save), StoreActions(cfg, listed, current));
      StoreMakesLatest(cfg, ready, ledger, listed, current);
    }
  }

  // ----- captures after any trace of the store -----

  /** Every save in a trace is of an issued snapshot, and the clock never runs backwards. */
  ghost predicate CapturesOnly(cfg: Config, clock: int, trace: seq<Event>)
    decreases |trace|
  {
    trace != [] ==>
      && (IsSave(trace[0]) ==> Issuable(cfg, trace[0].call.snapshot) && trace[0].call.snapshot.capturedAt >= clock)
      && CapturesOnly(cfg, Tick(clock, trace[0]), trace[1..])
  }

  predicate IsSave(e: Event) { e.Begin? && e.call.SaveAttempt? }

  function Tick(clock: int, e: Event): int { if IsSave(e) then e.call.snapshot.capturedAt else clock }

  function ClockAfter(clock: int, trace: seq<Event>): int
    decreases |trace|
  {
    if trace == [] then clock else ClockAfter(Tick(clock, trace[0]), trace[1..])
  }

  lemma {:induction false} TraceIssues(cfg: Config, m: Machine, clock: int, trace: seq<Event>)
    requires LedgerIssued(cfg, m.ledger, clock) && CapturesOnly(cfg, clock, trace)
    ensures LedgerIssued(cfg, TraceEnd(cfg, m, trace).ledger, ClockAfter(clock, trace))
    decreases |trace|
  {
    hide Issuable, Opened, Awaits, Resumed, Remains, Apply;
    if trace != [] { TraceIssues(cfg, Next(cfg, m, trace[0]), Tick(clock, trace[0]), trace[1..]); }
  }

  /**
    The honesty of captures holds after every interleaving of calls with their single reads and disk actions,
    crashes, the index breaking and at most 149 files turning unreadable, as long as snapshots come from captures in clock order.
   */
  lemma CapturesAreHonest(cfg: Config, start: int, trace: seq<Event>, input: CaptureInput, scans: CaptureScans)
    requires ValidConfig(cfg) && TraceHappens(cfg, InitialMachine, trace) && CapturesOnly(cfg, start, trace)
    requires ClockAfter(start, trace) <= input.capturedAt
    requires ScansOf(cfg, TraceEnd(cfg, InitialMachine, trace).disk, scans)
    requires |TraceEnd(cfg, InitialMachine, trace).damaged| <= MAX_DAMAGED
    ensures var d := TraceEnd(cfg, InitialMachine, trace).disk;
      Honest(cfg, d, CapturePlan(cfg, d, input, scans).result)
  {
    hide Capture, CapturePlan, ScansOf, Agrees, Honest, LedgerIssued, TraceEnd, TraceHappens, CapturesOnly, ClockAfter, IsScan, Apply;
    TraceReaches(cfg, start, trace);
    var m := TraceEnd(cfg, InitialMachine, trace);
    LaterClock(cfg, m.ledger, ClockAfter(start, trace), input.capturedAt);
    CaptureIsHonest(cfg, m.disk, m.ledger, input, scans);
  }

  lemma LaterClock(cfg: Config, ledger: Ledger, clock: int, now: int)
    requires LedgerIssued(cfg, ledger, clock) && clock <= now
    ensures LedgerIssued(cfg, ledger, now)
  {
    hide Issuable;
  }

  lemma TraceReaches(cfg: Config, start: int, trace: seq<Event>)
    requires ValidConfig(cfg) && TraceHappens(cfg, InitialMachine, trace) && CapturesOnly(cfg, start, trace)
    requires |TraceEnd(cfg, InitialMachine, trace).damaged| <= MAX_DAMAGED
    ensures var m := TraceEnd(cfg, InitialMachine, trace);
      && Agrees(cfg, m.disk, m.ledger)
      && |m.disk.files| <= MAX_SNAPSHOT_FILES_SCANNED
      && LedgerIssued(cfg, m.ledger, ClockAfter(start, trace))
  {
    InitialInvariant(cfg);
    TraceKeepsInvariant(cfg, InitialMachine, trace);
    TraceIssues(cfg, InitialMachine, start, trace);
    hide Agrees, PlanAgrees, RestAgrees, Undamaged, RoomToWrite, KeysAfter, LedgerIssued, TraceEnd, TraceHappens, CapturesOnly, ClockAfter;
    FilesBounded(cfg, TraceEnd(cfg, InitialMachine, trace));
  }
}

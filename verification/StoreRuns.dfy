/** Whole runs of saves and reads, any of which a crash may cut short. */
module StoreRuns {
  import opened Ordering
  import opened Collections
  import opened Snapshots
  import opened SnapshotStore
  import opened History
  import opened StoreRecovery
  import opened StoreCrash

  function Opening(cfg: Config, d: Disk, scan: seq<string>): seq<Action> {
    [MakeDirectory] + ReadPlan(cfg, Apply(cfg, d, MakeDirectory), scan).actions
  }

  lemma OpeningPrefix(cfg: Config, d: Disk, scan: seq<string>, k: nat)
    requires 1 <= k <= |Opening(cfg, d, scan)|
    ensures var made := Apply(cfg, d, MakeDirectory);
      ApplyAll(cfg, d, Opening(cfg, d, scan)[..k]) ==
        ApplyAll(cfg, made, ReadPlan(cfg, made, scan).actions[..k - 1])
  {
    hide ReadPlan;
    var first := [MakeDirectory];
    var actions := ReadPlan(cfg, Apply(cfg, d, MakeDirectory), scan).actions;
    ApplyPrefixAppend(cfg, d, first, actions, k);
    assert first[..1] == first && first[..0] == [] && actions[..0] == [];
  }

  lemma OpeningKeepsGood(cfg: Config, d: Disk, ledger: Ledger, h: seq<Metadata>, scan: seq<string>, k: nat)
    requires ValidConfig(cfg) && Good(cfg, d, ledger, h) && IsScan(d, scan)
    requires k <= |Opening(cfg, d, scan)|
    ensures ReadPlan(cfg, Apply(cfg, d, MakeDirectory), scan).result == h
    ensures var after := ApplyAll(cfg, d, Opening(cfg, d, scan)[..k]);
      Good(cfg, after, ledger, h)
      && (k == |Opening(cfg, d, scan)| ==> after.created && |after.files| <= cfg.retentionLimit)
  {
    hide Good, ReadPlan;
    var made := Apply(cfg, d, MakeDirectory);
    MakeKeepsGood(cfg, d, ledger, h);
    ReadKeepsGood(cfg, made, ledger, h, scan, 0);
    if k == 0 {
      assert Opening(cfg, d, scan)[..0] == [];
    } else {
      OpeningPrefix(cfg, d, scan, k);
      ReadKeepsGood(cfg, made, ledger, h, scan, k - 1);
    }
  }

  lemma StorePrefix(cfg: Config, d: Disk, h: seq<Metadata>, s: Snapshot, k: nat)
    requires 1 <= k <= |StoreActions(cfg, h, s)|
    ensures ApplyAll(cfg, d, StoreActions(cfg, h, s)[..k]) ==
      ApplyAll(cfg, Apply(cfg, d, PutSnapshot(s)), Tidy(Evicted(cfg, h, s), Retained(cfg, h, s))[..k - 1])
  {
    var put, tidy := [PutSnapshot(s)], Tidy(Evicted(cfg, h, s), Retained(cfg, h, s));
    assert StoreActions(cfg, h, s) == put + tidy;
    ApplyPrefixAppend(cfg, d, put, tidy, k);
    assert put[..1] == put && put[..0] == [] && tidy[..0] == [];
  }

  /** The rename is the first action of storing; everything after it leaves the new history alone. */
  lemma StoreKeepsGood(cfg: Config, d: Disk, ledger: Ledger, h: seq<Metadata>, s: Snapshot, k: nat)
    requires ValidConfig(cfg) && Good(cfg, d, ledger, h) && Storable(cfg, ledger, s)
    requires d.created && |d.files| <= cfg.retentionLimit && 1 <= k <= |StoreActions(cfg, h, s)|
    ensures Good(cfg, ApplyAll(cfg, d, StoreActions(cfg, h, s)[..k]), ledger[s.snapshotId := s], Retained(cfg, h, s))
  {
    StorePrefix(cfg, d, h, s, k);
    PutCommits(cfg, d, ledger, h, s);
    var retained := Retained(cfg, h, s);
    FilterElements(NotAmong(retained), h);
    var gone := Evicted(cfg, h, s);
    forall m | m in gone ensures !Lists(retained, m.snapshotId) { assert NotAmong(retained)(m); }
    TidyKeepsGood(cfg, Apply(cfg, d, PutSnapshot(s)), ledger[s.snapshotId := s], retained, gone, k - 1);
  }

  predicate Repeats(h: seq<Metadata>, s: Snapshot) {
    h != [] && h[0].graphFingerprint == s.graphFingerprint
  }

  predicate Acceptable(cfg: Config, s: Snapshot) { Validate(s) && cfg.encodedSize(s) <= cfg.maxSnapshotBytes }

  /** What one uninterrupted `save` does to the history. */
  function SavedHistory(cfg: Config, h: seq<Metadata>, s: Snapshot): seq<Metadata> {
    if Acceptable(cfg, s) && !Repeats(h, s) then Retained(cfg, h, s) else h
  }

  lemma NewestLoaded(cfg: Config, d: Disk, ledger: Ledger, h: seq<Metadata>)
    requires Good(cfg, d, ledger, h)
    ensures h == [] ==> Newest(cfg, d, h).None?
    ensures h != [] ==> Newest(cfg, d, h).Some? && ToMetadata(Newest(cfg, d, h).value) == h[0]
  {
    if h != [] {
      assert h[0] in h;
      ReadableMember(cfg, d, h[0]);
    }
  }

  /** The plan of `save` in terms of the history alone. */
  lemma SaveOutcome(cfg: Config, d: Disk, ledger: Ledger, h: seq<Metadata>, s: Snapshot, scan: seq<string>)
    requires ValidConfig(cfg) && Good(cfg, d, ledger, h) && IsScan(d, scan)
    ensures var plan := SavePlan(cfg, d, s, scan);
      && (plan.result.Saved? <==> Acceptable(cfg, s) && !Repeats(h, s))
      && (plan.result.Deduplicated? <==> Validate(s) && Repeats(h, s))
      && (plan.result.Deduplicated? ==> plan.result.existing == h[0])
      && (plan.result.InvalidSnapshot? ==> plan.actions == [])
      && (plan.result.Saved? ==> plan.actions == Opening(cfg, d, scan) + StoreActions(cfg, h, s))
      && (plan.result.Deduplicated? || plan.result.TooLarge? ==> plan.actions == Opening(cfg, d, scan))
  {
    var opening := Opening(cfg, d, scan);
    OpeningKeepsGood(cfg, d, ledger, h, scan, |opening|);
    assert opening[..|opening|] == opening;
    NewestLoaded(cfg, ApplyAll(cfg, d, opening), ledger, h);
  }

  ghost predicate Committed(cfg: Config, d: Disk, s: Snapshot, scan: seq<string>, k: nat) {
    PutSnapshot(s) in SavePlan(cfg, d, s, scan).actions[..Min(k, |SavePlan(cfg, d, s, scan).actions|)]
  }

  lemma OpeningWrites(cfg: Config, d: Disk, scan: seq<string>, s: Snapshot)
    ensures PutSnapshot(s) !in Opening(cfg, d, scan)
  {
    hide LoadMetadata, SortBy, FilterMap, Take, ReadIndex, IndexMatches, Filter;
  }

  /** Up to the end of reading nothing has happened to the history. */
  lemma SaveBeforeStore(cfg: Config, d: Disk, ledger: Ledger, h: seq<Metadata>, s: Snapshot, scan: seq<string>, k: nat)
    requires ValidConfig(cfg) && Good(cfg, d, ledger, h) && IsScan(d, scan) && s.snapshotId !in ledger
    requires k <= |SavePlan(cfg, d, s, scan).actions| && k <= |Opening(cfg, d, scan)|
    ensures Good(cfg, ApplyAll(cfg, d, SavePlan(cfg, d, s, scan).actions[..k]), ledger[s.snapshotId := s], h)
    ensures !Committed(cfg, d, s, scan, k)
  {
    hide Good, SavePlan, Opening;
    var actions, opening := SavePlan(cfg, d, s, scan).actions, Opening(cfg, d, scan);
    OpeningWrites(cfg, d, scan, s);
    SaveOutcome(cfg, d, ledger, h, s, scan);
    if k == 0 {
      assert actions[..k] == [];
      IssueKeepsGood(cfg, d, ledger, h, s);
    } else {
      assert actions[..k] == opening[..k];
      OpeningKeepsGood(cfg, d, ledger, h, scan, k);
      IssueKeepsGood(cfg, ApplyAll(cfg, d, actions[..k]), ledger, h, s);
    }
  }

  lemma FirstOfSecond<T>(a: seq<T>, b: seq<T>, k: nat)
    requires |a| < k <= |a| + |b|
    ensures b[0] in (a + b)[..k]
  {
    assert (a + b)[..k][|a|] == b[0];
  }

  lemma SaveCommits(cfg: Config, d: Disk, ledger: Ledger, h: seq<Metadata>, s: Snapshot, scan: seq<string>, k: nat)
    requires ValidConfig(cfg) && Good(cfg, d, ledger, h) && IsScan(d, scan)
    requires |Opening(cfg, d, scan)| < k <= |SavePlan(cfg, d, s, scan).actions|
    ensures Committed(cfg, d, s, scan, k)
    ensures Acceptable(cfg, s) && !Repeats(h, s)
    ensures SavePlan(cfg, d, s, scan).actions == Opening(cfg, d, scan) + StoreActions(cfg, h, s)
  {
    SaveOutcome(cfg, d, ledger, h, s, scan);
    FirstOfSecond(Opening(cfg, d, scan), StoreActions(cfg, h, s), k);
  }

  /** From the rename on the new history is in force. */
  lemma SaveAfterStore(cfg: Config, d: Disk, ledger: Ledger, h: seq<Metadata>, s: Snapshot, scan: seq<string>, k: nat)
    requires ValidConfig(cfg) && Good(cfg, d, ledger, h) && IsScan(d, scan)
    requires s.serverId == cfg.serverId && s.snapshotId !in ledger
    requires |Opening(cfg, d, scan)| < k <= |SavePlan(cfg, d, s, scan).actions|
    ensures Good(cfg, ApplyAll(cfg, d, SavePlan(cfg, d, s, scan).actions[..k]), ledger[s.snapshotId := s], Retained(cfg, h, s))
  {
    hide Good, ApplyAll, SavePlan, Opening, StoreActions, Storable;
    var opening, store := Opening(cfg, d, scan), StoreActions(cfg, h, s);
    SaveCommits(cfg, d, ledger, h, s, scan, k);
    OpeningKeepsGood(cfg, d, ledger, h, scan, |opening|);
    assert opening[..|opening|] == opening;
    ApplyPrefixAppend(cfg, d, opening, store, k);
    StoreKeepsGood(cfg, ApplyAll(cfg, d, opening), ledger, h, s, k - |opening|);
  }

  /**
    `save` is atomic at the rename of the snapshot file: cut after any step, the directory has the
    old history or the new one, and the new one exactly when the rename is among the steps done.
   */
  lemma SaveIsAtomic(cfg: Config, d: Disk, ledger: Ledger, h: seq<Metadata>, s: Snapshot, scan: seq<string>, k: nat)
    requires ValidConfig(cfg) && Good(cfg, d, ledger, h) && IsScan(d, scan)
    requires s.serverId == cfg.serverId && s.snapshotId !in ledger
    requires k <= |SavePlan(cfg, d, s, scan).actions|
    ensures var actions := SavePlan(cfg, d, s, scan).actions;
      var after := ApplyAll(cfg, d, actions[..k]);
      && Good(cfg, after, ledger[s.snapshotId := s], if Committed(cfg, d, s, scan, k) then Retained(cfg, h, s) else h)
      && (k == |actions| ==> (Committed(cfg, d, s, scan, k) <==> Acceptable(cfg, s) && !Repeats(h, s)))
  {
    SaveOutcome(cfg, d, ledger, h, s, scan);
    if k <= |Opening(cfg, d, scan)| {
      SaveBeforeStore(cfg, d, ledger, h, s, scan, k);
    } else {
      SaveCommits(cfg, d, ledger, h, s, scan, k);
      SaveAfterStore(cfg, d, ledger, h, s, scan, k);
    }
  }

  // ----- reads -----

  lemma LatestOnGood(cfg: Config, d: Disk, ledger: Ledger, h: seq<Metadata>, scan: seq<string>, rescan: seq<string>)
    requires ValidConfig(cfg) && Good(cfg, d, ledger, h) && IsScan(d, scan) && d.created
    ensures LatestPlan(cfg, d, scan, rescan).actions == ReadPlan(cfg, d, scan).actions
    ensures var r := LatestPlan(cfg, d, scan, rescan).result;
      (h == [] ==> r.None?) && (h != [] ==> r.Some? && ToMetadata(r.value) == h[0])
  {
    hide Good, ReadPlan, Load;
    var actions := ReadPlan(cfg, d, scan).actions;
    ReadKeepsGood(cfg, d, ledger, h, scan, |actions|);
    assert actions[..|actions|] == actions;
    NewestLoaded(cfg, ApplyAll(cfg, d, actions), ledger, h);
  }

  lemma LoadOnGood(cfg: Config, d: Disk, ledger: Ledger, h: seq<Metadata>, id: string, scan: seq<string>)
    requires Good(cfg, d, ledger, h)
    ensures LoadPlan(cfg, d, id, scan) == Plan([], Load(cfg, d, id))
  {
  }

  // ----- runs with crashes -----

  /** One call, cut after at most `steps` disk actions. */
  datatype Attempt =
    | SaveAttempt(snapshot: Snapshot, scan: seq<string>, steps: nat)
    | ListAttempt(scan: seq<string>, steps: nat)
    | LatestAttempt(scan: seq<string>, rescan: seq<string>, steps: nat)
    | LoadAttempt(id: string, scan: seq<string>, steps: nat)

  function Planned(cfg: Config, d: Disk, a: Attempt): seq<Action> {
    match a
    case SaveAttempt(s, scan, _) => SavePlan(cfg, d, s, scan).actions
    case ListAttempt(scan, _) => ListPlan(cfg, d, scan).actions
    case LatestAttempt(scan, rescan, _) => LatestPlan(cfg, d, scan, rescan).actions
    case LoadAttempt(id, scan, _) => LoadPlan(cfg, d, id, scan).actions
  }

  function Perform(cfg: Config, d: Disk, a: Attempt): Disk {
    ApplyAll(cfg, d, Planned(cfg, d, a)[..Min(a.steps, |Planned(cfg, d, a)|)])
  }

  function Issue(ledger: Ledger, a: Attempt): Ledger {
    if a.SaveAttempt? then ledger[a.snapshot.snapshotId := a.snapshot] else ledger
  }

  /** The scan is a scan of this directory, and a saved snapshot belongs to it under a fresh identifier. */
  ghost predicate Enabled(cfg: Config, d: Disk, ledger: Ledger, a: Attempt) {
    && IsScan(d, a.scan)
    && (a.SaveAttempt? ==> a.snapshot.serverId == cfg.serverId && a.snapshot.snapshotId !in ledger)
  }

  ghost function NextHistory(cfg: Config, d: Disk, h: seq<Metadata>, a: Attempt): seq<Metadata> {
    if a.SaveAttempt? && Committed(cfg, d, a.snapshot, a.scan, a.steps) then Retained(cfg, h, a.snapshot) else h
  }

  lemma AttemptKeepsGood(cfg: Config, d: Disk, ledger: Ledger, h: seq<Metadata>, a: Attempt)
    requires ValidConfig(cfg) && Good(cfg, d, ledger, h) && Enabled(cfg, d, ledger, a)
    ensures Good(cfg, Perform(cfg, d, a), Issue(ledger, a), NextHistory(cfg, d, h, a))
  {
    hide Good, SavePlan, ReadPlan, Retained, IsScan;
    var k := Min(a.steps, |Planned(cfg, d, a)|);
    match a {
      case SaveAttempt(s, scan, _) =>
        SaveIsAtomic(cfg, d, ledger, h, s, scan, k);
      case ListAttempt(scan, _) =>
        if d.created { ReadKeepsGood(cfg, d, ledger, h, scan, k); }
      case LatestAttempt(scan, rescan, _) =>
        if d.created {
          LatestOnGood(cfg, d, ledger, h, scan, rescan);
          ReadKeepsGood(cfg, d, ledger, h, scan, k);
        }
      case LoadAttempt(id, scan, _) =>
        LoadOnGood(cfg, d, ledger, h, id, scan);
    }
  }

  ghost predicate RunEnabled(cfg: Config, d: Disk, ledger: Ledger, run: seq<Attempt>)
    decreases |run|
  {
    run != [] ==>
      Enabled(cfg, d, ledger, run[0]) && RunEnabled(cfg, Perform(cfg, d, run[0]), Issue(ledger, run[0]), run[1..])
  }

  function RunDisk(cfg: Config, d: Disk, run: seq<Attempt>): Disk
    decreases |run|
  {
    if run == [] then d else RunDisk(cfg, Perform(cfg, d, run[0]), run[1..])
  }

  function RunLedger(ledger: Ledger, run: seq<Attempt>): Ledger
    decreases |run|
  {
    if run == [] then ledger else RunLedger(Issue(ledger, run[0]), run[1..])
  }

  /** The history as an atomic register: it changes only when a save commits. */
  ghost function RunHistory(cfg: Config, d: Disk, h: seq<Metadata>, run: seq<Attempt>): seq<Metadata>
    decreases |run|
  {
    if run == [] then h
    else RunHistory(cfg, Perform(cfg, d, run[0]), NextHistory(cfg, d, h, run[0]), run[1..])
  }

  const EmptyDisk := Disk(false, map[], NoIndex)

  lemma {:induction false} RunKeepsGood(cfg: Config, d: Disk, ledger: Ledger, h: seq<Metadata>, run: seq<Attempt>)
    requires ValidConfig(cfg) && Good(cfg, d, ledger, h) && RunEnabled(cfg, d, ledger, run)
    ensures Good(cfg, RunDisk(cfg, d, run), RunLedger(ledger, run), RunHistory(cfg, d, h, run))
    decreases |run|
  {
    if run != [] {
      AttemptKeepsGood(cfg, d, ledger, h, run[0]);
      RunKeepsGood(cfg, Perform(cfg, d, run[0]), Issue(ledger, run[0]), NextHistory(cfg, d, h, run[0]), run[1..]);
    }
  }

  lemma EmptyIsGood(cfg: Config)
    ensures Good(cfg, EmptyDisk, map[], [])
  {
    assert ReadableMetadata(cfg, EmptyDisk) == {};
  }

  /**
    The crash-prone directory implements an atomic history: after any run of calls, each cut at any
    step, the next read returns the history of the committed saves alone.
   */
  lemma RunsAreAtomic(cfg: Config, run: seq<Attempt>, scan: seq<string>)
    requires ValidConfig(cfg) && RunEnabled(cfg, EmptyDisk, map[], run)
    requires IsScan(RunDisk(cfg, EmptyDisk, run), scan)
    ensures var d := RunDisk(cfg, EmptyDisk, run);
      var h := RunHistory(cfg, EmptyDisk, [], run);
      && ListPlan(cfg, d, scan).result == h
      && IsNewest(h, cfg.retentionLimit, ReadableMetadata(cfg, d))
      && |d.files| <= cfg.retentionLimit + 1
  {
    EmptyIsGood(cfg);
    RunKeepsGood(cfg, EmptyDisk, map[], [], run);
    GoodHistory(cfg, RunDisk(cfg, EmptyDisk, run), RunLedger(map[], run), RunHistory(cfg, EmptyDisk, [], run), scan);
  }
}

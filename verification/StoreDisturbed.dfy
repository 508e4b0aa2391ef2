/** What `latest` returns when files turn unreadable between its own reads. */
module StoreDisturbed {
  import opened Ordering
  import opened Snapshots
  import opened SnapshotStore
  import opened History
  import opened StoreRecovery
  import opened StoreCrash
  import opened StoreRuns
  import opened StoreCorruption
  import opened StoreMachine

  /** Every file that loads and that the pending actions keep is listed. */
  ghost predicate Covers(cfg: Config, d: Disk, pending: seq<Action>, entries: seq<Metadata>) {
    forall id :: id in KeysAfter(d.files.Keys, pending) && Load(cfg, d, id).Some? ==> Lists(entries, id)
  }

  /** A call of `latest` that still has to load knows of every file it could load. */
  ghost predicate Searching(cfg: Config, m: Machine) {
    m.rest.Find? && |m.damaged| <= MAX_DAMAGED ==>
      && Sorted(MetadataOrder, m.rest.entries) && EntriesAgree(m.rest.entries, cfg.retentionLimit, m.ledger)
      && (forall a :: a in m.pending ==> !a.PutSnapshot?)
      && Covers(cfg, m.disk, m.pending, m.rest.entries)
  }

  lemma TrustedCovers(cfg: Config, d: Disk, ledger: Ledger, scan: seq<string>)
    requires ValidConfig(cfg) && Agrees(cfg, d, ledger) && IndexTrusted(cfg, d)
    ensures Covers(cfg, d, ReadPlan(cfg, d, scan).actions, ReadPlan(cfg, d, scan).result)
    ensures Sorted(MetadataOrder, ReadPlan(cfg, d, scan).result)
  {
    hide ReadPlan, Load, IndexTrusted, MetadataOrder;
    TrustedRead(cfg, d, ledger, scan);
    forall id | id in d.files ensures Lists(ReadPlan(cfg, d, scan).result, id) {
      assert ToMetadata(ledger[id]) in ReadPlan(cfg, d, scan).result;
    }
  }

  lemma RecoveryCovers(cfg: Config, d: Disk, scan: seq<string>)
    requires IsScan(d, scan) && |d.files| <= MAX_SNAPSHOT_FILES_SCANNED
    ensures Covers(cfg, d, RecoverPlan(cfg, d, scan).actions, RecoverPlan(cfg, d, scan).result)
    ensures Sorted(MetadataOrder, RecoverPlan(cfg, d, scan).result)
  {
    hide Load, MetadataOrder, Valid, Surplus, RecoverPlan, Take, ApplyAll, KeysAfter, IsScan, ScannedMetadata, ReadableMetadata;
    var plan := RecoverPlan(cfg, d, scan);
    var damaged := set id | id in d.files && Load(cfg, d, id).None?;
    RecoverExact(cfg, d, scan);
    RecoveredDisk(cfg, d, scan);
    KeysAfterApplies(cfg, d, plan.actions);
    forall id | id in KeysAfter(d.files.Keys, plan.actions) && Load(cfg, d, id).Some? ensures Lists(plan.result, id) {
      UndamagedValid(cfg, d, scan, damaged, id);
      SurplusCovers(cfg, d, plan.result, scan, id);
    }
  }

  lemma BeginSearches(cfg: Config, m: Machine, call: Attempt)
    requires ValidConfig(cfg) && Invariant(cfg, m) && CanHappen(cfg, m, Begin(call))
    ensures Searching(cfg, Next(cfg, m, Begin(call)))
  {
    hide Agrees, PlanAgrees, RestAgrees, Undamaged, IsScan, Roomy, ReadPlan, RecoverPlan, Covers, IndexTrusted, Sorted, EntriesAgree;
    if call.LatestAttempt? && m.disk.created && |m.damaged| <= MAX_DAMAGED {
      FilesBounded(cfg, m);
      ReadAgrees(cfg, m.disk, m.ledger, call.scan);
      if IndexTrusted(cfg, m.disk) {
        TrustedCovers(cfg, m.disk, m.ledger, call.scan);
      } else {
        RecoveryCovers(cfg, m.disk, call.scan);
        Untrusted(cfg, m.disk, call.scan);
      }
    }
  }

  lemma Untrusted(cfg: Config, d: Disk, scan: seq<string>)
    requires !IndexTrusted(cfg, d)
    ensures ReadPlan(cfg, d, scan) == RecoverPlan(cfg, d, scan)
  {
    hide RecoverPlan, ReadIndex, IndexMatches;
  }

  lemma SurvivorLoads(cfg: Config, d: Disk, a: Action, id: string)
    requires !a.PutSnapshot? && Load(cfg, Apply(cfg, d, a), id).Some?
    ensures Load(cfg, d, id).Some?
  {
    hide LoadFile;
  }

  lemma StepSearches(cfg: Config, m: Machine)
    requires Searching(cfg, m) && m.pending != []
    ensures Searching(cfg, Next(cfg, m, Step))
  {
    hide Load, Sorted, EntriesAgree, Lists;
    if m.rest.Find? && |m.damaged| <= MAX_DAMAGED {
      var a, next := m.pending[0], Next(cfg, m, Step);
      assert a in m.pending;
      assert next.disk.files.Keys == NextKeys(m.disk.files.Keys, a);
      forall id | id in KeysAfter(next.disk.files.Keys, next.pending) && Load(cfg, next.disk, id).Some? ensures Lists(m.rest.entries, id) {
        SurvivorLoads(cfg, m.disk, a, id);
      }
    }
  }

  lemma DamageSearches(cfg: Config, m: Machine, id: string, file: StoredFile)
    requires Searching(cfg, m) && CanHappen(cfg, m, Damage(id, file))
    ensures Searching(cfg, Next(cfg, m, Damage(id, file)))
  {
    hide LoadFile, Sorted, EntriesAgree, Lists;
    var next := Next(cfg, m, Damage(id, file));
    SubsetSize(m.damaged, next.damaged);
    assert next.disk.files.Keys == m.disk.files.Keys;
  }

  lemma ResumeSearches(cfg: Config, m: Machine, scan: seq<string>)
    ensures Searching(cfg, Next(cfg, m, Resume(scan)))
  {
    hide FirstLoadable, Resumed, Covers;
  }

  lemma EventSearches(cfg: Config, m: Machine, e: Event)
    requires ValidConfig(cfg) && Invariant(cfg, m) && Searching(cfg, m) && CanHappen(cfg, m, e)
    ensures Searching(cfg, Next(cfg, m, e))
  {
    match e {
      case Begin(call) =>
        hide Invariant, Searching;
        BeginSearches(cfg, m, call);
      case Step =>
        hide Invariant, Searching;
        StepSearches(cfg, m);
      case Resume(scan) => ResumeSearches(cfg, m, scan);
      case Crash =>
      case Damage(id, file) =>
        hide Invariant, Searching;
        DamageSearches(cfg, m, id, file);
      case BreakIndex =>
        hide Invariant, LoadFile, EntriesAgree;
    }
  }

  lemma {:induction false} TraceSearches(cfg: Config, m: Machine, trace: seq<Event>)
    requires ValidConfig(cfg) && Invariant(cfg, m) && Searching(cfg, m) && TraceHappens(cfg, m, trace)
    ensures Invariant(cfg, TraceEnd(cfg, m, trace)) && Searching(cfg, TraceEnd(cfg, m, trace))
    decreases |trace|
  {
    hide Invariant, Searching, CanHappen;
    if trace != [] {
      EventKeepsInvariant(cfg, m, trace[0]);
      EventSearches(cfg, m, trace[0]);
      TraceSearches(cfg, Next(cfg, m, trace[0]), trace[1..]);
    }
  }

  lemma FoundIsNewest(cfg: Config, d: Disk, ledger: Ledger, entries: seq<Metadata>)
    requires Agrees(cfg, d, ledger) && Sorted(MetadataOrder, entries) && EntriesAgree(entries, cfg.retentionLimit, ledger)
    requires Covers(cfg, d, [], entries)
    ensures IsLatestOf(FirstLoadable(cfg, d, entries), ReadableMetadata(cfg, d))
  {
    hide Load, MetadataOrder, FirstLoadable, ReadableMetadata, Agrees;
    MetadataOrderTotal();
    var k := FirstLoadableFinds(cfg, d, entries);
    forall m | m in ReadableMetadata(cfg, d) ensures k < |entries| && MetadataOrder(entries[k], m) {
      ReadableRecorded(cfg, d, ledger, m);
      var listed :| listed in entries && listed.snapshotId == m.snapshotId;
      var i :| 0 <= i < |entries| && entries[i] == listed;
      assert i >= k;
    }
    if k < |entries| {
      assert entries[k] in entries;
      AgreedEntry(cfg, d, ledger, entries[k]);
    }
  }

  /**
    A call of `latest` that files turned unreadable under, between its reading of the index and its loads,
    still returns the newest snapshot that is readable when it loads, and nothing exactly when none is.
   */
  lemma DisturbedLatest(cfg: Config, trace: seq<Event>)
    requires ValidConfig(cfg) && TraceHappens(cfg, InitialMachine, trace)
    requires var m := TraceEnd(cfg, InitialMachine, trace); m.pending == [] && m.rest.Find? && |m.damaged| <= MAX_DAMAGED
    ensures var m := TraceEnd(cfg, InitialMachine, trace);
      IsLatestOf(FirstLoadable(cfg, m.disk, m.rest.entries), ReadableMetadata(cfg, m.disk))
  {
    InitialInvariant(cfg);
    TraceSearches(cfg, InitialMachine, trace);
    var m := TraceEnd(cfg, InitialMachine, trace);
    hide Agrees, PlanAgrees, RestAgrees, Undamaged, Roomy, TraceEnd, TraceHappens, Covers, Sorted, EntriesAgree, IsLatestOf, FirstLoadable;
    FoundIsNewest(cfg, m.disk, m.ledger, m.rest.entries);
  }
}

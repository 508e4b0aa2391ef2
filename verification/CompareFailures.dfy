/** A stored file that every check of the store accepts and on which a comparison still fails. */
module CompareFailures {
  import opened Collections
  import opened Snapshots
  import opened SnapshotStore
  import opened StoreRuns
  import opened StoreHistory
  import opened Comparing

  lemma SavedLoads(cfg: Config, s: Snapshot)
    requires Acceptable(cfg, s) && s.serverId == cfg.serverId
    ensures Load(cfg, AfterFirstSave(cfg, s), s.snapshotId) == Some(s)
  {
    hide Validate;
  }

  lemma SameDirectory(cfg: Config, s: Snapshot)
    ensures var d := AfterFirstSave(cfg, s); d == d.(files := map[s.snapshotId := StoredFile(Some(s), cfg.encodedSize(s))])
  {
  }

  /** Whatever repeats a subsystem and is saved first is stored and listed, and comparing it fails inside the diff engine. */
  lemma RepeatingStored(cfg: Config, s: Snapshot, scans: CompareScans)
    requires ValidConfig(cfg) && Acceptable(cfg, s) && s.serverId == cfg.serverId && RepeatsSubsystem(s.content)
    ensures var d := ApplyAll(cfg, EmptyDisk, SavePlan(cfg, EmptyDisk, s, []).actions);
      && ListPlan(cfg, d, scans.list).result == [ToMetadata(s)]
      && ComparePlan(cfg, d, s.snapshotId, s.snapshotId, scans).result == Failure(COMPARISON_FAILED)
  {
    var d := AfterFirstSave(cfg, s);
    SavedFirst(cfg, s);
    SavedLoads(cfg, s);
    OneFileTrusted(cfg, s, StoredFile(Some(s), cfg.encodedSize(s)));
    SameDirectory(cfg, s);
    OneEntry(ToMetadata(s));
    NothingApplied(cfg, d);
    hide Acceptable, AfterFirstSave, SavePlan, ApplyAll, ListPlan, Load, RepeatsSubsystem, ComparePlan, Map, PayloadOf;
    CompareOnAnyDisk(cfg, d, s.snapshotId, s.snapshotId, scans);
  }

  const TWICE := Content([], [], [DiscoveryQuality("docker", "AVAILABLE", []), DiscoveryQuality("docker", "AVAILABLE", [])])
  const REPEATING := Snapshot(SNAPSHOT_SCHEMA_VERSION, SOME_UUID, SOME_UUID, 0, FingerprintOf(TWICE), TWICE)

  lemma RepeatingAcceptable()
    ensures ValidConfig(SMALL) && Acceptable(SMALL, REPEATING) && REPEATING.serverId == SMALL.serverId && RepeatsSubsystem(REPEATING.content)
  {
    SomeUuid();
    hide IsUuid;
    var q := TWICE.discoveryQuality;
    assert SubsystemName(q[0]) == SubsystemName(q[1]);
  }

  /** One such snapshot, saved into an empty directory. */
  lemma RepeatingExample(scans: CompareScans)
    ensures ValidConfig(SMALL)
    ensures var d := ApplyAll(SMALL, EmptyDisk, SavePlan(SMALL, EmptyDisk, REPEATING, []).actions);
      && ListPlan(SMALL, d, scans.list).result == [ToMetadata(REPEATING)]
      && ComparePlan(SMALL, d, SOME_UUID, SOME_UUID, scans).result == Failure(COMPARISON_FAILED)
  {
    RepeatingAcceptable();
    hide Acceptable, RepeatsSubsystem, SavePlan, ListPlan, ComparePlan;
    RepeatingStored(SMALL, REPEATING, scans);
  }
}

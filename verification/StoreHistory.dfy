/** The history that `listMetadata` returns after any trace, and the dead file it can still list. */
module StoreHistory {
  import opened Ordering
  import opened Collections
  import opened Snapshots
  import opened SnapshotStore
  import opened History
  import opened StoreRecovery
  import opened StoreRuns
  import opened StoreMachine
  import opened StoreCalls

  /**
    After any interleaving of calls with their single reads and disk actions, crashes, the index breaking and
    at most 149 files turning unreadable, `listMetadata` returns the newest readable snapshots exactly when no file is unreadable or the index
    is not trusted.
   */
  lemma HistoryAfterAnyTrace(cfg: Config, trace: seq<Event>, scan: seq<string>)
    requires ValidConfig(cfg) && TraceHappens(cfg, InitialMachine, trace)
    requires IsScan(TraceEnd(cfg, InitialMachine, trace).disk, scan)
    requires |TraceEnd(cfg, InitialMachine, trace).damaged| <= MAX_DAMAGED
    ensures var d := TraceEnd(cfg, InitialMachine, trace).disk;
      IsNewest(ListPlan(cfg, d, scan).result, cfg.retentionLimit, ReadableMetadata(cfg, d)) <==> Intact(cfg, d) || !IndexTrusted(cfg, d)
  {
    InitialInvariant(cfg);
    TraceKeepsInvariant(cfg, InitialMachine, trace);
    var m := TraceEnd(cfg, InitialMachine, trace);
    FilesBounded(cfg, m);
    hide Agrees, PlanAgrees, RestAgrees, Undamaged, TraceEnd, TraceHappens, ListPlan, Intact, IndexTrusted, IsNewest, IsScan, Roomy;
    HistoryExact(cfg, m.disk, m.ledger, scan);
  }

  // ----- a dead file in the history -----

  /** The first save of a server: four actions. */
  lemma FirstSave(cfg: Config, s: Snapshot)
    requires ValidConfig(cfg) && Acceptable(cfg, s)
    ensures SavePlan(cfg, EmptyDisk, s, []).actions == [MakeDirectory, PutIndex([]), PutSnapshot(s), PutIndex([ToMetadata(s)])]
  {
    hide Validate;
    var made := Apply(cfg, EmptyDisk, MakeDirectory);
    assert ReadPlan(cfg, made, []) == Plan([PutIndex([])], []);
    assert Filter(Except(s.snapshotId), []) + [ToMetadata(s)] == [ToMetadata(s)];
    assert [ToMetadata(s)][1..] == [];
    assert SortBy(MetadataOrder, [ToMetadata(s)]) == [ToMetadata(s)];
    assert Retained(cfg, [], s) == [ToMetadata(s)] && Evicted(cfg, [], s) == [];
    hide ReadPlan, Retained, Evicted;
    assert StoreActions(cfg, [], s) == [PutSnapshot(s), PutIndex([ToMetadata(s)])];
  }

  function AfterFirstSave(cfg: Config, s: Snapshot): Disk {
    Disk(true, map[s.snapshotId := StoredFile(Some(s), cfg.encodedSize(s))], IndexFile(1, cfg.serverId, [Some(ToMetadata(s))]))
  }

  lemma ApplyFour(cfg: Config, d: Disk, a: Action, b: Action, c: Action, e: Action)
    ensures ApplyAll(cfg, d, [a, b, c, e]) == Apply(cfg, Apply(cfg, Apply(cfg, Apply(cfg, d, a), b), c), e)
  {
    hide Apply;
    assert [a, b, c, e][..3] == [a, b, c] && [a, b, c][..2] == [a, b] && [a, b][..1] == [a] && [a][..0] == [];
    assert ApplyAll(cfg, d, [a]) == Apply(cfg, d, a);
    assert ApplyAll(cfg, d, [a, b]) == Apply(cfg, ApplyAll(cfg, d, [a]), b);
    assert ApplyAll(cfg, d, [a, b, c]) == Apply(cfg, ApplyAll(cfg, d, [a, b]), c);
  }

  lemma OneEntry(m: Metadata)
    ensures SortBy(MetadataOrder, [m]) == [m] && Map(Present, [m]) == [Some(m)]
    ensures Map(MetadataId, [m]) == [m.snapshotId] && Elems([m.snapshotId]) == {m.snapshotId} && UniqueBy(MetadataId, [m])
    ensures ValidMetadata(m) ==> FilterMap(ValidEntry, [Some(m)]) == [m]
  {
    hide MetadataOrder, ValidMetadata;
    assert [m][1..] == [] && [Some(m)][..0] == [];
  }

  lemma SavedFirst(cfg: Config, s: Snapshot)
    requires ValidConfig(cfg) && Acceptable(cfg, s)
    ensures ApplyAll(cfg, EmptyDisk, SavePlan(cfg, EmptyDisk, s, []).actions) == AfterFirstSave(cfg, s)
  {
    FirstSave(cfg, s);
    hide SavePlan, Validate, ApplyAll, SortBy, Map;
    ApplyFour(cfg, EmptyDisk, MakeDirectory, PutIndex([]), PutSnapshot(s), PutIndex([ToMetadata(s)]));
    OneEntry(ToMetadata(s));
  }

  /** The directory after the first save, whatever its file holds: the index is trusted and lists the snapshot. */
  lemma OneFileTrusted(cfg: Config, s: Snapshot, file: StoredFile)
    requires ValidConfig(cfg) && Validate(s)
    ensures var d := AfterFirstSave(cfg, s).(files := map[s.snapshotId := file]);
      && IndexTrusted(cfg, d)
      && forall scan :: ListPlan(cfg, d, scan) == Plan([], [ToMetadata(s)])
  {
    hide LoadFile, SortBy, Map, FilterMap, UniqueBy, MetadataOrder, ValidMetadata, Elems, RecoverPlan;
    var d, meta := AfterFirstSave(cfg, s).(files := map[s.snapshotId := file]), ToMetadata(s);
    EntryOfValid(s);
    hide Validate;
    OneEntry(meta);
    assert ReadIndex(cfg, d) == Some([meta]);
    hide ReadIndex;
    assert s.snapshotId in d.files;
  }

  lemma EntryOfValid(s: Snapshot)
    requires Validate(s)
    ensures ValidMetadata(ToMetadata(s))
  {
  }

  /**
    Whatever is saved first and however its file is then damaged: the index is still trusted, and
    `listMetadata` lists the dead file although nothing is readable.
   */
  lemma DeadFileListed(cfg: Config, s: Snapshot, file: StoredFile, scan: seq<string>) returns (trace: seq<Event>)
    requires ValidConfig(cfg) && Acceptable(cfg, s) && s.serverId == cfg.serverId && LoadFile(cfg, s.snapshotId, file).None?
    ensures TraceHappens(cfg, InitialMachine, trace)
    ensures var m := TraceEnd(cfg, InitialMachine, trace);
      && m.damaged == {s.snapshotId} && m.pending == []
      && IndexTrusted(cfg, m.disk) && !Intact(cfg, m.disk)
      && ListPlan(cfg, m.disk, scan).result == [ToMetadata(s)] && ReadableMetadata(cfg, m.disk) == {}
  {
    hide Validate, LoadFile, IndexTrusted, Intact, ListPlan, SavePlan, ApplyAll;
    var call := SaveAttempt(s, [], 0);
    SavedFirst(cfg, s);
    var saved := InitialMachine.(disk := AfterFirstSave(cfg, s), ledger := Issue(map[], call));
    var damage := Damage(s.snapshotId, file);
    assert CanHappen(cfg, saved, damage);
    OneMoreEvent(cfg, saved, damage, []);
    assert [damage] + [] == [damage];
    trace := UndisturbedCall(cfg, InitialMachine, call, [damage]);
    OneFileTrusted(cfg, s, file);
    var d := AfterFirstSave(cfg, s).(files := map[s.snapshotId := file]);
    assert Next(cfg, saved, damage).disk == d;
    NothingReadable(cfg, d, s.snapshotId);
    assert !Intact(cfg, d) by { DeadNotIntact(cfg, d, s.snapshotId); }
  }

  lemma DeadNotIntact(cfg: Config, d: Disk, id: string)
    requires id in d.files && LoadFile(cfg, id, d.files[id]).None?
    ensures !Intact(cfg, d)
  {
    hide LoadFile;
  }

  lemma NothingReadable(cfg: Config, d: Disk, id: string)
    requires d.files.Keys == {id} && LoadFile(cfg, id, d.files[id]).None?
    ensures ReadableMetadata(cfg, d) == {}
  {
    hide LoadFile;
  }

  function UuidChar(i: int): char {
    if i == 8 || i == 13 || i == 18 || i == 23 then '-' else if i == 14 then '1' else if i == 19 then '8' else '0'
  }

  const SOME_UUID := seq(36, (i: int) => UuidChar(i))
  const NOTHING := Content([], [], [])
  const FIRST := Snapshot(1, SOME_UUID, SOME_UUID, 0, FingerprintOf(NOTHING), NOTHING)
  const SMALL := Config(SOME_UUID, 1, 1, (s: Snapshot) => 1)

  lemma SomeUuid()
    ensures IsUuid(SOME_UUID)
  {
    assert "89abAB"[0] == '8';
  }

  lemma FirstAcceptable()
    ensures ValidConfig(SMALL) && Acceptable(SMALL, FIRST) && FIRST.serverId == SMALL.serverId
  {
    SomeUuid();
    hide IsUuid;
  }

  /** One save and one damaged file are enough. */
  lemma DeadFileExample() returns (trace: seq<Event>)
    ensures TraceHappens(SMALL, InitialMachine, trace)
    ensures var d := TraceEnd(SMALL, InitialMachine, trace).disk;
      && IndexTrusted(SMALL, d) && !Intact(SMALL, d)
      && ListPlan(SMALL, d, [FIRST.snapshotId]).result == [ToMetadata(FIRST)]
      && ReadableMetadata(SMALL, d) == {}
  {
    FirstAcceptable();
    hide Acceptable, Validate;
    trace := DeadFileListed(SMALL, FIRST, StoredFile(None, 0), [FIRST.snapshotId]);
  }
}

/**
  The repository as a state machine over single disk actions.  A call reads the directory in stages and
  performs one planned action at a time; it may be cut by a crash, and between any two reads or
  actions files may turn unreadable and the index may break.
 */
module StoreMachine {
  import opened Ordering
  import opened Collections
  import opened Snapshots
  import opened SnapshotStore
  import opened History
  import opened StoreRecovery
  import opened StoreCrash
  import opened StoreRuns
  import opened StoreCorruption

  /** What a call still has to read: the newest snapshot before it is repeated, the first entry that loads, or everything. */
  datatype Rest =
    | Finished
    | Decide(snapshot: Snapshot, current: seq<Metadata>)
    | Find(entries: seq<Metadata>)
    | Rebuild

  /** `damaged` collects the identifiers whose files were ever made unreadable. */
  datatype Machine = Machine(disk: Disk, pending: seq<Action>, rest: Rest, ledger: Ledger, damaged: set<string>)

  datatype Event = Begin(call: Attempt) | Step | Resume(scan: seq<string>) | Crash | Damage(id: string, file: StoredFile) | BreakIndex

  /** What a call reads first, and the actions it plans from that. */
  function Opened(cfg: Config, d: Disk, call: Attempt): seq<Action> {
    match call
    case SaveAttempt(s, scan, _) => if Validate(s) then Opening(cfg, d, scan) else []
    case ListAttempt(scan, _) => ListPlan(cfg, d, scan).actions
    case LatestAttempt(scan, _, _) => ListPlan(cfg, d, scan).actions
    case LoadAttempt(_, _, _) => []
  }

  function Awaits(cfg: Config, d: Disk, call: Attempt): Rest {
    match call
    case SaveAttempt(s, scan, _) => if Validate(s) then Decide(s, ReadPlan(cfg, Apply(cfg, d, MakeDirectory), scan).result) else Finished
    case ListAttempt(_, _) => Finished
    case LatestAttempt(scan, _, _) => if d.created then Find(ReadPlan(cfg, d, scan).result) else Finished
    case LoadAttempt(id, _, _) => if d.created && id in d.files && Load(cfg, d, id).None? then Rebuild else Finished
  }

  /** What a call plans when it reads on, from the directory as it is then. */
  function Resumed(cfg: Config, d: Disk, rest: Rest, scan: seq<string>): seq<Action> {
    match rest
    case Finished => []
    case Decide(s, current) =>
      var latest := Newest(cfg, d, current);
      if (latest.Some? && latest.value.graphFingerprint == s.graphFingerprint) || cfg.encodedSize(s) > cfg.maxSnapshotBytes then []
      else StoreActions(cfg, current, s)
    case Find(entries) => if FirstLoadable(cfg, d, entries).None? && entries != [] then [PutIndex([])] else []
    case Rebuild => RecoverPlan(cfg, d, scan).actions
  }

  function Remains(cfg: Config, d: Disk, rest: Rest): Rest {
    if !rest.Find? then Finished
    else
      var loaded := FirstLoadable(cfg, d, rest.entries);
      if loaded.Some? && rest.entries != [] && loaded.value.snapshotId != rest.entries[0].snapshotId then Rebuild else Finished
  }

  ghost predicate CanHappen(cfg: Config, m: Machine, e: Event) {
    match e
    case Begin(call) => m.pending == [] && m.rest == Finished && Enabled(cfg, m.disk, m.ledger, call)
    case Step => m.pending != []
    case Resume(scan) => m.pending == [] && m.rest != Finished && (m.rest == Rebuild ==> IsScan(m.disk, scan))
    case Crash => true
    case Damage(id, file) => id in m.disk.files && LoadFile(cfg, id, file).None?
    case BreakIndex => m.disk.index.IndexFile?
  }

  function Next(cfg: Config, m: Machine, e: Event): Machine {
    match e
    case Begin(call) => m.(pending := Opened(cfg, m.disk, call), rest := Awaits(cfg, m.disk, call), ledger := Issue(m.ledger, call))
    case Step => if m.pending == [] then m else m.(disk := Apply(cfg, m.disk, m.pending[0]), pending := m.pending[1..])
    case Resume(scan) => m.(pending := Resumed(cfg, m.disk, m.rest, scan), rest := Remains(cfg, m.disk, m.rest))
    case Crash => m.(pending := [], rest := Finished)
    case Damage(id, file) => m.(disk := m.disk.(files := m.disk.files[id := file]), damaged := m.damaged + {id})
    case BreakIndex => m.(disk := m.disk.(index := BrokenIndex))
  }

  const InitialMachine := Machine(EmptyDisk, [], Finished, map[], {})

  ghost predicate TraceHappens(cfg: Config, m: Machine, trace: seq<Event>)
    decreases |trace|
  {
    trace != [] ==> CanHappen(cfg, m, trace[0]) && TraceHappens(cfg, Next(cfg, m, trace[0]), trace[1..])
  }

  function TraceEnd(cfg: Config, m: Machine, trace: seq<Event>): Machine
    decreases |trace|
  {
    if trace == [] then m else TraceEnd(cfg, Next(cfg, m, trace[0]), trace[1..])
  }

  // ----- invariant -----

  /** An action that only writes what the ledger knows. */
  ghost predicate ActionAgrees(cfg: Config, a: Action, ledger: Ledger) {
    match a
    case MakeDirectory => true
    case DeleteSnapshot(_) => true
    case PutSnapshot(s) => s.snapshotId in ledger && ledger[s.snapshotId] == s && s.serverId == cfg.serverId && Acceptable(cfg, s)
    case PutIndex(entries) => EntriesAgree(entries, cfg.retentionLimit, ledger)
  }

  ghost predicate PlanAgrees(cfg: Config, actions: seq<Action>, ledger: Ledger) {
    forall a :: a in actions ==> ActionAgrees(cfg, a, ledger)
  }

  /** A call goes on only in a directory that exists, or that it is about to make. */
  predicate Ready(d: Disk, actions: seq<Action>, rest: Rest) {
    d.created || (actions != [] && actions[0].MakeDirectory?) || (actions == [] && rest == Finished)
  }

  ghost predicate RestAgrees(cfg: Config, rest: Rest, ledger: Ledger) {
    rest.Decide? ==>
      && EntriesAgree(rest.current, cfg.retentionLimit, ledger) && Validate(rest.snapshot)
      && rest.snapshot.snapshotId in ledger && ledger[rest.snapshot.snapshotId] == rest.snapshot && rest.snapshot.serverId == cfg.serverId
  }

  /** The identifiers on disk after one action. */
  function NextKeys(keys: set<string>, a: Action): set<string> {
    match a
    case PutSnapshot(s) => keys + {s.snapshotId}
    case DeleteSnapshot(id) => keys - {id}
    case _ => keys
  }

  /** The identifiers on disk after some actions. */
  function KeysAfter(keys: set<string>, actions: seq<Action>): set<string>
    decreases |actions|
  {
    if actions == [] then keys else KeysAfter(NextKeys(keys, actions[0]), actions[1..])
  }

  /** Whenever a snapshot file is about to be written, at most `limit` undamaged files are there. */
  ghost predicate RoomToWrite(limit: nat, keys: set<string>, actions: seq<Action>, damaged: set<string>)
    decreases |actions|
  {
    actions != [] ==>
      && (actions[0].PutSnapshot? ==> |keys - damaged| <= limit)
      && RoomToWrite(limit, NextKeys(keys, actions[0]), actions[1..], damaged)
  }

  ghost predicate Undamaged(cfg: Config, d: Disk, damaged: set<string>) {
    forall id :: id in d.files && id !in damaged ==> Load(cfg, d, id).Some?
  }

  /** So many files may turn unreadable before recovery can overlook one. */
  const MAX_DAMAGED := MAX_SNAPSHOT_FILES_SCANNED - MAX_SNAPSHOTS_INDEXED - 1

  ghost predicate Roomy(cfg: Config, m: Machine) {
    && RoomToWrite(cfg.retentionLimit, m.disk.files.Keys, m.pending, m.damaged)
    && |m.disk.files.Keys - m.damaged| <= cfg.retentionLimit + 1
    && (m.rest.Decide? ==> |KeysAfter(m.disk.files.Keys, m.pending) - m.damaged| <= cfg.retentionLimit)
  }

  ghost predicate Invariant(cfg: Config, m: Machine) {
    && Agrees(cfg, m.disk, m.ledger)
    && PlanAgrees(cfg, m.pending, m.ledger)
    && RestAgrees(cfg, m.rest, m.ledger)
    && Ready(m.disk, m.pending, m.rest)
    && Undamaged(cfg, m.disk, m.damaged)
    && (|m.damaged| <= MAX_DAMAGED ==> Roomy(cfg, m))
  }

  // ----- one action -----

  lemma ActionKeepsAgrees(cfg: Config, d: Disk, ledger: Ledger, a: Action)
    requires ValidConfig(cfg) && Agrees(cfg, d, ledger) && ActionAgrees(cfg, a, ledger)
    requires a.PutSnapshot? ==> d.created
    ensures Agrees(cfg, Apply(cfg, d, a), ledger)
  {
    hide LoadFile, Acceptable;
    match a {
      case MakeDirectory => SameIndex(cfg, d, Apply(cfg, d, a));
      case DeleteSnapshot(id) => SameIndex(cfg, d, Apply(cfg, d, a));
      case PutIndex(entries) => IndexKeepsAgrees(cfg, d, ledger, entries);
      case PutSnapshot(s) =>
        SameIndex(cfg, d, Apply(cfg, d, a));
        WrittenLoads(cfg, d, s);
    }
  }

  lemma WrittenLoads(cfg: Config, d: Disk, s: Snapshot)
    requires Acceptable(cfg, s) && s.serverId == cfg.serverId
    ensures Load(cfg, Apply(cfg, d, PutSnapshot(s)), s.snapshotId) == Some(s)
  {
    hide Validate;
  }

  lemma {:induction false} ActionsKeepAgrees(cfg: Config, d: Disk, ledger: Ledger, actions: seq<Action>)
    requires ValidConfig(cfg) && Agrees(cfg, d, ledger) && PlanAgrees(cfg, actions, ledger)
    requires d.created || forall a :: a in actions ==> !a.PutSnapshot?
    ensures Agrees(cfg, ApplyAll(cfg, d, actions), ledger)
    ensures d.created ==> ApplyAll(cfg, d, actions).created
  {
    hide Agrees, ActionAgrees;
    if actions != [] {
      var n := |actions| - 1;
      assert actions == actions[..n] + [actions[n]];
      forall a | a in actions[..n] ensures a in actions {}
      ActionsKeepAgrees(cfg, d, ledger, actions[..n]);
      assert actions[n] in actions;
      ActionKeepsAgrees(cfg, ApplyAll(cfg, d, actions[..n]), ledger, actions[n]);
    }
  }

  lemma StepKeys(cfg: Config, d: Disk, a: Action, damaged: set<string>)
    requires a.PutSnapshot? ==> |d.files.Keys - damaged| <= cfg.retentionLimit
    requires |d.files.Keys - damaged| <= cfg.retentionLimit + 1
    ensures Apply(cfg, d, a).files.Keys == NextKeys(d.files.Keys, a)
    ensures |NextKeys(d.files.Keys, a) - damaged| <= cfg.retentionLimit + 1
  {
    var keys := d.files.Keys;
    assert Apply(cfg, d, a).files.Keys == NextKeys(keys, a);
    if a.PutSnapshot? {
      SubsetSize(NextKeys(keys, a) - damaged, keys - damaged + {a.snapshot.snapshotId});
    } else {
      SubsetSize(NextKeys(keys, a) - damaged, keys - damaged);
    }
  }

  lemma StepKeepsUndamaged(cfg: Config, d: Disk, ledger: Ledger, a: Action, damaged: set<string>)
    requires Undamaged(cfg, d, damaged) && ActionAgrees(cfg, a, ledger)
    ensures Undamaged(cfg, Apply(cfg, d, a), damaged)
  {
    hide LoadFile, Acceptable;
    if a.PutSnapshot? { WrittenLoads(cfg, d, a.snapshot); }
  }

  lemma StepKeepsInvariant(cfg: Config, m: Machine)
    requires ValidConfig(cfg) && Invariant(cfg, m) && m.pending != []
    ensures Invariant(cfg, Next(cfg, m, Step))
  {
    hide Agrees, ActionAgrees, Undamaged, RestAgrees, LoadFile, ReadIndex;
    var a := m.pending[0];
    assert a in m.pending;
    ActionKeepsAgrees(cfg, m.disk, m.ledger, a);
    StepKeepsUndamaged(cfg, m.disk, m.ledger, a, m.damaged);
    if |m.damaged| <= MAX_DAMAGED { StepKeys(cfg, m.disk, a, m.damaged); }
    StepReady(cfg, m.disk, m.pending, m.rest);
  }

  lemma StepReady(cfg: Config, d: Disk, actions: seq<Action>, rest: Rest)
    requires actions != [] && Ready(d, actions, rest)
    ensures Ready(Apply(cfg, d, actions[0]), actions[1..], rest)
  {
  }

  lemma {:induction false} MoreDamageLeavesRoom(limit: nat, keys: set<string>, actions: seq<Action>, damaged: set<string>, more: set<string>)
    requires RoomToWrite(limit, keys, actions, damaged) && damaged <= more
    ensures RoomToWrite(limit, keys, actions, more)
    decreases |actions|
  {
    if actions != [] {
      SubsetSize(keys - more, keys - damaged);
      MoreDamageLeavesRoom(limit, NextKeys(keys, actions[0]), actions[1..], damaged, more);
    }
  }

  lemma DamageKeepsAgrees(cfg: Config, d: Disk, ledger: Ledger, id: string, file: StoredFile)
    requires Agrees(cfg, d, ledger) && id in d.files && LoadFile(cfg, id, file).None?
    ensures Agrees(cfg, d.(files := d.files[id := file]), ledger)
  {
    hide LoadFile, ReadIndex, EntriesAgree;
    SameIndex(cfg, d, d.(files := d.files[id := file]));
  }

  lemma DamageKeepsInvariant(cfg: Config, m: Machine, id: string, file: StoredFile)
    requires ValidConfig(cfg) && Invariant(cfg, m) && CanHappen(cfg, m, Damage(id, file))
    ensures Invariant(cfg, Next(cfg, m, Damage(id, file)))
  {
    hide LoadFile, PlanAgrees, Agrees, RestAgrees, Roomy;
    var next := Next(cfg, m, Damage(id, file));
    DamageKeepsAgrees(cfg, m.disk, m.ledger, id, file);
    assert next.disk.files.Keys == m.disk.files.Keys;
    SubsetSize(m.damaged, next.damaged);
    if |next.damaged| <= MAX_DAMAGED { DamageKeepsRoom(cfg, m, next); }
  }

  lemma BreakKeepsInvariant(cfg: Config, m: Machine)
    requires ValidConfig(cfg) && Invariant(cfg, m)
    ensures Invariant(cfg, Next(cfg, m, BreakIndex))
  {
    hide LoadFile, PlanAgrees, RestAgrees, EntriesAgree, RoomToWrite, KeysAfter;
  }

  lemma DamageKeepsRoom(cfg: Config, m: Machine, next: Machine)
    requires Roomy(cfg, m) && next.pending == m.pending && next.rest == m.rest
    requires next.disk.files.Keys == m.disk.files.Keys && m.damaged <= next.damaged
    ensures Roomy(cfg, next)
  {
    SubsetSize(next.disk.files.Keys - next.damaged, m.disk.files.Keys - m.damaged);
    var after := KeysAfter(m.disk.files.Keys, m.pending);
    SubsetSize(after - next.damaged, after - m.damaged);
    MoreDamageLeavesRoom(cfg.retentionLimit, m.disk.files.Keys, m.pending, m.damaged, next.damaged);
  }

  // ----- planning -----

  lemma LoadedAgree(cfg: Config, d: Disk, ledger: Ledger, scan: seq<string>)
    requires Agrees(cfg, d, ledger)
    ensures EntriesAgree(Take(cfg.retentionLimit, Valid(cfg, d, scan)), cfg.retentionLimit, ledger)
  {
    hide LoadFile, MetadataOrder, ReadIndex;
    var loaded := FilterMap(LoadMetadata(cfg, d), scan);
    FilterMapElements(LoadMetadata(cfg, d), scan);
    SortByElements(MetadataOrder, loaded);
    forall m | m in Valid(cfg, d, scan) ensures m.snapshotId in ledger && ToMetadata(ledger[m.snapshotId]) == m {
      var id :| id in scan && LoadMetadata(cfg, d)(id) == Some(m);
      assert ledger[id] == Load(cfg, d, id).value;
    }
    hide Valid, FilterMap;
  }

  lemma TidyAgrees(cfg: Config, ledger: Ledger, gone: seq<Metadata>, entries: seq<Metadata>)
    requires EntriesAgree(entries, cfg.retentionLimit, ledger)
    ensures PlanAgrees(cfg, Tidy(gone, entries), ledger)
    ensures forall a :: a in Tidy(gone, entries) ==> !a.PutSnapshot?
  {
    hide EntriesAgree;
  }

  lemma RecoverAgrees(cfg: Config, d: Disk, ledger: Ledger, scan: seq<string>)
    requires Agrees(cfg, d, ledger)
    ensures EntriesAgree(RecoverPlan(cfg, d, scan).result, cfg.retentionLimit, ledger)
    ensures PlanAgrees(cfg, RecoverPlan(cfg, d, scan).actions, ledger)
    ensures forall a :: a in RecoverPlan(cfg, d, scan).actions ==> !a.PutSnapshot?
  {
    LoadedAgree(cfg, d, ledger, scan);
    hide Agrees, Valid, MetadataOrder, Surplus, Tidy, PlanAgrees, Take;
    var retained := Take(cfg.retentionLimit, Valid(cfg, d, scan));
    SortByElements(MetadataOrder, retained);
    TidyAgrees(cfg, ledger, Surplus(cfg, d, retained, scan), retained);
  }

  lemma ReadAgrees(cfg: Config, d: Disk, ledger: Ledger, scan: seq<string>)
    requires ValidConfig(cfg) && Agrees(cfg, d, ledger)
    ensures EntriesAgree(ReadPlan(cfg, d, scan).result, cfg.retentionLimit, ledger)
    ensures PlanAgrees(cfg, ReadPlan(cfg, d, scan).actions, ledger)
    ensures forall a :: a in ReadPlan(cfg, d, scan).actions ==> !a.PutSnapshot?
  {
    hide RecoverPlan, Agrees, EntriesAgree;
    RecoverAgrees(cfg, d, ledger, scan);
    if IndexTrusted(cfg, d) { TrustedRead(cfg, d, ledger, scan); }
  }

  lemma IssueKeepsAgrees(cfg: Config, d: Disk, ledger: Ledger, s: Snapshot)
    requires Agrees(cfg, d, ledger) && s.snapshotId !in ledger
    ensures Agrees(cfg, d, ledger[s.snapshotId := s])
  {
    hide LoadFile, ReadIndex;
  }

  lemma RetainedAgrees(cfg: Config, ledger: Ledger, current: seq<Metadata>, s: Snapshot)
    requires EntriesAgree(current, cfg.retentionLimit, ledger)
    requires s.snapshotId in ledger && ledger[s.snapshotId] == s
    ensures EntriesAgree(Retained(cfg, current, s), cfg.retentionLimit, ledger)
  {
    hide MetadataOrder;
    var all := Filter(Except(s.snapshotId), current) + [ToMetadata(s)];
    FilterElements(Except(s.snapshotId), current);
    SortByElements(MetadataOrder, all);
    forall m | m in Retained(cfg, current, s) ensures m.snapshotId in ledger && ToMetadata(ledger[m.snapshotId]) == m {
      assert m in all;
      assert m in current || m == ToMetadata(s);
    }
  }

  lemma StoreAgrees(cfg: Config, ledger: Ledger, current: seq<Metadata>, s: Snapshot)
    requires EntriesAgree(current, cfg.retentionLimit, ledger)
    requires s.snapshotId in ledger && ledger[s.snapshotId] == s && s.serverId == cfg.serverId && Acceptable(cfg, s)
    ensures PlanAgrees(cfg, StoreActions(cfg, current, s), ledger)
  {
    hide Retained, Tidy, EntriesAgree, Evicted, Acceptable;
    RetainedAgrees(cfg, ledger, current, s);
    TidyAgrees(cfg, ledger, Evicted(cfg, current, s), Retained(cfg, current, s));
  }

  lemma OpeningAgrees(cfg: Config, d: Disk, ledger: Ledger, scan: seq<string>)
    requires ValidConfig(cfg) && Agrees(cfg, d, ledger)
    ensures EntriesAgree(ReadPlan(cfg, Apply(cfg, d, MakeDirectory), scan).result, cfg.retentionLimit, ledger)
    ensures PlanAgrees(cfg, Opening(cfg, d, scan), ledger)
    ensures forall a :: a in Opening(cfg, d, scan) ==> !a.PutSnapshot?
  {
    hide Agrees, ReadPlan, EntriesAgree;
    ActionKeepsAgrees(cfg, d, ledger, MakeDirectory);
    ReadAgrees(cfg, Apply(cfg, d, MakeDirectory), ledger, scan);
  }

  /** The plan of `save` up to the decision, and what follows it when the snapshot is stored. */
  lemma SaveShape(cfg: Config, d: Disk, s: Snapshot, scan: seq<string>)
    ensures var plan := SavePlan(cfg, d, s, scan);
      var current := ReadPlan(cfg, Apply(cfg, d, MakeDirectory), scan).result;
      && (plan.result.InvalidSnapshot? ==> plan.actions == [])
      && (plan.result.Deduplicated? || plan.result.TooLarge? ==> plan.actions == Opening(cfg, d, scan))
      && (plan.result.Saved? ==> Acceptable(cfg, s) && plan.actions == Opening(cfg, d, scan) + StoreActions(cfg, current, s))
  {
    hide ReadPlan, Validate, StoreActions, ApplyAll, Load;
  }

  lemma LatestAgrees(cfg: Config, d: Disk, ledger: Ledger, scan: seq<string>, rescan: seq<string>)
    requires ValidConfig(cfg) && Agrees(cfg, d, ledger)
    ensures PlanAgrees(cfg, LatestPlan(cfg, d, scan, rescan).actions, ledger)
    ensures forall a :: a in LatestPlan(cfg, d, scan, rescan).actions ==> !a.PutSnapshot?
  {
    hide Agrees, ReadPlan, RecoverPlan, FirstLoadable;
    ReadAgrees(cfg, d, ledger, scan);
    var after := ApplyAll(cfg, d, ReadPlan(cfg, d, scan).actions);
    ActionsKeepAgrees(cfg, d, ledger, ReadPlan(cfg, d, scan).actions);
    RecoverAgrees(cfg, after, ledger, rescan);
    assert ActionAgrees(cfg, PutIndex([]), ledger);
    hide ActionAgrees;
  }

  lemma OpenedAgrees(cfg: Config, d: Disk, ledger: Ledger, call: Attempt)
    requires ValidConfig(cfg) && Agrees(cfg, d, ledger) && Enabled(cfg, d, ledger, call)
    ensures PlanAgrees(cfg, Opened(cfg, d, call), Issue(ledger, call))
    ensures RestAgrees(cfg, Awaits(cfg, d, call), Issue(ledger, call))
    ensures Ready(d, Opened(cfg, d, call), Awaits(cfg, d, call))
    ensures forall a :: a in Opened(cfg, d, call) ==> !a.PutSnapshot?
  {
    hide ReadPlan, Agrees, EntriesAgree, ActionAgrees, Validate, IsScan;
    match call {
      case SaveAttempt(s, scan, _) =>
        IssueKeepsAgrees(cfg, d, ledger, s);
        OpeningAgrees(cfg, d, ledger[s.snapshotId := s], scan);
      case ListAttempt(scan, _) => ReadAgrees(cfg, d, ledger, scan);
      case LatestAttempt(scan, _, _) => ReadAgrees(cfg, d, ledger, scan);
      case LoadAttempt(_, _, _) =>
    }
  }

  lemma ResumedAgrees(cfg: Config, d: Disk, ledger: Ledger, rest: Rest, scan: seq<string>)
    requires ValidConfig(cfg) && Agrees(cfg, d, ledger) && RestAgrees(cfg, rest, ledger)
    ensures PlanAgrees(cfg, Resumed(cfg, d, rest, scan), ledger)
    ensures !rest.Decide? ==> forall a :: a in Resumed(cfg, d, rest, scan) ==> !a.PutSnapshot?
  {
    hide RecoverPlan, Agrees, StoreActions, Newest, FirstLoadable;
    match rest {
      case Finished =>
      case Decide(s, current) => if Acceptable(cfg, s) { StoreAgrees(cfg, ledger, current, s); }
      case Find(entries) => assert ActionAgrees(cfg, PutIndex([]), ledger);
      case Rebuild => RecoverAgrees(cfg, d, ledger, scan);
    }
  }

  // ----- room for the next file -----

  lemma {:induction false} NoWritesLeaveRoom(limit: nat, keys: set<string>, actions: seq<Action>, damaged: set<string>)
    requires forall a :: a in actions ==> !a.PutSnapshot?
    ensures RoomToWrite(limit, keys, actions, damaged)
    decreases |actions|
  {
    if actions != [] {
      assert actions[0] in actions;
      forall a | a in actions[1..] ensures !a.PutSnapshot? { assert a in actions; }
      NoWritesLeaveRoom(limit, NextKeys(keys, actions[0]), actions[1..], damaged);
    }
  }

  lemma ApplyAllFirst(cfg: Config, d: Disk, a: seq<Action>)
    requires a != []
    ensures ApplyAll(cfg, d, a) == ApplyAll(cfg, Apply(cfg, d, a[0]), a[1..])
  {
    var first := [a[0]];
    assert a == first + a[1..];
    ApplyAllAppend(cfg, d, first, a[1..]);
    assert first[..0] == [];
  }

  lemma {:induction false} KeysAfterApplies(cfg: Config, d: Disk, actions: seq<Action>)
    ensures ApplyAll(cfg, d, actions).files.Keys == KeysAfter(d.files.Keys, actions)
    decreases |actions|
  {
    if actions != [] {
      ApplyAllFirst(cfg, d, actions);
      hide ApplyAll;
      KeysAfterApplies(cfg, Apply(cfg, d, actions[0]), actions[1..]);
      assert Apply(cfg, d, actions[0]).files.Keys == NextKeys(d.files.Keys, actions[0]);
    }
  }

  /** Every undamaged file is listed among the scanned valid ones. */
  lemma UndamagedValid(cfg: Config, d: Disk, scan: seq<string>, damaged: set<string>, id: string)
    requires IsScan(d, scan) && |d.files| <= MAX_SNAPSHOT_FILES_SCANNED
    requires Undamaged(cfg, d, damaged) && id in d.files && id !in damaged
    ensures Lists(Valid(cfg, d, scan), id)
  {
    hide LoadFile, MetadataOrder;
    ScanCoversAll(d, scan);
    assert id in Elems(scan);
    LoadedId(cfg, d, id);
    var m := ToMetadata(Load(cfg, d, id).value);
    FilterMapElements(LoadMetadata(cfg, d), scan);
    assert LoadMetadata(cfg, d)(id) == Some(m);
    var loaded := FilterMap(LoadMetadata(cfg, d), scan);
    SortByElements(MetadataOrder, loaded);
    assert m in Valid(cfg, d, scan);
  }

  lemma RecoverLeavesRoom(cfg: Config, d: Disk, scan: seq<string>, damaged: set<string>)
    requires IsScan(d, scan) && |d.files| <= MAX_SNAPSHOT_FILES_SCANNED && Undamaged(cfg, d, damaged)
    ensures |ApplyAll(cfg, d, RecoverPlan(cfg, d, scan).actions).files.Keys - damaged| <= cfg.retentionLimit
  {
    var h := RecoverPlan(cfg, d, scan).result;
    assert |h| <= cfg.retentionLimit;
    hide Load, MetadataOrder, Valid, Surplus, RecoverPlan, Take;
    var left := ApplyAll(cfg, d, RecoverPlan(cfg, d, scan).actions).files.Keys;
    RecoveredDisk(cfg, d, scan);
    forall id | id in left - damaged ensures id in Ids(h) {
      UndamagedValid(cfg, d, scan, damaged, id);
      SurplusCovers(cfg, d, h, scan, id);
      IdsMember(h, id);
    }
    SubsetSize(left - damaged, Ids(h));
    IdsMember(h, "");
  }

  lemma ReadLeavesRoom(cfg: Config, d: Disk, ledger: Ledger, scan: seq<string>, damaged: set<string>)
    requires ValidConfig(cfg) && Agrees(cfg, d, ledger) && IsScan(d, scan)
    requires |d.files| <= MAX_SNAPSHOT_FILES_SCANNED && Undamaged(cfg, d, damaged)
    ensures |ApplyAll(cfg, d, ReadPlan(cfg, d, scan).actions).files.Keys - damaged| <= cfg.retentionLimit
  {
    hide Load, RecoverPlan, Agrees, Undamaged, IsScan, EntriesAgree;
    if IndexTrusted(cfg, d) {
      TrustedRead(cfg, d, ledger, scan);
      TrustedEntries(cfg, d, ledger);
      SubsetSize(d.files.Keys - damaged, d.files.Keys);
    } else {
      RecoverLeavesRoom(cfg, d, scan, damaged);
    }
  }

  /** A valid scanned entry is kept or surplus. */
  lemma SurplusCovers(cfg: Config, d: Disk, h: seq<Metadata>, scan: seq<string>, id: string)
    requires Lists(Valid(cfg, d, scan), id) && id !in Ids(Surplus(cfg, d, h, scan))
    ensures Lists(h, id)
  {
    hide Valid;
    var m :| m in Valid(cfg, d, scan) && m.snapshotId == id;
    FilterElements(NotAmong(h), Valid(cfg, d, scan));
    IdsMember(Surplus(cfg, d, h, scan), id);
    assert m !in Surplus(cfg, d, h, scan);
  }

  /** Storing writes one file, and only then tidies. */
  lemma StoreRoom(cfg: Config, keys: set<string>, current: seq<Metadata>, s: Snapshot, damaged: set<string>)
    requires |keys - damaged| <= cfg.retentionLimit
    ensures RoomToWrite(cfg.retentionLimit, keys, StoreActions(cfg, current, s), damaged)
  {
    hide Evicted, Retained;
    var actions := StoreActions(cfg, current, s);
    var tidy := Tidy(Evicted(cfg, current, s), Retained(cfg, current, s));
    assert actions[1..] == tidy;
    NoWritesLeaveRoom(cfg.retentionLimit, NextKeys(keys, actions[0]), tidy, damaged);
  }

  lemma OpeningApplies(cfg: Config, d: Disk, scan: seq<string>)
    ensures var made := Apply(cfg, d, MakeDirectory);
      ApplyAll(cfg, d, Opening(cfg, d, scan)) == ApplyAll(cfg, made, ReadPlan(cfg, made, scan).actions)
  {
    hide ReadPlan, ApplyAll;
    var opening, made := Opening(cfg, d, scan), Apply(cfg, d, MakeDirectory);
    ApplyAllFirst(cfg, d, opening);
    assert opening[1..] == ReadPlan(cfg, made, scan).actions;
  }

  lemma OpeningLeavesRoom(cfg: Config, d: Disk, ledger: Ledger, scan: seq<string>, damaged: set<string>)
    requires ValidConfig(cfg) && Agrees(cfg, d, ledger) && IsScan(d, scan)
    requires |d.files| <= MAX_SNAPSHOT_FILES_SCANNED && Undamaged(cfg, d, damaged)
    ensures |KeysAfter(d.files.Keys, Opening(cfg, d, scan)) - damaged| <= cfg.retentionLimit
  {
    hide ReadPlan, ApplyAll, LoadFile, Opening, Agrees, KeysAfter;
    ActionKeepsAgrees(cfg, d, ledger, MakeDirectory);
    ReadLeavesRoom(cfg, Apply(cfg, d, MakeDirectory), ledger, scan, damaged);
    OpeningApplies(cfg, d, scan);
    KeysAfterApplies(cfg, d, Opening(cfg, d, scan));
  }

  lemma FilesBounded(cfg: Config, m: Machine)
    requires ValidConfig(cfg) && Roomy(cfg, m) && |m.damaged| <= MAX_DAMAGED
    ensures |m.disk.files| <= MAX_SNAPSHOT_FILES_SCANNED
  {
    var keys := m.disk.files.Keys;
    assert keys == (keys - m.damaged) + (keys * m.damaged);
    SubsetSize(keys * m.damaged, m.damaged);
    assert |keys| == |m.disk.files|;
  }

  lemma BeginKeepsInvariant(cfg: Config, m: Machine, call: Attempt)
    requires ValidConfig(cfg) && Invariant(cfg, m) && CanHappen(cfg, m, Begin(call))
    ensures Invariant(cfg, Next(cfg, m, Begin(call)))
  {
    hide Agrees, Opened, Awaits, PlanAgrees, RestAgrees, Undamaged, IsScan, Roomy;
    OpenedAgrees(cfg, m.disk, m.ledger, call);
    if call.SaveAttempt? { IssueKeepsAgrees(cfg, m.disk, m.ledger, call.snapshot); }
    if |m.damaged| <= MAX_DAMAGED { BeginRoom(cfg, m, call); }
  }

  lemma BeginRoom(cfg: Config, m: Machine, call: Attempt)
    requires ValidConfig(cfg) && Invariant(cfg, m) && Enabled(cfg, m.disk, m.ledger, call) && |m.damaged| <= MAX_DAMAGED
    ensures Roomy(cfg, Next(cfg, m, Begin(call)))
  {
    hide Agrees, Opened, Awaits, PlanAgrees, RestAgrees, Undamaged, IsScan, RoomToWrite, KeysAfter, Opening;
    OpenedAgrees(cfg, m.disk, m.ledger, call);
    FilesBounded(cfg, m);
    NoWritesLeaveRoom(cfg.retentionLimit, m.disk.files.Keys, Opened(cfg, m.disk, call), m.damaged);
    OpenedSave(cfg, m.disk, call);
    if Awaits(cfg, m.disk, call).Decide? { OpeningLeavesRoom(cfg, m.disk, m.ledger, call.scan, m.damaged); }
  }

  lemma OpenedSave(cfg: Config, d: Disk, call: Attempt)
    ensures Awaits(cfg, d, call).Decide? ==> Opened(cfg, d, call) == Opening(cfg, d, call.scan)
  {
    hide Validate, ReadPlan, Load, Opening;
  }

  lemma ResumeKeepsInvariant(cfg: Config, m: Machine, scan: seq<string>)
    requires ValidConfig(cfg) && Invariant(cfg, m) && CanHappen(cfg, m, Resume(scan))
    ensures Invariant(cfg, Next(cfg, m, Resume(scan)))
  {
    hide Agrees, Resumed, PlanAgrees, RestAgrees, Undamaged, IsScan, RoomToWrite, FirstLoadable;
    ResumedAgrees(cfg, m.disk, m.ledger, m.rest, scan);
    assert RestAgrees(cfg, Remains(cfg, m.disk, m.rest), m.ledger) by { NothingToDecide(cfg, m.disk, m.rest, m.ledger); }
    var actions := Resumed(cfg, m.disk, m.rest, scan);
    if |m.damaged| <= MAX_DAMAGED {
      if m.rest.Decide? && actions != [] {
        StoreRoom(cfg, m.disk.files.Keys, m.rest.current, m.rest.snapshot, m.damaged);
        DecidedStores(cfg, m.disk, m.rest, scan);
      } else {
        NoWritesLeaveRoom(cfg.retentionLimit, m.disk.files.Keys, actions, m.damaged);
      }
    }
  }

  lemma NothingToDecide(cfg: Config, d: Disk, rest: Rest, ledger: Ledger)
    ensures RestAgrees(cfg, Remains(cfg, d, rest), ledger)
  {
    hide FirstLoadable;
  }

  lemma DecidedStores(cfg: Config, d: Disk, rest: Rest, scan: seq<string>)
    requires rest.Decide? && Resumed(cfg, d, rest, scan) != []
    ensures Resumed(cfg, d, rest, scan) == StoreActions(cfg, rest.current, rest.snapshot)
  {
    hide Newest, StoreActions;
  }

  lemma EventKeepsInvariant(cfg: Config, m: Machine, e: Event)
    requires ValidConfig(cfg) && Invariant(cfg, m) && CanHappen(cfg, m, e)
    ensures Invariant(cfg, Next(cfg, m, e))
  {
    match e {
      case Begin(call) =>
        hide Invariant;
        BeginKeepsInvariant(cfg, m, call);
      case Step =>
        hide Invariant;
        StepKeepsInvariant(cfg, m);
      case Resume(scan) =>
        hide Invariant;
        ResumeKeepsInvariant(cfg, m, scan);
      case Crash =>
        hide Agrees, Undamaged;
      case Damage(id, file) =>
        hide Invariant;
        DamageKeepsInvariant(cfg, m, id, file);
      case BreakIndex =>
        hide Invariant;
        BreakKeepsInvariant(cfg, m);
    }
  }

  lemma {:induction false} TraceKeepsInvariant(cfg: Config, m: Machine, trace: seq<Event>)
    requires ValidConfig(cfg) && Invariant(cfg, m) && TraceHappens(cfg, m, trace)
    ensures Invariant(cfg, TraceEnd(cfg, m, trace))
    decreases |trace|
  {
    hide Invariant, CanHappen;
    if trace != [] {
      EventKeepsInvariant(cfg, m, trace[0]);
      TraceKeepsInvariant(cfg, Next(cfg, m, trace[0]), trace[1..]);
    }
  }

  lemma InitialInvariant(cfg: Config)
    ensures Invariant(cfg, InitialMachine)
  {
    assert InitialMachine.disk.files.Keys - {} == {};
  }

  /**
    After any interleaving of calls with their single reads and disk actions, crashes, files turning
    unreadable and the index breaking, `latest` returns the newest snapshot it can see, and nothing exactly when it sees nothing.  While
    at most 149 files were damaged it sees every readable file.
   */
  lemma LatestAfterAnyTrace(cfg: Config, trace: seq<Event>, scan: seq<string>, rescan: seq<string>)
    requires ValidConfig(cfg) && TraceHappens(cfg, InitialMachine, trace)
    requires IsScan(TraceEnd(cfg, InitialMachine, trace).disk, scan)
    ensures var m := TraceEnd(cfg, InitialMachine, trace);
      && IsLatestOf(LatestPlan(cfg, m.disk, scan, rescan).result, Visible(cfg, m.disk, scan))
      && (|m.damaged| <= MAX_DAMAGED ==> Visible(cfg, m.disk, scan) == ReadableMetadata(cfg, m.disk))
  {
    InitialInvariant(cfg);
    TraceKeepsInvariant(cfg, InitialMachine, trace);
    var m := TraceEnd(cfg, InitialMachine, trace);
    hide Agrees, PlanAgrees, RestAgrees, Undamaged, TraceEnd, TraceHappens, LatestPlan, Visible, IsLatestOf, IsScan;
    LatestExact(cfg, m.disk, m.ledger, scan, rescan);
    if |m.damaged| <= MAX_DAMAGED { FilesBounded(cfg, m); }
  }
}

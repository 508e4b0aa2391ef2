/**
  One server's snapshot directory as a disk, and the disk actions each repository operation plans.

  Every rename and every delete is one atomic action, so a crash leaves the disk after a prefix of
  the planned actions.  `Repository` shows that the imperative code performs exactly these plans.
 */
module SnapshotStore {
  import opened Ordering
  import opened Collections
  import opened Snapshots

  const MAX_SNAPSHOTS_INDEXED := 50
  const MAX_SNAPSHOT_FILES_SCANNED := 200

  datatype Config = Config(serverId: string, retentionLimit: nat, maxSnapshotBytes: nat, encodedSize: Snapshot -> nat)

  /** The constructor's `require` checks. */
  predicate ValidConfig(cfg: Config) {
    1 <= cfg.retentionLimit <= MAX_SNAPSHOTS_INDEXED && cfg.maxSnapshotBytes > 0
  }

  /** A snapshot file: the document it decodes to, if any, and its length in bytes. */
  datatype StoredFile = StoredFile(document: Option<Snapshot>, size: nat)

  /** `index.json`; an entry that does not parse is `None`. */
  datatype IndexFile = NoIndex | BrokenIndex | IndexFile(schemaVersion: int, serverId: string, entries: seq<Option<Metadata>>)

  /** The directory of one server; `files` is keyed by the UUID part of the file name. */
  datatype Disk = Disk(created: bool, files: map<string, StoredFile>, index: IndexFile)

  datatype Action =
    | MakeDirectory
    | PutSnapshot(snapshot: Snapshot)
    | DeleteSnapshot(snapshotId: string)
    | PutIndex(entries: seq<Metadata>)

  datatype Plan<+R> = Plan(actions: seq<Action>, result: R)

  datatype SaveResult =
    | Saved(metadata: Metadata)
    | Deduplicated(existing: Metadata)
    | InvalidSnapshot
    | TooLarge

  // ----- order -----

  /** Newest first, ties broken by descending identifier. */
  predicate MetadataOrder(a: Metadata, b: Metadata) {
    a.capturedAt > b.capturedAt || (a.capturedAt == b.capturedAt && StringLe(b.snapshotId, a.snapshotId))
  }

  lemma MetadataOrderTotal()
    ensures TotalPreorder(MetadataOrder)
    ensures forall a, b :: MetadataOrder(a, b) && MetadataOrder(b, a) ==> a.snapshotId == b.snapshotId && a.capturedAt == b.capturedAt
  {
    StringLeOrder();
  }

  const MetadataId := (m: Metadata) => m.snapshotId

  // ----- reading -----

  function LoadFile(cfg: Config, id: string, file: StoredFile): Option<Snapshot> {
    if file.size > cfg.maxSnapshotBytes then None
    else match file.document
      case None => None
      case Some(s) => if s.serverId == cfg.serverId && s.snapshotId == id && Validate(s) then Some(s) else None
  }

  /** `loadSnapshot` */
  function Load(cfg: Config, d: Disk, id: string): Option<Snapshot> {
    if id in d.files then LoadFile(cfg, id, d.files[id]) else None
  }

  function LoadMetadata(cfg: Config, d: Disk): string -> Option<Metadata> {
    (id: string) => match Load(cfg, d, id) case None => None case Some(s) => Some(ToMetadata(s))
  }

  predicate ValidMetadata(m: Metadata) { IsUuid(m.snapshotId) && m.schemaVersion == SNAPSHOT_SCHEMA_VERSION }

  const ValidEntry: Option<Metadata> -> Option<Metadata> :=
    (e: Option<Metadata>) => if e.Some? && ValidMetadata(e.value) then e else None

  /** `readIndex`: unparsable and invalid entries are dropped one by one. */
  function ReadIndex(cfg: Config, d: Disk): Option<seq<Metadata>> {
    match d.index
    case IndexFile(version, server, entries) =>
      if version == 1 && server == cfg.serverId && |entries| <= MAX_SNAPSHOTS_INDEXED
      then Some(FilterMap(ValidEntry, entries)) else None
    case _ => None
  }

  /** The files recovery inspects: all of them, or some 200 of them when there are more. */
  ghost predicate IsScan(d: Disk, scan: seq<string>) {
    && Distinct(scan)
    && (forall id :: id in scan ==> id in d.files)
    && |scan| == if |d.files| <= MAX_SNAPSHOT_FILES_SCANNED then |d.files| else MAX_SNAPSHOT_FILES_SCANNED
  }

  /** The index is believed only when it names every snapshot file exactly once. */
  predicate IndexMatches(indexed: seq<Metadata>, d: Disk) {
    UniqueBy(MetadataId, indexed) && Elems(Map(MetadataId, indexed)) == d.files.Keys
  }

  // ----- actions -----

  function Apply(cfg: Config, d: Disk, a: Action): Disk {
    match a
    case MakeDirectory => d.(created := true)
    case PutSnapshot(s) => d.(files := d.files[s.snapshotId := StoredFile(Some(s), cfg.encodedSize(s))])
    case DeleteSnapshot(id) => d.(files := d.files - {id})
    case PutIndex(entries) => d.(index := IndexFile(1, cfg.serverId, Map(Present, SortBy(MetadataOrder, entries))))
  }

  const Present := (m: Metadata) => Some(m)
  const DeleteOf := (m: Metadata) => DeleteSnapshot(m.snapshotId)

  function ApplyAll(cfg: Config, d: Disk, actions: seq<Action>): Disk {
    if actions == [] then d else Apply(cfg, ApplyAll(cfg, d, actions[..|actions| - 1]), actions[|actions| - 1])
  }

  lemma NothingApplied(cfg: Config, d: Disk)
    ensures ApplyAll(cfg, d, []) == d
  {
  }

  lemma {:induction false} ApplyAllAppend(cfg: Config, d: Disk, a: seq<Action>, b: seq<Action>)
    ensures ApplyAll(cfg, d, a + b) == ApplyAll(cfg, ApplyAll(cfg, d, a), b)
  {
    if b == [] {
      assert a + b == a;
    } else {
      assert (a + b)[..|a + b| - 1] == a + b[..|b| - 1];
      ApplyAllAppend(cfg, d, a, b[..|b| - 1]);
    }
  }

  // ----- plans -----

  function Take(limit: nat, s: seq<Metadata>): seq<Metadata> { if |s| <= limit then s else s[..limit] }

  function NotAmong(kept: seq<Metadata>): Metadata -> bool {
    (m: Metadata) => forall k :: k in kept ==> k.snapshotId != m.snapshotId
  }

  function Except(id: string): Metadata -> bool { (m: Metadata) => m.snapshotId != id }

  /** The metadata of the readable scanned files, newest first. */
  function Valid(cfg: Config, d: Disk, scan: seq<string>): seq<Metadata> {
    SortBy(MetadataOrder, FilterMap(LoadMetadata(cfg, d), scan))
  }

  /** The readable scanned files that a list of entries leaves out. */
  function Surplus(cfg: Config, d: Disk, kept: seq<Metadata>, scan: seq<string>): seq<Metadata> {
    Filter(NotAmong(kept), Valid(cfg, d, scan))
  }

  /** Delete some files, then rewrite the index. */
  function Tidy(gone: seq<Metadata>, entries: seq<Metadata>): seq<Action> {
    Map(DeleteOf, gone) + [PutIndex(entries)]
  }

  /** `recoverIndex`: rebuild from the scanned files, delete what does not fit, rewrite the index. */
  function RecoverPlan(cfg: Config, d: Disk, scan: seq<string>): Plan<seq<Metadata>> {
    var retained := Take(cfg.retentionLimit, Valid(cfg, d, scan));
    Plan(Tidy(Surplus(cfg, d, retained, scan), retained), SortBy(MetadataOrder, retained))
  }

  /** `readOrRecoverIndex` */
  function ReadPlan(cfg: Config, d: Disk, scan: seq<string>): Plan<seq<Metadata>> {
    match ReadIndex(cfg, d)
    case None => RecoverPlan(cfg, d, scan)
    case Some(indexed) =>
      if IndexMatches(indexed, d) then Plan([], Take(MAX_SNAPSHOTS_INDEXED, SortBy(MetadataOrder, indexed)))
      else RecoverPlan(cfg, d, scan)
  }

  /** `listMetadata` */
  function ListPlan(cfg: Config, d: Disk, scan: seq<string>): Plan<seq<Metadata>> {
    if d.created then ReadPlan(cfg, d, scan) else Plan([], [])
  }

  function Retained(cfg: Config, current: seq<Metadata>, s: Snapshot): seq<Metadata> {
    Take(cfg.retentionLimit, SortBy(MetadataOrder, Filter(Except(s.snapshotId), current) + [ToMetadata(s)]))
  }

  function Evicted(cfg: Config, current: seq<Metadata>, s: Snapshot): seq<Metadata> {
    Filter(NotAmong(Retained(cfg, current, s)), current)
  }

  /** Write the snapshot, delete what it evicts, rewrite the index. */
  function StoreActions(cfg: Config, current: seq<Metadata>, s: Snapshot): seq<Action> {
    [PutSnapshot(s)] + Tidy(Evicted(cfg, current, s), Retained(cfg, current, s))
  }

  function Newest(cfg: Config, d: Disk, current: seq<Metadata>): Option<Snapshot> {
    if current == [] then None else Load(cfg, d, current[0].snapshotId)
  }

  /** `save` */
  function SavePlan(cfg: Config, d: Disk, s: Snapshot, scan: seq<string>): Plan<SaveResult> {
    if !Validate(s) then Plan([], InvalidSnapshot)
    else
      var made := Apply(cfg, d, MakeDirectory);
      var read := ReadPlan(cfg, made, scan);
      var opening := [MakeDirectory] + read.actions;
      var latest := Newest(cfg, ApplyAll(cfg, d, opening), read.result);
      if latest.Some? && latest.value.graphFingerprint == s.graphFingerprint then
        Plan(opening, Deduplicated(ToMetadata(latest.value)))
      else if cfg.encodedSize(s) > cfg.maxSnapshotBytes then
        Plan(opening, TooLarge)
      else
        Plan(opening + StoreActions(cfg, read.result, s), Saved(ToMetadata(s)))
  }

  function FirstLoadable(cfg: Config, d: Disk, entries: seq<Metadata>): Option<Snapshot> {
    if entries == [] then None
    else
      var first := Load(cfg, d, entries[0].snapshotId);
      if first.Some? then first else FirstLoadable(cfg, d, entries[1..])
  }

  /** `latest`; `rescan` is what the closing recovery inspects, if it runs. */
  function LatestPlan(cfg: Config, d: Disk, scan: seq<string>, rescan: seq<string>): Plan<Option<Snapshot>> {
    if !d.created then Plan([], None)
    else
      var read := ReadPlan(cfg, d, scan);
      var after := ApplyAll(cfg, d, read.actions);
      var loaded := FirstLoadable(cfg, after, read.result);
      if loaded.None? && read.result != [] then Plan(read.actions + [PutIndex([])], loaded)
      else if loaded.Some? && loaded.value.snapshotId != read.result[0].snapshotId then
        Plan(read.actions + RecoverPlan(cfg, after, rescan).actions, loaded)
      else Plan(read.actions, loaded)
  }

  /** `load` of a well-formed identifier: an unreadable file triggers recovery. */
  function LoadPlan(cfg: Config, d: Disk, id: string, scan: seq<string>): Plan<Option<Snapshot>> {
    if !d.created then Plan([], None)
    else
      var loaded := Load(cfg, d, id);
      if loaded.None? && id in d.files then Plan(RecoverPlan(cfg, d, scan).actions, None)
      else Plan([], loaded)
  }
}

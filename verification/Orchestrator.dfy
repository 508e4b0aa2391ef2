/** Persistence over many servers, and the orchestrator that keeps the last answer for the view. */
module Orchestrator {
  import opened Collections
  import opened Graphs
  import opened Snapshots
  import opened SnapshotStore
  import opened StoreRecovery
  import opened StoreRuns
  import opened Projection
  import opened Identities
  import opened Repository
  import opened Capturing
  import opened CaptureRuns
  import opened Comparing

  /** What a capture draws from its surroundings. */
  datatype Draws = Draws(serverId: string, snapshotId: string, capturedAt: int)

  datatype Context = Context(serverId: string, outcome: CaptureOutcome)

  class SnapshotPersistence {
    const bounds: Config
    const identities: ServerIdentityStore
    var stores: map<string, FileSnapshotRepository>

    constructor (bounds: Config, identities: ServerIdentityStore)
      requires ValidConfig(bounds)
      ensures Valid() && this.bounds == bounds && this.identities == identities && stores == map[]
    {
      this.bounds, this.identities, stores := bounds, identities, map[];
    }

    ghost predicate Valid()
      reads this
    {
      && ValidConfig(bounds)
      && forall id :: id in stores ==> stores[id].cfg == ConfigFor(id)
    }

    /** Known servers keep their repository and new repositories are new objects. */
    twostate predicate OnlyGrew()
      reads this
    {
      forall id :: id in stores ==> (id in old(stores) && stores[id] == old(stores[id])) || fresh(stores[id])
    }

    function ConfigFor(serverId: string): Config { bounds.(serverId := serverId) }

    /** The directory of one server. */
    function DiskOf(serverId: string): Disk
      reads this, stores.Values
    {
      if serverId in stores then stores[serverId].Contents() else EmptyDisk
    }

    method Open(serverId: string) returns (store: FileSnapshotRepository)
      requires Valid()
      modifies this
      ensures Valid() && serverId in stores && stores[serverId] == store
      ensures old(stores).Keys <= stores.Keys && forall id :: id in old(stores) ==> stores[id] == old(stores[id])
      ensures forall id :: id in stores ==> id in old(stores) || id == serverId
      ensures serverId in old(stores) || store.Contents() == EmptyDisk
      ensures OnlyGrew()
    {
      if serverId in stores {
        store := stores[serverId];
      } else {
        store := new FileSnapshotRepository(ConfigFor(serverId));
        stores := stores[serverId := store];
      }
    }

    /** `captureContext` */
    method CaptureContext(target: SshTarget, graph: InfraGraph, draws: Draws)
      returns (r: Result<Context, IdentityError>, ghost scans: CaptureScans)
      requires Valid()
      modifies this, identities, stores.Values
      ensures Valid() && OnlyGrew()
      ensures var resolved := Resolved(old(identities.file), ConnectionKey(target), draws.serverId);
        && identities.file == resolved.0
        && (r.Failure? ==> resolved.1 == Failure(r.error))
        && (r.Success? ==> resolved.1 == Success(r.value.serverId))
      ensures forall id :: (r.Failure? || id != r.value.serverId) ==> DiskOf(id) == old(DiskOf(id))
      ensures r.Success? ==>
        var cfg, before := ConfigFor(r.value.serverId), old(DiskOf(r.value.serverId));
        var plan := CapturePlan(cfg, before, CaptureInput(graph, draws.snapshotId, draws.capturedAt), scans);
        && ScansOf(cfg, before, scans)
        && r.value.outcome == plan.result
        && DiskOf(r.value.serverId) == ApplyAll(cfg, before, plan.actions)
    {
      hide LatestPlan, SavePlan, ApplyAll, IsScan, ReadPlan, Capture, Resolved, ConnectionKey;
      var answer := identities.Resolve(target, draws.serverId);
      if answer.Failure? { return Failure(answer.error), CaptureScans([], [], []); }
      var serverId := answer.value;
      var store := Open(serverId);
      ghost var cfg, before := store.cfg, store.Contents();
      ghost var read, rescan, last;
      var previous;
      previous, read, rescan := store.Latest();
      ghost var latest := LatestPlan(cfg, before, read, rescan);
      match Capture(graph, serverId, draws.snapshotId, draws.capturedAt)
      case Failure(e) =>
        last := store.ScanFiles();
        return Success(Context(serverId, GraphRejected(e))), CaptureScans(read, rescan, last);
      case Success(current) =>
        CaptureBelongs(graph, serverId, draws);
        ghost var middle := store.Contents();
        var saved;
        saved, last := store.Save(current);
        ApplyAllAppend(cfg, before, latest.actions, SavePlan(cfg, middle, current, last).actions);
        scans := CaptureScans(read, rescan, last);
        r := Success(Context(serverId, if saved.Saved? || saved.Deduplicated? then Captured(previous, current, saved) else SaveRejected(saved)));
    }

    lemma CaptureBelongs(graph: InfraGraph, serverId: string, draws: Draws)
      ensures var made := Capture(graph, serverId, draws.snapshotId, draws.capturedAt);
        made.Success? ==> made.value.serverId == serverId
    {
    }

    /** `history` */
    method History(serverId: string) returns (entries: seq<Metadata>, ghost scan: seq<string>)
      requires Valid()
      modifies this, stores.Values
      ensures Valid() && OnlyGrew()
      ensures IsScan(old(DiskOf(serverId)), scan)
      ensures var plan := ListPlan(ConfigFor(serverId), old(DiskOf(serverId)), scan);
        entries == plan.result && DiskOf(serverId) == ApplyAll(ConfigFor(serverId), old(DiskOf(serverId)), plan.actions)
      ensures forall id :: id != serverId ==> DiskOf(id) == old(DiskOf(id))
    {
      hide ListPlan, ApplyAll, IsScan;
      var store := Open(serverId);
      entries, scan := store.ListMetadata();
    }

    /** `load` of a well-formed identifier. */
    method LoadSnapshot(serverId: string, snapshotId: string) returns (loaded: Option<Snapshot>, ghost scan: seq<string>)
      requires Valid() && IsUuid(snapshotId)
      modifies this, stores.Values
      ensures Valid() && OnlyGrew()
      ensures IsScan(old(DiskOf(serverId)), scan)
      ensures var plan := LoadPlan(ConfigFor(serverId), old(DiskOf(serverId)), snapshotId, scan);
        loaded == plan.result && DiskOf(serverId) == ApplyAll(ConfigFor(serverId), old(DiskOf(serverId)), plan.actions)
      ensures forall id :: id != serverId ==> DiskOf(id) == old(DiskOf(id))
    {
      hide LoadPlan, ApplyAll, IsScan, IsUuid;
      var store := Open(serverId);
      var r;
      r, scan := store.LoadById(snapshotId);
      loaded := r.snapshot;
    }
  }

  /** An exception in the source, or a response for the view. */
  datatype Answer = NoIdentity(error: IdentityError) | NotCaptured(outcome: CaptureOutcome) | Answered(response: Response)

  class ChangesOrchestrator {
    const persistence: SnapshotPersistence
    var activeServerId: Option<string>
    var latest: Response

    constructor (persistence: SnapshotPersistence)
      ensures this.persistence == persistence && activeServerId == None && latest == Failure(NOT_CONNECTED)
    {
      this.persistence, activeServerId, latest := persistence, None, Failure(NOT_CONNECTED);
    }

    /** `current` */
    function Current(): Response
      reads this
    {
      latest
    }

    /** `capture`: only a completed capture changes the active server and the remembered response. */
    method Capture(target: SshTarget, graph: InfraGraph, draws: Draws)
      returns (r: Answer, ghost serverId: string, ghost scans: CaptureScans, ghost listing: seq<string>)
      requires persistence.Valid()
      modifies this, persistence, persistence.identities, persistence.stores.Values
      ensures persistence.Valid()
      ensures var resolved := Resolved(old(persistence.identities.file), ConnectionKey(target), draws.serverId);
        && persistence.identities.file == resolved.0
        && (r.NoIdentity? <==> resolved.1.Failure?)
        && (!r.NoIdentity? ==> resolved.1 == Success(serverId))
      ensures !r.Answered? ==> activeServerId == old(activeServerId) && Current() == old(Current())
      ensures forall id :: (r.NoIdentity? || id != serverId) ==> persistence.DiskOf(id) == old(persistence.DiskOf(id))
      ensures !r.NoIdentity? ==>
        var cfg, before := persistence.ConfigFor(serverId), old(persistence.DiskOf(serverId));
        var plan := CapturePlan(cfg, before, CaptureInput(graph, draws.snapshotId, draws.capturedAt), scans);
        var after := ApplyAll(cfg, before, plan.actions);
        && ScansOf(cfg, before, scans)
        && (r.Answered? <==> plan.result.Captured?)
        && (r.NotCaptured? ==> r.outcome == plan.result && persistence.DiskOf(serverId) == after)
        && (r.Answered? ==>
              var listed := ListPlan(cfg, after, listing);
              && IsScan(after, listing)
              && r.response == Success(PayloadOf(plan.result.previous, plan.result.current, plan.result.result.Saved?, listed.result))
              && activeServerId == Some(serverId) && Current() == r.response
              && persistence.DiskOf(serverId) == ApplyAll(cfg, after, listed.actions))
    {
      hide CapturePlan, ListPlan, ApplyAll, IsScan, ScansOf, PayloadOf, Resolved, ConnectionKey;
      listing := [];
      var context;
      context, scans := persistence.CaptureContext(target, graph, draws);
      if context.Failure? { return NoIdentity(context.error), "", scans, []; }
      serverId := context.value.serverId;
      var outcome := context.value.outcome;
      if !outcome.Captured? { return NotCaptured(outcome), serverId, scans, []; }
      activeServerId := Some(context.value.serverId);
      var history;
      history, listing := persistence.History(context.value.serverId);
      latest := Success(PayloadOf(outcome.previous, outcome.current, outcome.result.Saved?, history));
      r := Answered(latest);
    }

    /** Inspections of the directory for the reads that a failed comparison never gets to. */
    lemma RestScanned(serverId: string, d: Disk, previousId: string, currentId: string, list: seq<string>)
      returns (scans: CompareScans)
      requires IsScan(d, list)
      ensures scans.list == list && CompareScansOf(persistence.ConfigFor(serverId), d, previousId, currentId, scans)
    {
      hide ListPlan, LoadPlan, ApplyAll, IsScan;
      var cfg := persistence.ConfigFor(serverId);
      var d1 := ApplyAll(cfg, d, ListPlan(cfg, d, list).actions);
      var b := ScanExists(d1);
      var d2 := ApplyAll(cfg, d1, LoadPlan(cfg, d1, previousId, b).actions);
      var c := ScanExists(d2);
      var e := ScanExists(ApplyAll(cfg, d2, LoadPlan(cfg, d2, currentId, c).actions));
      scans := CompareScans(list, b, c, e);
    }

    /** `compare`, which remembers nothing. */
    method Compare(previousId: string, currentId: string) returns (r: Response, ghost scans: CompareScans)
      requires persistence.Valid()
      modifies persistence, persistence.stores.Values
      ensures persistence.Valid()
      ensures !IsUuid(previousId) || !IsUuid(currentId) ==> r == Failure(INVALID_SNAPSHOT_ID)
      ensures IsUuid(previousId) && IsUuid(currentId) && activeServerId.None? ==> r == Failure(NOT_CONNECTED)
      ensures IsUuid(previousId) && IsUuid(currentId) && activeServerId.Some? ==>
        var cfg, before := persistence.ConfigFor(activeServerId.value), old(persistence.DiskOf(activeServerId.value));
        var plan := ComparePlan(cfg, before, previousId, currentId, scans);
        && CompareScansOf(cfg, before, previousId, currentId, scans)
        && r == plan.result
        && persistence.DiskOf(activeServerId.value) == ApplyAll(cfg, before, plan.actions)
      ensures forall id :: (!IsUuid(previousId) || !IsUuid(currentId) || activeServerId != Some(id)) ==>
        persistence.DiskOf(id) == old(persistence.DiskOf(id))
    {
      hide ListPlan, LoadPlan, ApplyAll, IsScan, PayloadOf, IsUuid;
      scans := CompareScans([], [], [], []);
      if !IsUuid(previousId) || !IsUuid(currentId) { return Failure(INVALID_SNAPSHOT_ID), scans; }
      if activeServerId.None? { return Failure(NOT_CONNECTED), scans; }
      var serverId := activeServerId.value;
      ghost var a, b, c, e;
      ghost var before := persistence.DiskOf(serverId);
      var available;
      available, a := persistence.History(serverId);
      var ids := Map(MetadataId, available);
      ghost var cfg := persistence.ConfigFor(serverId);
      ghost var listed := ListPlan(cfg, before, a).actions;
      ghost var d1 := persistence.DiskOf(serverId);
      if previousId !in ids || currentId !in ids {
        scans := RestScanned(serverId, before, previousId, currentId, a);
        return Failure(SNAPSHOT_UNAVAILABLE), scans;
      }
      var previous, current;
      previous, b := persistence.LoadSnapshot(serverId, previousId);
      ghost var first := LoadPlan(cfg, d1, previousId, b).actions;
      ghost var d2 := persistence.DiskOf(serverId);
      current, c := persistence.LoadSnapshot(serverId, currentId);
      ghost var second := LoadPlan(cfg, d2, currentId, c).actions;
      ghost var d3 := persistence.DiskOf(serverId);
      ApplyAllAppend(cfg, before, listed, first);
      ApplyAllAppend(cfg, before, listed + first, second);
      e := ScanExists(persistence.DiskOf(serverId));
      if previous.None? || current.None? { return Failure(SNAPSHOT_UNAVAILABLE), CompareScans(a, b, c, e); }
      if previous.value.capturedAt > current.value.capturedAt {
        return Failure(INVALID_COMPARISON), CompareScans(a, b, c, e);
      }
      var history;
      history, e := persistence.History(serverId);
      ApplyAllAppend(cfg, before, listed + first + second, ListPlan(cfg, d3, e).actions);
      scans := CompareScans(a, b, c, e);
      var payload := PayloadOf(previous, current.value, true, history);
      r := if Terminates(payload.diff.status) then Failure(COMPARISON_FAILED) else Success(payload);
    }
  }
}

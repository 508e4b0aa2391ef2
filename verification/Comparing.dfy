/** What the changes view is given: payloads, and the comparison of two stored snapshots. */
module Comparing {
  import opened Ordering
  import opened Collections
  import opened Snapshots
  import opened SnapshotStore
  import opened StoreRecovery
  import opened StoreCrash
  import opened StoreRuns
  import opened DiffEngine
  import opened DiffOrder
  import opened DiffReplay
  import opened CaptureRuns

  datatype Display = Display(snapshotId: string, capturedAt: int, graphFingerprint: Fingerprint, persisted: bool)

  datatype ResourceSnapshot = ResourceSnapshot(nodeId: string, before: Option<SnapshotNode>, after: Option<SnapshotNode>)

  datatype Payload = Payload(
    previous: Option<Display>, current: Display, diff: InfrastructureDiff,
    resources: seq<ResourceSnapshot>, history: seq<Metadata>)

  datatype ChangesError = NOT_CONNECTED | INVALID_SNAPSHOT_ID | SNAPSHOT_UNAVAILABLE | INVALID_COMPARISON | COMPARISON_FAILED

  type Response = Result<Payload, ChangesError>

  function DisplayOf(s: Snapshot, persisted: bool): Display {
    Display(s.snapshotId, s.capturedAt, s.graphFingerprint, persisted)
  }

  /** The nodes a diff talks about: changed ones and the ends of changed relationships. */
  function RelevantIds(diff: InfrastructureDiff): set<string> {
    (set x | x in diff.nodeChanges :: x.nodeId)
      + (set y | y in diff.relationshipChanges :: y.edge.source)
      + (set y | y in diff.relationshipChanges :: y.edge.target)
  }

  function NodeIn(nodes: NodesById, id: string): Option<SnapshotNode> {
    if id in nodes then Some(nodes[id]) else None
  }

  function ResourceOf(before: NodesById, after: NodesById): string -> ResourceSnapshot {
    (id: string) => ResourceSnapshot(id, NodeIn(before, id), NodeIn(after, id))
  }

  function NodesBefore(previous: Option<Snapshot>): NodesById {
    if previous.Some? then NodesOf(previous.value.content) else map[]
  }

  /** `payload` */
  function PayloadOf(previous: Option<Snapshot>, current: Snapshot, persisted: bool, history: seq<Metadata>): Payload {
    var diff := Compare(previous, current);
    Payload(
      if previous.Some? then Some(DisplayOf(previous.value, true)) else None,
      DisplayOf(current, persisted), diff,
      Map(ResourceOf(NodesBefore(previous), NodesOf(current.content)), SortedSet(RelevantIds(diff))), history)
  }

  // ----- resources -----

  lemma NodeChangeHasSide(p: Content, c: Content, x: NodeChange)
    requires x in FoundNodeChanges(p, c)
    ensures x.nodeId in NodesOf(p) || x.nodeId in NodesOf(c)
  {
    hide NodesOf, FoundNodeChanges;
    FoundSides(p, c, x);
  }

  lemma EndpointListed(c: Content, e: SnapshotEdge)
    requires EndpointsExist(c) && e in c.edges
    ensures e.source in NodesOf(c) && e.target in NodesOf(c)
  {
    AssociateByKeys(NodeId, c.nodes);
    hide AssociateBy;
    var n :| n in c.nodes && n.id == e.source;
    var m :| m in c.nodes && m.id == e.target;
    assert NodeId(n) == e.source && NodeId(m) == e.target;
  }

  lemma EdgeChangeHasSide(p: Content, c: Content, y: RelationshipChange)
    requires EndpointsExist(p) && EndpointsExist(c) && y in FoundRelationshipChanges(p, c)
    ensures y.edge.source in NodesOf(p) || y.edge.source in NodesOf(c)
    ensures y.edge.target in NodesOf(p) || y.edge.target in NodesOf(c)
  {
    FoundEdgeChange(p, c, y);
    hide NodesOf, EndpointsExist;
    EndpointListed(if y.kind == RELATIONSHIP_ADDED then c else p, y.edge);
  }

  lemma ComparedLists(previous: Snapshot, current: Snapshot)
    ensures var diff := Compare(Some(previous), current);
      (diff.nodeChanges == [] && diff.relationshipChanges == []) || diff == FullDiff(previous, current)
  {
    hide ValidContent, FullDiff;
  }

  /** Of the compared snapshots, every relevant node is in at least one. */
  lemma RelevantHasSide(previous: Snapshot, current: Snapshot, id: string)
    requires ValidContent(previous.content) && ValidContent(current.content)
    requires id in RelevantIds(Compare(Some(previous), current))
    ensures id in NodesOf(previous.content) || id in NodesOf(current.content)
  {
    var diff := Compare(Some(previous), current);
    ComparedLists(previous, current);
    hide NodesOf, ValidContent, FullDiff, Compare;
    if x :| x in diff.nodeChanges && x.nodeId == id {
      PublishedNodeHasSide(previous, current, x);
    } else {
      var y :| y in diff.relationshipChanges && (y.edge.source == id || y.edge.target == id);
      PublishedEdgeHasSide(previous, current, y);
    }
  }

  lemma PublishedNodeHasSide(previous: Snapshot, current: Snapshot, x: NodeChange)
    requires x in FullDiff(previous, current).nodeChanges
    ensures x.nodeId in NodesOf(previous.content) || x.nodeId in NodesOf(current.content)
  {
    hide NodesOf, FullDiff, FoundNodeChanges;
    PublishedNode(previous, current, x);
    NodeChangeHasSide(previous.content, current.content, x);
  }

  lemma PublishedEdgeHasSide(previous: Snapshot, current: Snapshot, y: RelationshipChange)
    requires ValidContent(previous.content) && ValidContent(current.content)
    requires y in FullDiff(previous, current).relationshipChanges
    ensures y.edge.source in NodesOf(previous.content) || y.edge.source in NodesOf(current.content)
    ensures y.edge.target in NodesOf(previous.content) || y.edge.target in NodesOf(current.content)
  {
    assert EndpointsExist(previous.content) && EndpointsExist(current.content);
    hide NodesOf, FullDiff, FoundRelationshipChanges, ValidContent, EndpointsExist;
    PublishedEdge(previous, current, y);
    EdgeChangeHasSide(previous.content, current.content, y);
  }

  lemma ResourcesOf(previous: Option<Snapshot>, current: Snapshot, persisted: bool, history: seq<Metadata>)
    ensures var payload := PayloadOf(previous, current, persisted, history);
      && (forall r :: r in payload.resources ==>
            r == ResourceOf(NodesBefore(previous), NodesOf(current.content))(r.nodeId) && r.nodeId in RelevantIds(payload.diff))
      && (forall id :: id in RelevantIds(payload.diff) ==> exists r :: r in payload.resources && r.nodeId == id)
  {
    var payload := PayloadOf(previous, current, persisted, history);
    var f := ResourceOf(NodesBefore(previous), NodesOf(current.content));
    var ids := SortedSet(RelevantIds(payload.diff));
    assert payload.resources == Map(f, ids);
    hide PayloadOf, Compare, NodesOf, RelevantIds, SortedSet, Map;
    forall r | r in payload.resources ensures r == f(r.nodeId) && r.nodeId in RelevantIds(payload.diff) {
      var id := MapOrigin(f, ids, r);
    }
    forall id | id in RelevantIds(payload.diff) ensures exists r :: r in payload.resources && r.nodeId == id {
      assert id in ids;
      MapMember(f, ids, id);
      assert f(id) in payload.resources && f(id).nodeId == id;
    }
  }

  /**
    The resources of a payload are exactly the nodes its diff talks about, each with what the two
    snapshots hold for it, and none of them is missing from both.
   */
  lemma ResourcesCoverDiff(previous: Snapshot, current: Snapshot, persisted: bool, history: seq<Metadata>)
    requires ValidContent(previous.content) && ValidContent(current.content)
    ensures var payload := PayloadOf(Some(previous), current, persisted, history);
      && (forall r :: r in payload.resources ==>
            && r.nodeId in RelevantIds(payload.diff)
            && r.before == NodeIn(NodesOf(previous.content), r.nodeId)
            && r.after == NodeIn(NodesOf(current.content), r.nodeId)
            && (r.before.Some? || r.after.Some?))
      && (forall id :: id in RelevantIds(payload.diff) ==> exists r :: r in payload.resources && r.nodeId == id)
  {
    var payload := PayloadOf(Some(previous), current, persisted, history);
    assert payload.diff == Compare(Some(previous), current);
    ResourcesOf(Some(previous), current, persisted, history);
    hide PayloadOf, NodesOf, ValidContent, RelevantIds, Compare;
    forall r | r in payload.resources
      ensures r.before == NodeIn(NodesOf(previous.content), r.nodeId)
      ensures r.after == NodeIn(NodesOf(current.content), r.nodeId)
      ensures r.before.Some? || r.after.Some?
    {
      RelevantHasSide(previous, current, r.nodeId);
    }
  }

  // ----- comparing two stored snapshots -----

  datatype CompareScans = CompareScans(list: seq<string>, previous: seq<string>, current: seq<string>, relist: seq<string>)

  /** `compare` for two well-formed identifiers on the directory of the active server. */
  function ComparePlan(cfg: Config, d: Disk, previousId: string, currentId: string, scans: CompareScans): Plan<Response> {
    var listed := ListPlan(cfg, d, scans.list);
    if previousId !in Map(MetadataId, listed.result) || currentId !in Map(MetadataId, listed.result) then
      Plan(listed.actions, Failure(SNAPSHOT_UNAVAILABLE))
    else
      var d1 := ApplyAll(cfg, d, listed.actions);
      var previous := LoadPlan(cfg, d1, previousId, scans.previous);
      var d2 := ApplyAll(cfg, d1, previous.actions);
      var current := LoadPlan(cfg, d2, currentId, scans.current);
      var actions := listed.actions + previous.actions + current.actions;
      if previous.result.None? || current.result.None? then Plan(actions, Failure(SNAPSHOT_UNAVAILABLE))
      else if previous.result.value.capturedAt > current.result.value.capturedAt then Plan(actions, Failure(INVALID_COMPARISON))
      else
        var again := ListPlan(cfg, ApplyAll(cfg, d2, current.actions), scans.relist);
        var payload := PayloadOf(previous.result, current.result.value, true, again.result);
        Plan(actions + again.actions, if Terminates(payload.diff.status) then Failure(COMPARISON_FAILED) else Success(payload))
  }

  lemma FullDiffStatus(p: Snapshot, c: Snapshot)
    ensures !Terminates(FullDiff(p, c).status)
  {
    hide FoundNodeChanges, FoundRelationshipChanges, FoundUncertainties, SortBy, OrderedUncertainties, Count;
  }

  lemma StoredFacts(cfg: Config, d: Disk, s: Snapshot)
    requires Load(cfg, d, s.snapshotId) == Some(s)
    ensures WellFormedGraph(s.content) && s.serverId == cfg.serverId && s.schemaVersion == SNAPSHOT_SCHEMA_VERSION
  {
    hide WellFormedGraph;
  }

  /** A stored snapshot passes every check of the comparison but one: subsystems may repeat. */
  lemma StoredCompare(cfg: Config, d: Disk, p: Snapshot, c: Snapshot)
    requires Load(cfg, d, p.snapshotId) == Some(p) && Load(cfg, d, c.snapshotId) == Some(c)
    requires p.capturedAt <= c.capturedAt
    ensures Terminates(Compare(Some(p), c).status) <==>
      !UniqueBy(SubsystemName, p.content.discoveryQuality) || !UniqueBy(SubsystemName, c.content.discoveryQuality)
  {
    hide Load, Validate, FullDiff, UniqueBy, EndpointsExist;
    StoredFacts(cfg, d, p);
    StoredFacts(cfg, d, c);
    FullDiffStatus(p, c);
  }

  predicate RepeatsSubsystem(c: Content) { !UniqueBy(SubsystemName, c.discoveryQuality) }

  lemma LoadedPlan(cfg: Config, d: Disk, id: string, scan: seq<string>)
    requires d.created
    ensures LoadPlan(cfg, d, id, scan).result == Load(cfg, d, id)
    ensures Load(cfg, d, id).Some? ==> LoadPlan(cfg, d, id, scan).actions == [] && Load(cfg, d, id).value.snapshotId == id
  {
    LoadedId(cfg, d, id);
    hide Load, RecoverPlan;
  }

  /**
    On any directory, damaged or not: what a comparison answers, by what is listed and what then loads. It
    fails inside the diff engine exactly when a stored file repeats a subsystem, the one thing that
    loading does not check.
   */
  lemma CompareOnAnyDisk(cfg: Config, d: Disk, previousId: string, currentId: string, scans: CompareScans)
    ensures var h, d1 := ListPlan(cfg, d, scans.list).result, ApplyAll(cfg, d, ListPlan(cfg, d, scans.list).actions);
      var r := ComparePlan(cfg, d, previousId, currentId, scans).result;
      var p, c := Load(cfg, d1, previousId), Load(cfg, d1, currentId);
      if previousId !in Map(MetadataId, h) || currentId !in Map(MetadataId, h) || p.None? || c.None? then r == Failure(SNAPSHOT_UNAVAILABLE)
      else if p.value.capturedAt > c.value.capturedAt then r == Failure(INVALID_COMPARISON)
      else if RepeatsSubsystem(p.value.content) || RepeatsSubsystem(c.value.content) then r == Failure(COMPARISON_FAILED)
      else r == Success(PayloadOf(p, c.value, true, ListPlan(cfg, d1, scans.relist).result))
  {
    var h, d1 := ListPlan(cfg, d, scans.list).result, ApplyAll(cfg, d, ListPlan(cfg, d, scans.list).actions);
    if previousId in Map(MetadataId, h) && currentId in Map(MetadataId, h) {
      ListedCreated(cfg, d, scans.list, previousId);
      hide ListPlan, ApplyAll, PayloadOf, LoadPlan, Load, ComparePlan, Compare, UniqueBy;
      LoadedPlan(cfg, d1, previousId, scans.previous);
      LoadedPlan(cfg, d1, currentId, scans.current);
      NothingApplied(cfg, d1);
      ComparedLoaded(cfg, d, d1, h, previousId, currentId, scans);
      var p, c := Load(cfg, d1, previousId), Load(cfg, d1, currentId);
      if p.Some? && c.Some? && p.value.capturedAt <= c.value.capturedAt {
        StoredCompare(cfg, d1, p.value, c.value);
        PayloadDiff(p.value, c.value, ListPlan(cfg, d1, scans.relist).result);
      }
    }
  }

  /** A directory that lists something exists, before and after. */
  lemma ListedCreated(cfg: Config, d: Disk, scan: seq<string>, id: string)
    requires id in Map(MetadataId, ListPlan(cfg, d, scan).result)
    ensures ApplyAll(cfg, d, ListPlan(cfg, d, scan).actions).created
  {
    hide ReadPlan, Map, LoadFile;
    var actions := ListPlan(cfg, d, scan).actions;
    NothingMapped(id);
    StaysCreated(cfg, d, actions);
  }

  lemma NothingMapped(id: string)
    ensures id !in Map(MetadataId, [])
  {
  }

  lemma {:induction false} StaysCreated(cfg: Config, d: Disk, actions: seq<Action>)
    ensures d.created ==> ApplyAll(cfg, d, actions).created
  {
    hide SortBy, Map;
    if actions != [] { StaysCreated(cfg, d, actions[..|actions| - 1]); }
  }

  lemma ComparedLoaded(cfg: Config, d: Disk, d1: Disk, h: seq<Metadata>, previousId: string, currentId: string, scans: CompareScans)
    requires ListPlan(cfg, d, scans.list).result == h && d1 == ApplyAll(cfg, d, ListPlan(cfg, d, scans.list).actions)
    requires previousId in Map(MetadataId, h) && currentId in Map(MetadataId, h)
    requires LoadPlan(cfg, d1, previousId, scans.previous).result.Some? ==> LoadPlan(cfg, d1, previousId, scans.previous).actions == []
    requires LoadPlan(cfg, d1, currentId, scans.current).result.Some? ==> LoadPlan(cfg, d1, currentId, scans.current).actions == []
    ensures var p, c := LoadPlan(cfg, d1, previousId, scans.previous).result, LoadPlan(cfg, d1, currentId, scans.current).result;
      var r := ComparePlan(cfg, d, previousId, currentId, scans).result;
      var again := ListPlan(cfg, d1, scans.relist).result;
      if p.None? || c.None? then r == Failure(SNAPSHOT_UNAVAILABLE)
      else if p.value.capturedAt > c.value.capturedAt then r == Failure(INVALID_COMPARISON)
      else r == if Terminates(PayloadOf(p, c.value, true, again).diff.status) then Failure(COMPARISON_FAILED)
                else Success(PayloadOf(p, c.value, true, again))
  {
    NothingApplied(cfg, d1);
    hide ListPlan, LoadPlan, PayloadOf, ApplyAll, Terminates;
  }

  ghost predicate CompareScansOf(cfg: Config, d: Disk, previousId: string, currentId: string, scans: CompareScans) {
    var d1 := ApplyAll(cfg, d, ListPlan(cfg, d, scans.list).actions);
    var d2 := ApplyAll(cfg, d1, LoadPlan(cfg, d1, previousId, scans.previous).actions);
    var d3 := ApplyAll(cfg, d2, LoadPlan(cfg, d2, currentId, scans.current).actions);
    IsScan(d, scans.list) && IsScan(d1, scans.previous) && IsScan(d2, scans.current) && IsScan(d3, scans.relist)
  }

  lemma ListKeepsGood(cfg: Config, d: Disk, ledger: Ledger, h: seq<Metadata>, scan: seq<string>)
    requires ValidConfig(cfg) && Good(cfg, d, ledger, h) && IsScan(d, scan)
    ensures ListPlan(cfg, d, scan).result == h
    ensures Good(cfg, ApplyAll(cfg, d, ListPlan(cfg, d, scan).actions), ledger, h)
  {
    GoodHistory(cfg, d, ledger, h, scan);
    var actions := ListPlan(cfg, d, scan).actions;
    assert actions[..|actions|] == actions;
    hide Good, ReadPlan;
    if d.created { ReadKeepsGood(cfg, d, ledger, h, scan, |actions|); }
  }

  lemma GoodLoads(cfg: Config, d: Disk, ledger: Ledger, h: seq<Metadata>, id: string)
    requires Good(cfg, d, ledger, h) && Lists(h, id)
    ensures d.created && id in ledger && Load(cfg, d, id) == Some(ledger[id]) && ledger[id].snapshotId == id
  {
    hide LoadFile, ReadIndex, ReadableMetadata, EntriesAgree;
    var m :| m in h && m.snapshotId == id;
    ReadableMember(cfg, d, m);
  }

  lemma ListsIds(h: seq<Metadata>, id: string)
    ensures Lists(h, id) <==> id in Map(MetadataId, h)
  {
    if m :| m in h && m.snapshotId == id { MapMember(MetadataId, h, m); }
    if id in Map(MetadataId, h) {
      var i :| 0 <= i < |h| && Map(MetadataId, h)[i] == id;
      assert h[i] in h;
    }
  }

  /**
    On an undamaged directory a comparison succeeds exactly for two listed snapshots in time order,
    and then shows their diff and the unchanged history; it never fails inside the diff engine.
   */
  lemma CompareExact(cfg: Config, d: Disk, ledger: Ledger, h: seq<Metadata>, now: int,
    previousId: string, currentId: string, scans: CompareScans)
    requires ValidConfig(cfg) && Good(cfg, d, ledger, h) && LedgerIssued(cfg, ledger, now)
    requires CompareScansOf(cfg, d, previousId, currentId, scans)
    ensures var r := ComparePlan(cfg, d, previousId, currentId, scans).result;
      if !Lists(h, previousId) || !Lists(h, currentId) then r == Failure(SNAPSHOT_UNAVAILABLE)
      else
        previousId in ledger && currentId in ledger
        && r == if ledger[previousId].capturedAt > ledger[currentId].capturedAt then Failure(INVALID_COMPARISON)
                else Success(PayloadOf(Some(ledger[previousId]), ledger[currentId], true, h))
  {
    ListKeepsGood(cfg, d, ledger, h, scans.list);
    ListsIds(h, previousId);
    ListsIds(h, currentId);
    if Lists(h, previousId) && Lists(h, currentId) {
      var d1 := ApplyAll(cfg, d, ListPlan(cfg, d, scans.list).actions);
      hide Good, ListPlan, ApplyAll, PayloadOf, LoadPlan, IsScan, Load, Lists, ComparePlan, LedgerIssued;
      GoodLoads(cfg, d1, ledger, h, previousId);
      GoodLoads(cfg, d1, ledger, h, currentId);
      LoadOnGood(cfg, d1, ledger, h, previousId, scans.previous);
      LoadOnGood(cfg, d1, ledger, h, currentId, scans.current);
      NothingApplied(cfg, d1);
      ListKeepsGood(cfg, d1, ledger, h, scans.relist);
      var p, c := ledger[previousId], ledger[currentId];
      ComparedLoaded(cfg, d, d1, h, previousId, currentId, scans);
      if p.capturedAt <= c.capturedAt { IssuedPayload(cfg, ledger, now, p, c, h); }
    }
  }

  lemma IssuedPayload(cfg: Config, ledger: Ledger, now: int, p: Snapshot, c: Snapshot, h: seq<Metadata>)
    requires LedgerIssued(cfg, ledger, now) && p.capturedAt <= c.capturedAt
    requires p.snapshotId in ledger && ledger[p.snapshotId] == p && c.snapshotId in ledger && ledger[c.snapshotId] == c
    ensures !Terminates(PayloadOf(Some(p), c, true, h).diff.status)
  {
    PayloadDiff(p, c, h);
    hide PayloadOf, Issuable, Compare;
    IssuedCompare(cfg, Some(p), c);
  }

  lemma PayloadDiff(p: Snapshot, c: Snapshot, h: seq<Metadata>)
    ensures PayloadOf(Some(p), c, true, h).diff == Compare(Some(p), c)
  {
    hide Compare;
  }
}

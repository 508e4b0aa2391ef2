/**
  The repository of one server's snapshots as it runs: fields updated one disk action at a time.

  `steps` logs the actions in order.  Each operation performs exactly the actions of its plan, so a
  crash inside it leaves the disk after a prefix of them, which is what `StoreRuns` reasons about.
  Calls for one server are serialised by a lock, so one object is one sequential actor.
 */
module Repository {
  import opened Ordering
  import opened Collections
  import opened Snapshots
  import opened SnapshotStore

  datatype LoadResult = InvalidIdentifier | Loaded(snapshot: Option<Snapshot>)

  class FileSnapshotRepository {
    const cfg: Config
    var created: bool
    var files: map<string, StoredFile>
    var index: IndexFile
    ghost var steps: seq<Action>

    constructor (cfg: Config)
      requires ValidConfig(cfg)
      ensures this.cfg == cfg && Contents() == Disk(false, map[], NoIndex) && steps == []
    {
      this.cfg := cfg;
      created, files, index, steps := false, map[], NoIndex, [];
    }

    function Contents(): Disk
      reads this
    {
      Disk(created, files, index)
    }

    // ----- single disk actions -----

    method CreateDirectories()
      modifies this
      ensures Contents() == Apply(cfg, old(Contents()), MakeDirectory)
      ensures steps == old(steps) + [MakeDirectory]
    {
      created := true;
      steps := steps + [MakeDirectory];
    }

    /** `atomicWrite` of a snapshot file. */
    method WriteSnapshot(s: Snapshot)
      modifies this
      ensures Contents() == Apply(cfg, old(Contents()), PutSnapshot(s))
      ensures steps == old(steps) + [PutSnapshot(s)]
    {
      files := files[s.snapshotId := StoredFile(Some(s), cfg.encodedSize(s))];
      steps := steps + [PutSnapshot(s)];
    }

    method DeleteIfExists(id: string)
      modifies this
      ensures Contents() == Apply(cfg, old(Contents()), DeleteSnapshot(id))
      ensures steps == old(steps) + [DeleteSnapshot(id)]
    {
      files := files - {id};
      steps := steps + [DeleteSnapshot(id)];
    }

    method WriteIndex(entries: seq<Metadata>)
      modifies this
      ensures Contents() == Apply(cfg, old(Contents()), PutIndex(entries))
      ensures steps == old(steps) + [PutIndex(entries)]
    {
      index := IndexFile(1, cfg.serverId, Map(Present, SortBy(MetadataOrder, entries)));
      steps := steps + [PutIndex(entries)];
    }

    // ----- reading -----

    /** The files recovery inspects: the listing has no fixed order and stops at 200. */
    method ScanFiles() returns (scan: seq<string>)
      ensures IsScan(Contents(), scan)
    {
      scan := [];
      var rest := files.Keys;
      while rest != {} && |scan| < MAX_SNAPSHOT_FILES_SCANNED
        invariant Distinct(scan) && rest <= files.Keys
        invariant forall id :: id in scan ==> id in files && id !in rest
        invariant |scan| + |rest| == |files| && |scan| <= MAX_SNAPSHOT_FILES_SCANNED
        decreases |rest|
      {
        var id :| id in rest;
        scan, rest := scan + [id], rest - {id};
      }
    }

    method LoadAll(scan: seq<string>) returns (loaded: seq<Metadata>)
      ensures loaded == FilterMap(LoadMetadata(cfg, Contents()), scan)
    {
      loaded := [];
      ghost var f := LoadMetadata(cfg, Contents());
      for i := 0 to |scan|
        invariant loaded == FilterMap(f, scan[..i])
      {
        FilterMapStep(f, scan, i);
        match Load(cfg, Contents(), scan[i])
        case Some(s) => loaded := loaded + [ToMetadata(s)];
        case None =>
      }
      assert scan[..|scan|] == scan;
    }

    lemma OneMore(before: Disk, done: seq<Action>, a: Action)
      ensures ApplyAll(cfg, before, done + [a]) == Apply(cfg, ApplyAll(cfg, before, done), a)
    {
      assert (done + [a])[..|done|] == done;
    }

    lemma OneMoreDelete(retained: seq<Metadata>, entries: seq<Metadata>, i: nat)
      requires i < |entries|
      ensures var done := Map(DeleteOf, Filter(NotAmong(retained), entries[..i]));
        Map(DeleteOf, Filter(NotAmong(retained), entries[..i + 1])) ==
          if (forall k :: k in retained ==> k.snapshotId != entries[i].snapshotId) then done + [DeleteSnapshot(entries[i].snapshotId)] else done
    {
      FilterStep(NotAmong(retained), entries, i);
      var kept := Filter(NotAmong(retained), entries[..i]);
      assert (kept + [entries[i]])[..|kept|] == kept;
      assert kept + [] == kept;
    }

    /** Deletes the files of the entries that are not retained, one by one. */
    method DeleteExcept(retained: seq<Metadata>, entries: seq<Metadata>)
      modifies this
      ensures var actions := Map(DeleteOf, Filter(NotAmong(retained), entries));
        Contents() == ApplyAll(cfg, old(Contents()), actions) && steps == old(steps) + actions
    {
      ghost var before, done := Contents(), [];
      for i := 0 to |entries|
        invariant done == Map(DeleteOf, Filter(NotAmong(retained), entries[..i]))
        invariant Contents() == ApplyAll(cfg, before, done) && steps == old(steps) + done
      {
        hide ApplyAll, Apply, Filter, Map, NotAmong;
        OneMoreDelete(retained, entries, i);
        if forall k :: k in retained ==> k.snapshotId != entries[i].snapshotId {
          ghost var action := DeleteSnapshot(entries[i].snapshotId);
          OneMore(before, done, action);
          DeleteIfExists(entries[i].snapshotId);
          done := done + [action];
        }
      }
      assert entries[..|entries|] == entries;
    }

    // ----- operations -----

    method RecoverIndex() returns (entries: seq<Metadata>, ghost scan: seq<string>)
      modifies this
      ensures IsScan(old(Contents()), scan)
      ensures var plan := RecoverPlan(cfg, old(Contents()), scan);
        && entries == plan.result
        && Contents() == ApplyAll(cfg, old(Contents()), plan.actions)
        && steps == old(steps) + plan.actions
    {
      hide ApplyAll, Apply, SortBy, FilterMap, Take, Map, Filter, IsScan;
      var inspected := ScanFiles();
      scan := inspected;
      var loaded := LoadAll(inspected);
      var valid := SortBy(MetadataOrder, loaded);
      var retained := Take(cfg.retentionLimit, valid);
      DeleteExcept(retained, valid);
      ghost var deletes := Map(DeleteOf, Filter(NotAmong(retained), valid));
      OneMore(old(Contents()), deletes, PutIndex(retained));
      WriteIndex(retained);
      entries := SortBy(MetadataOrder, retained);
    }

    method ReadOrRecoverIndex() returns (entries: seq<Metadata>, ghost scan: seq<string>)
      modifies this
      ensures IsScan(old(Contents()), scan)
      ensures var plan := ReadPlan(cfg, old(Contents()), scan);
        && entries == plan.result
        && Contents() == ApplyAll(cfg, old(Contents()), plan.actions)
        && steps == old(steps) + plan.actions
    {
      hide ApplyAll, ReadIndex, IndexMatches, RecoverPlan, SortBy, Take, IsScan;
      NothingDone(Contents());
      match ReadIndex(cfg, Contents())
      case Some(indexed) =>
        if IndexMatches(indexed, Contents()) {
          ghost var unused := ScanFiles();
          scan := unused;
          entries := Take(MAX_SNAPSHOTS_INDEXED, SortBy(MetadataOrder, indexed));
          assert steps == steps + [];
        } else {
          entries, scan := RecoverIndex();
        }
      case None =>
        entries, scan := RecoverIndex();
    }

    /** `save`; an invalid or oversized snapshot is an exception in the source. */
    method Save(s: Snapshot) returns (r: SaveResult, ghost scan: seq<string>)
      requires s.serverId == cfg.serverId
      modifies this
      ensures IsScan(old(Contents()), scan)
      ensures var plan := SavePlan(cfg, old(Contents()), s, scan);
        && r == plan.result
        && Contents() == ApplyAll(cfg, old(Contents()), plan.actions)
        && steps == old(steps) + plan.actions
    {
      hide ApplyAll, Apply, Validate, ReadPlan, StoreActions, Load, IsScan;
      if !Validate(s) {
        NothingDone(Contents());
        ghost var unused := ScanFiles();
        assert steps == steps + [];
        return InvalidSnapshot, unused;
      }
      ghost var before := Contents();
      MakeKeepsFiles(before);
      CreateDirectories();
      var current;
      current, scan := ReadOrRecoverIndex();
      ghost var reading := ReadPlan(cfg, Apply(cfg, before, MakeDirectory), scan).actions;
      ghost var opening := [MakeDirectory] + reading;
      OpeningApplies(before, reading);
      var latest := if current == [] then None else Load(cfg, Contents(), current[0].snapshotId);
      if latest.Some? && latest.value.graphFingerprint == s.graphFingerprint {
        return Deduplicated(ToMetadata(latest.value)), scan;
      }
      if cfg.encodedSize(s) > cfg.maxSnapshotBytes {
        return TooLarge, scan;
      }
      StoreAfter(before, opening, current, s);
      r := Saved(ToMetadata(s));
    }

    lemma OpeningApplies(before: Disk, reading: seq<Action>)
      ensures ApplyAll(cfg, before, [MakeDirectory] + reading) ==
        ApplyAll(cfg, Apply(cfg, before, MakeDirectory), reading)
    {
      ApplyAllAppend(cfg, before, [MakeDirectory], reading);
      assert [MakeDirectory][..0] == [];
    }

    lemma NothingDone(d: Disk)
      ensures ApplyAll(cfg, d, []) == d
    {
    }

    lemma MakeKeepsFiles(d: Disk)
      ensures forall scan :: IsScan(Apply(cfg, d, MakeDirectory), scan) ==> IsScan(d, scan)
    {
    }

    lemma StoreSplit(opening: seq<Action>, current: seq<Metadata>, s: Snapshot)
      ensures opening + StoreActions(cfg, current, s) ==
        opening + [PutSnapshot(s)] + Map(DeleteOf, Evicted(cfg, current, s)) + [PutIndex(Retained(cfg, current, s))]
    {
      hide Evicted, Retained, Map;
    }

    /** The writing half of `save`. */
    method StoreAfter(ghost before: Disk, ghost opening: seq<Action>, current: seq<Metadata>, s: Snapshot)
      requires Contents() == ApplyAll(cfg, before, opening)
      modifies this
      ensures Contents() == ApplyAll(cfg, before, opening + StoreActions(cfg, current, s))
      ensures steps == old(steps) + StoreActions(cfg, current, s)
    {
      hide ApplyAll, Apply, Retained, Map, Filter, StoreActions;
      ghost var put, deletes := opening + [PutSnapshot(s)], Map(DeleteOf, Evicted(cfg, current, s));
      var retained := Retained(cfg, current, s);
      OneMore(before, opening, PutSnapshot(s));
      ApplyAllAppend(cfg, before, put, deletes);
      OneMore(before, put + deletes, PutIndex(retained));
      StoreSplit(opening, current, s);
      StoreSplit(steps, current, s);
      WriteSnapshot(s);
      DeleteExcept(retained, current);
      WriteIndex(retained);
    }

    /** `latest` */
    method Latest() returns (loaded: Option<Snapshot>, ghost scan: seq<string>, ghost rescan: seq<string>)
      modifies this
      ensures IsScan(old(Contents()), scan)
      ensures old(created) ==> IsScan(ApplyAll(cfg, old(Contents()), ReadPlan(cfg, old(Contents()), scan).actions), rescan)
      ensures var plan := LatestPlan(cfg, old(Contents()), scan, rescan);
        && loaded == plan.result
        && Contents() == ApplyAll(cfg, old(Contents()), plan.actions)
        && steps == old(steps) + plan.actions
    {
      hide ApplyAll, Apply, Load, ReadPlan, RecoverPlan, IsScan;
      NothingDone(Contents());
      ghost var before := Contents();
      if !created {
        ghost var unused := ScanFiles();
        assert steps == steps + [];
        return None, unused, [];
      }
      var entries;
      entries, scan := ReadOrRecoverIndex();
      ghost var reading := ReadPlan(cfg, before, scan).actions;
      loaded := FindLoadable(entries);
      ghost var unused := ScanFiles();
      rescan := unused;
      if loaded.None? && entries != [] {
        OneMore(before, reading, PutIndex([]));
        WriteIndex([]);
      } else if loaded.Some? && loaded.value.snapshotId != entries[0].snapshotId {
        var rebuilt;
        rebuilt, rescan := RecoverIndex();
        ApplyAllAppend(cfg, before, reading, RecoverPlan(cfg, ApplyAll(cfg, before, reading), rescan).actions);
      }
    }

    method FindLoadable(entries: seq<Metadata>) returns (loaded: Option<Snapshot>)
      ensures loaded == FirstLoadable(cfg, Contents(), entries)
    {
      loaded := None;
      var i := 0;
      while i < |entries| && loaded.None?
        invariant i <= |entries|
        invariant loaded.None? ==> FirstLoadable(cfg, Contents(), entries) == FirstLoadable(cfg, Contents(), entries[i..])
        invariant loaded.Some? ==> loaded == FirstLoadable(cfg, Contents(), entries)
      {
        loaded := Load(cfg, Contents(), entries[i].snapshotId);
        i := i + 1;
      }
    }

    /** `listMetadata` */
    method ListMetadata() returns (entries: seq<Metadata>, ghost scan: seq<string>)
      modifies this
      ensures IsScan(old(Contents()), scan)
      ensures var plan := ListPlan(cfg, old(Contents()), scan);
        && entries == plan.result
        && Contents() == ApplyAll(cfg, old(Contents()), plan.actions)
        && steps == old(steps) + plan.actions
    {
      if created {
        entries, scan := ReadOrRecoverIndex();
      } else {
        ghost var unused := ScanFiles();
        assert steps == steps + [];
        entries, scan := [], unused;
      }
    }

    /** `load`; an identifier that is no UUID is an exception in the source. */
    method LoadById(id: string) returns (r: LoadResult, ghost scan: seq<string>)
      modifies this
      ensures IsScan(old(Contents()), scan)
      ensures !IsUuid(id) ==> r.InvalidIdentifier? && Contents() == old(Contents()) && steps == old(steps)
      ensures var plan := LoadPlan(cfg, old(Contents()), id, scan);
        IsUuid(id) ==>
          && r == Loaded(plan.result)
          && Contents() == ApplyAll(cfg, old(Contents()), plan.actions)
          && steps == old(steps) + plan.actions
    {
      ghost var unused := ScanFiles();
      scan := unused;
      assert steps == steps + [];
      if !IsUuid(id) {
        return InvalidIdentifier, scan;
      }
      if !created {
        return Loaded(None), scan;
      }
      var loaded := Load(cfg, Contents(), id);
      if loaded.None? && id in files {
        var entries;
        entries, scan := RecoverIndex();
      }
      r := Loaded(loaded);
    }
  }
}

/**
  Deduplication over whole runs: the history is the newest part of the saved snapshots after each
  block of consecutive equal fingerprints is collapsed to its first member.
 */
module StoreDedup {
  import opened Ordering
  import opened Collections
  import opened Snapshots
  import opened SnapshotStore
  import opened History
  import opened StoreRecovery
  import opened StoreCrash
  import opened StoreRuns

  /** The first snapshot of every block of consecutive equal fingerprints. */
  function BlockStarts(inputs: seq<Snapshot>): seq<Snapshot> {
    if inputs == [] then []
    else
      var n := |inputs| - 1;
      if n > 0 && inputs[n - 1].graphFingerprint == inputs[n].graphFingerprint then BlockStarts(inputs[..n])
      else BlockStarts(inputs[..n]) + [inputs[n]]
  }

  /** The last `limit` snapshots, newest first. */
  function NewestFirst(limit: nat, starts: seq<Snapshot>): (r: seq<Metadata>)
    ensures |r| == Min(limit, |starts|)
    ensures forall i :: 0 <= i < |r| ==> r[i] == ToMetadata(starts[|starts| - 1 - i])
  {
    seq(Min(limit, |starts|), i requires 0 <= i < |starts| => ToMetadata(starts[|starts| - 1 - i]))
  }

  ghost predicate Increasing(inputs: seq<Snapshot>) {
    forall i, j :: 0 <= i < j < |inputs| ==>
      MetadataOrder(ToMetadata(inputs[j]), ToMetadata(inputs[i])) && inputs[i].snapshotId != inputs[j].snapshotId
  }

  /** The history after saving `inputs` in turn, without interruption. */
  function SavedAll(cfg: Config, inputs: seq<Snapshot>): seq<Metadata> {
    if inputs == [] then []
    else SavedHistory(cfg, SavedAll(cfg, inputs[..|inputs| - 1]), inputs[|inputs| - 1])
  }

  lemma {:induction false} BlockStartsMembers(inputs: seq<Snapshot>)
    ensures forall s :: s in BlockStarts(inputs) ==> s in inputs
    ensures inputs != [] ==> BlockStarts(inputs) != []
    ensures inputs != [] ==>
      BlockStarts(inputs)[|BlockStarts(inputs)| - 1].graphFingerprint == inputs[|inputs| - 1].graphFingerprint
  {
    if inputs != [] {
      var front := inputs[..|inputs| - 1];
      assert inputs == front + [inputs[|inputs| - 1]];
      BlockStartsMembers(front);
    }
  }

  /** A newer entry goes to the front and pushes out at most the last one. */
  lemma RetainedPushes(cfg: Config, h: seq<Metadata>, s: Snapshot)
    requires ValidConfig(cfg) && Sorted(MetadataOrder, h) && UniqueBy(MetadataId, h)
    requires forall m :: m in h ==> MetadataOrder(ToMetadata(s), m) && m.snapshotId != s.snapshotId
    ensures Retained(cfg, h, s) == Take(cfg.retentionLimit, [ToMetadata(s)] + h)
  {
    hide MetadataOrder, SortBy;
    var m := ToMetadata(s);
    FilterNothing(Except(s.snapshotId), h);
    var pushed, appended := [m] + h, h + [m];
    assert UniqueBy(MetadataId, pushed);
    assert Sorted(MetadataOrder, pushed);
    SortedIsSorted(pushed);
    UniqueSeparates(pushed);
    MetadataOrderTotal();
    assert multiset(appended) == multiset(pushed);
    SortByCanonical(MetadataOrder, pushed, appended);
  }

  lemma NewestFirstHead(limit: nat, starts: seq<Snapshot>)
    requires limit >= 1
    ensures NewestFirst(limit, starts) == [] <==> starts == []
    ensures starts != [] ==> NewestFirst(limit, starts)[0] == ToMetadata(starts[|starts| - 1])
  {
  }

  lemma NewestFirstPush(limit: nat, starts: seq<Snapshot>, s: Snapshot)
    requires limit >= 1
    ensures NewestFirst(limit, starts + [s]) == Take(limit, [ToMetadata(s)] + NewestFirst(limit, starts))
  {
    var h := NewestFirst(limit, starts);
    var left, right := NewestFirst(limit, starts + [s]), Take(limit, [ToMetadata(s)] + h);
    forall i | 0 <= i < |left| ensures left[i] == right[i] {
      if i > 0 { assert right[i] == h[i - 1]; }
    }
  }

  lemma {:induction false} BlockStartsIncreasing(inputs: seq<Snapshot>)
    requires Increasing(inputs)
    ensures Increasing(BlockStarts(inputs))
  {
    if inputs != [] {
      var n := |inputs| - 1;
      BlockStartsIncreasing(inputs[..n]);
      BlockStartsMembers(inputs[..n]);
      var front := BlockStarts(inputs[..n]);
      forall i | 0 <= i < |front|
        ensures MetadataOrder(ToMetadata(inputs[n]), ToMetadata(front[i])) && front[i].snapshotId != inputs[n].snapshotId
      {
        assert front[i] in inputs[..n];
        var j :| 0 <= j < n && inputs[j] == front[i];
      }
    }
  }

  lemma NewestFirstSorted(limit: nat, starts: seq<Snapshot>)
    requires Increasing(starts)
    ensures Sorted(MetadataOrder, NewestFirst(limit, starts)) && UniqueBy(MetadataId, NewestFirst(limit, starts))
  {
  }

  lemma BelowAll(limit: nat, front: seq<Snapshot>, s: Snapshot, m: Metadata)
    requires Increasing(front + [s]) && m in NewestFirst(limit, BlockStarts(front))
    ensures MetadataOrder(ToMetadata(s), m) && m.snapshotId != s.snapshotId
  {
    hide MetadataOrder;
    BlockStartsMembers(front);
    var starts := BlockStarts(front);
    var h := NewestFirst(limit, starts);
    var i :| 0 <= i < |h| && h[i] == m;
    var start := starts[|starts| - 1 - i];
    assert start in front;
    var j :| 0 <= j < |front| && front[j] == start;
    var all := front + [s];
    assert all[j] == start && all[|front|] == s;
  }

  lemma SaveCollapses(cfg: Config, front: seq<Snapshot>, s: Snapshot)
    requires ValidConfig(cfg) && Increasing(front + [s]) && Acceptable(cfg, s)
    ensures SavedHistory(cfg, NewestFirst(cfg.retentionLimit, BlockStarts(front)), s) ==
      NewestFirst(cfg.retentionLimit, BlockStarts(front + [s]))
  {
    hide MetadataOrder, Validate, Retained, NewestFirst;
    var starts := BlockStarts(front);
    var h := NewestFirst(cfg.retentionLimit, starts);
    assert (front + [s])[..|front|] == front;
    BlockStartsMembers(front);
    NewestFirstHead(cfg.retentionLimit, starts);
    assert h != [] ==> h[0] == ToMetadata(starts[|starts| - 1]);
    assert front == [] <==> h == [];
    if !Repeats(h, s) {
      forall i, j | 0 <= i < j < |front|
        ensures MetadataOrder(ToMetadata(front[j]), ToMetadata(front[i])) && front[i].snapshotId != front[j].snapshotId
      {
        assert (front + [s])[i] == front[i] && (front + [s])[j] == front[j];
      }
      BlockStartsIncreasing(front);
      NewestFirstSorted(cfg.retentionLimit, starts);
      forall m | m in h ensures MetadataOrder(ToMetadata(s), m) && m.snapshotId != s.snapshotId {
        BelowAll(cfg.retentionLimit, front, s, m);
      }
      RetainedPushes(cfg, h, s);
      NewestFirstPush(cfg.retentionLimit, starts, s);
    }
  }

  /**
    For every run of acceptable saves in increasing order, the history equals the newest
    `retentionLimit` block starts, newest first.
   */
  lemma {:induction false} SavesCollapse(cfg: Config, inputs: seq<Snapshot>)
    requires ValidConfig(cfg) && Increasing(inputs)
    requires forall s :: s in inputs ==> Acceptable(cfg, s)
    ensures SavedAll(cfg, inputs) == NewestFirst(cfg.retentionLimit, BlockStarts(inputs))
  {
    hide MetadataOrder, SavedHistory, Acceptable;
    if inputs != [] {
      var n := |inputs| - 1;
      var s, front := inputs[n], inputs[..n];
      assert inputs == front + [s];
      assert s in inputs;
      SavesCollapse(cfg, front);
      SaveCollapses(cfg, front, s);
    }
  }

  ghost predicate Alternates(s: seq<Snapshot>) {
    forall i, j :: 0 <= i < j < |s| && j == i + 1 ==> s[i].graphFingerprint != s[j].graphFingerprint
  }

  ghost predicate HistoryAlternates(h: seq<Metadata>) {
    forall i, j :: 0 <= i < j < |h| && j == i + 1 ==> h[i].graphFingerprint != h[j].graphFingerprint
  }

  lemma {:induction false} StartsAlternate(inputs: seq<Snapshot>)
    ensures Alternates(BlockStarts(inputs))
  {
    if inputs != [] {
      StartsAlternate(inputs[..|inputs| - 1]);
      BlockStartsMembers(inputs[..|inputs| - 1]);
    }
  }

  lemma NewestFirstAlternates(limit: nat, starts: seq<Snapshot>)
    requires Alternates(starts)
    ensures HistoryAlternates(NewestFirst(limit, starts))
  {
    var h := NewestFirst(limit, starts);
    forall i, j | 0 <= i < j < |h| && j == i + 1 ensures h[i].graphFingerprint != h[j].graphFingerprint {
      assert h[j] == ToMetadata(starts[|starts| - 1 - j]) && h[i] == ToMetadata(starts[|starts| - 1 - i]);
    }
  }

  /** Neighbours in the history never share a fingerprint. */
  lemma NeighboursDiffer(cfg: Config, inputs: seq<Snapshot>)
    requires ValidConfig(cfg) && Increasing(inputs)
    requires forall s :: s in inputs ==> Acceptable(cfg, s)
    ensures HistoryAlternates(SavedAll(cfg, inputs))
  {
    hide BlockStarts, Acceptable, Increasing, Alternates, HistoryAlternates;
    SavesCollapse(cfg, inputs);
    StartsAlternate(inputs);
    NewestFirstAlternates(cfg.retentionLimit, BlockStarts(inputs));
  }

  // ----- the same on the disk -----

  ghost function Issued(inputs: seq<Snapshot>): Ledger {
    if inputs == [] then map[] else Issued(inputs[..|inputs| - 1])[inputs[|inputs| - 1].snapshotId := inputs[|inputs| - 1]]
  }

  lemma {:induction false} IssuedIds(inputs: seq<Snapshot>, id: string)
    ensures id in Issued(inputs) ==> exists s :: s in inputs && s.snapshotId == id
  {
    if inputs != [] {
      var front := inputs[..|inputs| - 1];
      assert inputs == front + [inputs[|inputs| - 1]];
      IssuedIds(front, id);
      if id in Issued(front) {
        var s :| s in front && s.snapshotId == id;
        assert s in inputs;
      } else if id in Issued(inputs) {
        assert inputs[|inputs| - 1] in inputs;
      }
    }
  }

  /** The directory after one uninterrupted save per input; `scans` are what its reads inspect. */
  function SavedDisk(cfg: Config, inputs: seq<Snapshot>, scans: seq<seq<string>>): Disk
    requires |scans| == |inputs|
  {
    if inputs == [] then EmptyDisk
    else
      var n := |inputs| - 1;
      var d := SavedDisk(cfg, inputs[..n], scans[..n]);
      ApplyAll(cfg, d, SavePlan(cfg, d, inputs[n], scans[n]).actions)
  }

  ghost predicate ScansFit(cfg: Config, inputs: seq<Snapshot>, scans: seq<seq<string>>)
    requires |scans| == |inputs|
  {
    forall i :: 0 <= i < |inputs| ==> IsScan(SavedDisk(cfg, inputs[..i], scans[..i]), scans[i])
  }

  lemma ScansFitFront(cfg: Config, inputs: seq<Snapshot>, scans: seq<seq<string>>)
    requires |scans| == |inputs| && inputs != [] && ScansFit(cfg, inputs, scans)
    ensures var n := |inputs| - 1;
      ScansFit(cfg, inputs[..n], scans[..n]) && IsScan(SavedDisk(cfg, inputs[..n], scans[..n]), scans[n])
  {
    hide SavedDisk, IsScan;
    var n := |inputs| - 1;
    forall i | 0 <= i < n ensures IsScan(SavedDisk(cfg, inputs[..n][..i], scans[..n][..i]), scans[..n][i]) {
      assert inputs[..n][..i] == inputs[..i] && scans[..n][..i] == scans[..i];
    }
  }

  lemma {:induction false} SavesOnDisk(cfg: Config, inputs: seq<Snapshot>, scans: seq<seq<string>>)
    requires ValidConfig(cfg) && |scans| == |inputs| && ScansFit(cfg, inputs, scans)
    requires forall i, j :: 0 <= i < j < |inputs| ==> inputs[i].snapshotId != inputs[j].snapshotId
    requires forall s :: s in inputs ==> s.serverId == cfg.serverId
    ensures Good(cfg, SavedDisk(cfg, inputs, scans), Issued(inputs), SavedAll(cfg, inputs))
  {
    hide Good, SavePlan, ApplyAll, Retained, Acceptable, ScansFit, IsScan;
    if inputs == [] {
      EmptyIsGood(cfg);
    } else {
      var n := |inputs| - 1;
      var s, front := inputs[n], inputs[..n];
      assert inputs == front + [s];
      ScansFitFront(cfg, inputs, scans);
      SavesOnDisk(cfg, front, scans[..n]);
      IssuedIds(front, s.snapshotId);
      var d := SavedDisk(cfg, front, scans[..n]);
      var actions := SavePlan(cfg, d, s, scans[n]).actions;
      assert actions[..|actions|] == actions;
      SaveIsAtomic(cfg, d, Issued(front), SavedAll(cfg, front), s, scans[n], |actions|);
    }
  }

  function AcceptableTo(cfg: Config): Snapshot -> bool { (s: Snapshot) => Acceptable(cfg, s) }

  lemma {:induction false} RejectedSavesChangeNothing(cfg: Config, inputs: seq<Snapshot>)
    ensures SavedAll(cfg, inputs) == SavedAll(cfg, Filter(AcceptableTo(cfg), inputs))
  {
    hide Acceptable, Retained;
    if inputs != [] {
      var front, s := inputs[..|inputs| - 1], inputs[|inputs| - 1];
      RejectedSavesChangeNothing(cfg, front);
      var kept := Filter(AcceptableTo(cfg), front);
      assert (kept + [s])[..|kept|] == kept;
      assert kept + [] == kept;
    }
  }

  lemma {:induction false} FilterIncreasing(p: Snapshot -> bool, inputs: seq<Snapshot>)
    requires Increasing(inputs)
    ensures Increasing(Filter(p, inputs))
  {
    if inputs != [] {
      var n := |inputs| - 1;
      FilterIncreasing(p, inputs[..n]);
      FilterElements(p, inputs[..n]);
      var front := Filter(p, inputs[..n]);
      forall i | 0 <= i < |front|
        ensures MetadataOrder(ToMetadata(inputs[n]), ToMetadata(front[i])) && front[i].snapshotId != inputs[n].snapshotId
      {
        assert front[i] in inputs[..n];
        var j :| 0 <= j < n && inputs[j] == front[i];
      }
    }
  }

  /**
    For every run of saves of this server in increasing order, `listMetadata` then returns the newest
    `retentionLimit` block starts of the acceptable inputs, newest first; rejected inputs leave no trace.
   */
  lemma RunOfSavesCollapses(cfg: Config, inputs: seq<Snapshot>, scans: seq<seq<string>>, scan: seq<string>)
    requires ValidConfig(cfg) && |scans| == |inputs| && ScansFit(cfg, inputs, scans) && Increasing(inputs)
    requires forall s :: s in inputs ==> s.serverId == cfg.serverId
    requires IsScan(SavedDisk(cfg, inputs, scans), scan)
    ensures ListPlan(cfg, SavedDisk(cfg, inputs, scans), scan).result ==
      NewestFirst(cfg.retentionLimit, BlockStarts(Filter(AcceptableTo(cfg), inputs)))
  {
    hide Good, ListPlan, Acceptable;
    SavesOnDisk(cfg, inputs, scans);
    GoodHistory(cfg, SavedDisk(cfg, inputs, scans), Issued(inputs), SavedAll(cfg, inputs), scan);
    RejectedSavesChangeNothing(cfg, inputs);
    FilterIncreasing(AcceptableTo(cfg), inputs);
    FilterElements(AcceptableTo(cfg), inputs);
    SavesCollapse(cfg, Filter(AcceptableTo(cfg), inputs));
  }
}

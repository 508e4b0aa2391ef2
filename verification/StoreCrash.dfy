/**
  Crash safety of the snapshot directory: after any prefix of any operation's disk actions the
  history is still well defined, and saving takes effect exactly when the snapshot file is renamed
  into place.
 */
module StoreCrash {
  import opened Ordering
  import opened Collections
  import opened Snapshots
  import opened SnapshotStore
  import opened History
  import opened StoreRecovery

  /** A directory whose files are all readable and whose history is `h`. */
  ghost predicate Good(cfg: Config, d: Disk, ledger: Ledger, h: seq<Metadata>) {
    && Agrees(cfg, d, ledger)
    && Intact(cfg, d)
    && |d.files| <= cfg.retentionLimit + 1
    && IsNewest(h, cfg.retentionLimit, ReadableMetadata(cfg, d))
  }

  /** The next read of a good directory returns its history, whatever the state of the index. */
  lemma GoodHistory(cfg: Config, d: Disk, ledger: Ledger, h: seq<Metadata>, scan: seq<string>)
    requires ValidConfig(cfg) && Good(cfg, d, ledger, h) && IsScan(d, scan)
    ensures ListPlan(cfg, d, scan).result == h
  {
    HistoryExact(cfg, d, ledger, scan);
    ReadableIdsUnique(cfg, d, scan);
    NewestUnique(h, ListPlan(cfg, d, scan).result, cfg.retentionLimit, ReadableMetadata(cfg, d));
  }

  ghost predicate Lists(h: seq<Metadata>, id: string) {
    exists m :: m in h && m.snapshotId == id
  }

  /** The identifiers a list of entries names. */
  ghost function Ids(s: seq<Metadata>): set<string> {
    if s == [] then {} else Ids(s[..|s| - 1]) + {s[|s| - 1].snapshotId}
  }

  lemma {:induction false} IdsMember(s: seq<Metadata>, id: string)
    ensures id in Ids(s) <==> Lists(s, id)
    ensures |Ids(s)| <= |s|
  {
    if s != [] {
      var front, last := s[..|s| - 1], s[|s| - 1];
      assert s == front + [last];
      IdsMember(front, id);
      if Lists(front, id) {
        var m :| m in front && m.snapshotId == id;
        assert m in s;
      }
      assert last in s;
    }
  }

  lemma SameIndex(cfg: Config, d: Disk, next: Disk)
    requires next.index == d.index
    ensures ReadIndex(cfg, next) == ReadIndex(cfg, d)
  {
  }

  lemma HistoryMember(cfg: Config, d: Disk, ledger: Ledger, h: seq<Metadata>, m: Metadata)
    requires Good(cfg, d, ledger, h) && m in h
    ensures m.snapshotId in d.files && m.snapshotId in ledger && ToMetadata(ledger[m.snapshotId]) == m
    ensures ValidMetadata(m)
  {
    ReadableMember(cfg, d, m);
    assert Load(cfg, d, m.snapshotId).value == ledger[m.snapshotId];
  }

  // ----- one action at a time -----

  lemma DeleteKeepsGood(cfg: Config, d: Disk, ledger: Ledger, h: seq<Metadata>, id: string)
    requires Good(cfg, d, ledger, h) && !Lists(h, id)
    ensures Good(cfg, Apply(cfg, d, DeleteSnapshot(id)), ledger, h)
  {
    hide LoadFile, ReadIndex, EntriesAgree, ReadableMetadata, IsNewest;
    var next := Apply(cfg, d, DeleteSnapshot(id));
    var all, fewer := ReadableMetadata(cfg, d), ReadableMetadata(cfg, next);
    forall m ensures m in fewer <==> m in all && m.snapshotId != id {
      ReadableMember(cfg, d, m);
      ReadableMember(cfg, next, m);
    }
    NewestMembers(h, cfg.retentionLimit, all);
    NewestShrink(h, cfg.retentionLimit, all, fewer);
    SubsetSize(next.files.Keys, d.files.Keys);
    SameIndex(cfg, d, next);
  }

  lemma NewestMembers(h: seq<Metadata>, limit: nat, all: set<Metadata>)
    requires IsNewest(h, limit, all)
    ensures Distinct(h) && |h| <= limit && forall m :: m in h ==> m in all
  {
  }

  lemma {:induction false} ReadBackEntries(entries: seq<Metadata>)
    ensures var back := FilterMap(ValidEntry, Map(Present, entries));
      |back| <= |entries| && forall m :: m in back ==> m in entries
    ensures (forall m :: m in entries ==> ValidMetadata(m)) ==> FilterMap(ValidEntry, Map(Present, entries)) == entries
  {
    if entries != [] {
      hide ValidMetadata;
      var n := |entries| - 1;
      ReadBackEntries(entries[..n]);
      var mapped := Map(Present, entries);
      assert mapped[..n] == Map(Present, entries[..n]);
      assert mapped[n] == Some(entries[n]);
      assert entries == entries[..n] + [entries[n]];
    }
  }

  lemma IndexReadsBack(cfg: Config, d: Disk, entries: seq<Metadata>)
    requires |entries| <= MAX_SNAPSHOTS_INDEXED
    ensures var back := ReadIndex(cfg, Apply(cfg, d, PutIndex(entries)));
      back.Some? && |back.value| <= |entries| && forall m :: m in back.value ==> m in entries
  {
    var sorted := SortBy(MetadataOrder, entries);
    SortByElements(MetadataOrder, entries);
    ReadBackEntries(sorted);
    hide SortBy, FilterMap, Map;
    assert |Map(Present, sorted)| == |entries|;
  }

  /** Writing an index that agrees with the ledger keeps agreement. */
  lemma IndexKeepsAgrees(cfg: Config, d: Disk, ledger: Ledger, entries: seq<Metadata>)
    requires ValidConfig(cfg) && Agrees(cfg, d, ledger) && EntriesAgree(entries, cfg.retentionLimit, ledger)
    ensures Agrees(cfg, Apply(cfg, d, PutIndex(entries)), ledger)
  {
    hide LoadFile, ReadIndex;
    var next := Apply(cfg, d, PutIndex(entries));
    assert next.files == d.files;
    assert FilesAgree(cfg, next, ledger);
    IndexReadsBack(cfg, d, entries);
  }

  lemma IndexKeepsGood(cfg: Config, d: Disk, ledger: Ledger, h: seq<Metadata>, entries: seq<Metadata>)
    requires ValidConfig(cfg) && Good(cfg, d, ledger, h) && EntriesAgree(entries, cfg.retentionLimit, ledger)
    ensures Good(cfg, Apply(cfg, d, PutIndex(entries)), ledger, h)
  {
    IndexKeepsAgrees(cfg, d, ledger, entries);
    SameReadable(cfg, d, Apply(cfg, d, PutIndex(entries)));
  }

  lemma SameReadable(cfg: Config, d: Disk, next: Disk)
    requires next.files == d.files
    ensures Intact(cfg, next) == Intact(cfg, d) && ReadableMetadata(cfg, next) == ReadableMetadata(cfg, d)
  {
    assert forall i :: Load(cfg, next, i) == Load(cfg, d, i);
    assert ReadableMetadata(cfg, next) == ReadableMetadata(cfg, d);
  }

  lemma MakeKeepsGood(cfg: Config, d: Disk, ledger: Ledger, h: seq<Metadata>)
    requires Good(cfg, d, ledger, h)
    ensures Good(cfg, Apply(cfg, d, MakeDirectory), ledger, h)
  {
    var next := Apply(cfg, d, MakeDirectory);
    SameReadable(cfg, d, next);
    assert forall i :: Load(cfg, next, i) == Load(cfg, d, i);
    assert ReadIndex(cfg, next) == ReadIndex(cfg, d);
  }

  /** A snapshot this repository accepts under a fresh identifier. */
  ghost predicate Storable(cfg: Config, ledger: Ledger, s: Snapshot) {
    s.serverId == cfg.serverId && Validate(s) && cfg.encodedSize(s) <= cfg.maxSnapshotBytes && s.snapshotId !in ledger
  }

  lemma PutKeepsAgrees(cfg: Config, d: Disk, ledger: Ledger, s: Snapshot)
    requires Agrees(cfg, d, ledger) && d.created && s.serverId == cfg.serverId && s.snapshotId !in ledger
    ensures Agrees(cfg, Apply(cfg, d, PutSnapshot(s)), ledger[s.snapshotId := s])
  {
    var next := Apply(cfg, d, PutSnapshot(s));
    assert forall i :: i in d.files && i != s.snapshotId ==> Load(cfg, next, i) == Load(cfg, d, i);
    assert ReadIndex(cfg, next) == ReadIndex(cfg, d);
  }

  lemma PutReadable(cfg: Config, d: Disk, ledger: Ledger, s: Snapshot)
    requires Agrees(cfg, d, ledger) && Intact(cfg, d) && Storable(cfg, ledger, s)
    ensures ReadableMetadata(cfg, Apply(cfg, d, PutSnapshot(s))) == ReadableMetadata(cfg, d) + {ToMetadata(s)}
    ensures ToMetadata(s) !in ReadableMetadata(cfg, d)
    ensures Intact(cfg, Apply(cfg, d, PutSnapshot(s)))
  {
    hide Validate, IsUuid;
    var next := Apply(cfg, d, PutSnapshot(s));
    var all, more := ReadableMetadata(cfg, d), ReadableMetadata(cfg, next);
    assert s.snapshotId !in d.files;
    assert Load(cfg, next, s.snapshotId) == Some(s);
    assert forall i :: i in d.files ==> Load(cfg, next, i) == Load(cfg, d, i);
    forall m ensures m in more <==> m in all || m == ToMetadata(s) {
      ReadableMember(cfg, d, m);
      ReadableMember(cfg, next, m);
    }
    ReadableMember(cfg, d, ToMetadata(s));
  }

  /** What `save` retains is the newest part of the history with the new entry. */
  lemma RetainedNewest(cfg: Config, h: seq<Metadata>, s: Snapshot)
    requires Distinct(h) && forall x :: x in h ==> x.snapshotId != s.snapshotId
    ensures IsNewest(Retained(cfg, h, s), cfg.retentionLimit, Elems(h) + {ToMetadata(s)})
  {
    var m := ToMetadata(s);
    FilterNothing(Except(s.snapshotId), h);
    var all := h + [m];
    assert Distinct(all);
    SortTakeNewest(cfg.retentionLimit, all);
    assert Elems(all) == Elems(h) + {m};
  }

  lemma CountOneMore(files: map<string, StoredFile>, id: string, file: StoredFile)
    ensures |files[id := file]| <= |files| + 1
  {
    assert files[id := file].Keys == files.Keys + {id};
  }

  /** Renaming the snapshot file into place moves the history in one step. */
  lemma PutCommits(cfg: Config, d: Disk, ledger: Ledger, h: seq<Metadata>, s: Snapshot)
    requires ValidConfig(cfg) && Good(cfg, d, ledger, h) && Storable(cfg, ledger, s)
    requires d.created && |d.files| <= cfg.retentionLimit
    ensures Good(cfg, Apply(cfg, d, PutSnapshot(s)), ledger[s.snapshotId := s], Retained(cfg, h, s))
  {
    forall x | x in h ensures x.snapshotId != s.snapshotId { HistoryMember(cfg, d, ledger, h, x); }
    RetainedNewest(cfg, h, s);
    PutReadable(cfg, d, ledger, s);
    NewestAdd(h, Retained(cfg, h, s), cfg.retentionLimit, ReadableMetadata(cfg, d), ToMetadata(s));
    PutKeepsAgrees(cfg, d, ledger, s);
    CountOneMore(d.files, s.snapshotId, StoredFile(Some(s), cfg.encodedSize(s)));
  }

  lemma IssueKeepsGood(cfg: Config, d: Disk, ledger: Ledger, h: seq<Metadata>, s: Snapshot)
    requires Good(cfg, d, ledger, h) && s.snapshotId !in ledger
    ensures Good(cfg, d, ledger[s.snapshotId := s], h)
  {
    hide LoadFile, ReadIndex, ReadableMetadata, IsNewest;
  }

  // ----- prefixes of whole plans -----

  lemma ApplyPrefixStep(cfg: Config, d: Disk, actions: seq<Action>, k: nat)
    requires k < |actions|
    ensures ApplyAll(cfg, d, actions[..k + 1]) == Apply(cfg, ApplyAll(cfg, d, actions[..k]), actions[k])
  {
    assert actions[..k + 1][..k] == actions[..k];
  }

  lemma ApplyPrefixAppend(cfg: Config, d: Disk, a: seq<Action>, b: seq<Action>, k: nat)
    requires k <= |a| + |b|
    ensures k <= |a| ==> (a + b)[..k] == a[..k]
    ensures k > |a| ==> (a + b)[..k] == a + b[..k - |a|]
    ensures k > |a| ==> ApplyAll(cfg, d, (a + b)[..k]) == ApplyAll(cfg, ApplyAll(cfg, d, a), b[..k - |a|])
  {
    if k > |a| {
      assert (a + b)[..k] == a + b[..k - |a|];
      ApplyAllAppend(cfg, d, a, b[..k - |a|]);
    }
  }

  lemma {:induction false} DeletesKeepGood(cfg: Config, d: Disk, ledger: Ledger, h: seq<Metadata>, gone: seq<Metadata>, k: nat)
    requires Good(cfg, d, ledger, h) && k <= |gone|
    requires forall m :: m in gone ==> !Lists(h, m.snapshotId)
    ensures Good(cfg, ApplyAll(cfg, d, Map(DeleteOf, gone)[..k]), ledger, h)
  {
    var actions := Map(DeleteOf, gone);
    if k == 0 {
      assert actions[..0] == [];
    } else {
      var m := gone[k - 1];
      assert m in gone && actions[k - 1] == DeleteSnapshot(m.snapshotId);
      DeletesKeepGood(cfg, d, ledger, h, gone, k - 1);
      ApplyPrefixStep(cfg, d, actions, k - 1);
      DeleteKeepsGood(cfg, ApplyAll(cfg, d, actions[..k - 1]), ledger, h, m.snapshotId);
    }
  }

  lemma {:induction false} DeletesRemove(cfg: Config, d: Disk, gone: seq<Metadata>, k: nat)
    requires k <= |gone|
    ensures var after := ApplyAll(cfg, d, Map(DeleteOf, gone)[..k]);
      after.created == d.created && after.index == d.index && after.files == d.files - Ids(gone[..k])
  {
    var actions := Map(DeleteOf, gone);
    if k == 0 {
      assert actions[..0] == [];
    } else {
      DeletesRemove(cfg, d, gone, k - 1);
      ApplyPrefixStep(cfg, d, actions, k - 1);
      assert gone[..k][..k - 1] == gone[..k - 1];
    }
  }

  lemma WholeTidy(cfg: Config, d: Disk, gone: seq<Metadata>, entries: seq<Metadata>)
    ensures var done := ApplyAll(cfg, d, Map(DeleteOf, gone));
      var after := ApplyAll(cfg, d, Tidy(gone, entries));
      && after == Apply(cfg, done, PutIndex(entries))
      && after.created == d.created && after.files == d.files - Ids(gone)
  {
    var deletes, write := Map(DeleteOf, gone), PutIndex(entries);
    assert (deletes + [write])[..|deletes|] == deletes;
    assert gone[..|gone|] == gone && deletes[..|gone|] == deletes;
    DeletesRemove(cfg, d, gone, |gone|);
    hide Map, Ids, SortBy;
  }

  /** The disk after some deletions, and after the index write that follows all of them. */
  lemma TidyPrefix(cfg: Config, d: Disk, gone: seq<Metadata>, entries: seq<Metadata>, k: nat)
    requires k <= |gone| + 1
    ensures var after := ApplyAll(cfg, d, Tidy(gone, entries)[..k]);
      && after.created == d.created
      && (k <= |gone| ==> after == ApplyAll(cfg, d, Map(DeleteOf, gone)[..k]))
      && (k > |gone| ==> after == Apply(cfg, ApplyAll(cfg, d, Map(DeleteOf, gone)), PutIndex(entries)))
      && (k > |gone| ==> after.files == d.files - Ids(gone))
  {
    hide ApplyAll, Apply, Ids, Map;
    var deletes, tidy := Map(DeleteOf, gone), Tidy(gone, entries);
    if k <= |gone| {
      assert tidy[..k] == deletes[..k];
      DeletesRemove(cfg, d, gone, k);
    } else {
      assert tidy[..k] == tidy;
      WholeTidy(cfg, d, gone, entries);
    }
  }

  /** Deletions followed by an index write: every prefix keeps the history. */
  lemma TidyKeepsGood(cfg: Config, d: Disk, ledger: Ledger, h: seq<Metadata>, gone: seq<Metadata>, k: nat)
    requires ValidConfig(cfg) && Good(cfg, d, ledger, h) && k <= |gone| + 1
    requires forall m :: m in gone ==> !Lists(h, m.snapshotId)
    ensures Good(cfg, ApplyAll(cfg, d, Tidy(gone, h)[..k]), ledger, h)
  {
    TidyPrefix(cfg, d, gone, h, k);
    DeletesKeepGood(cfg, d, ledger, h, gone, Min(k, |gone|));
    if k > |gone| {
      var deletes := Map(DeleteOf, gone);
      assert deletes[..|gone|] == deletes;
      HistoryAgrees(cfg, d, ledger, h);
      IndexKeepsGood(cfg, ApplyAll(cfg, d, deletes), ledger, h, h);
    }
  }

  lemma HistoryAgrees(cfg: Config, d: Disk, ledger: Ledger, h: seq<Metadata>)
    requires Good(cfg, d, ledger, h)
    ensures EntriesAgree(h, cfg.retentionLimit, ledger)
  {
    NewestMembers(h, cfg.retentionLimit, ReadableMetadata(cfg, d));
    hide Good;
    forall m | m in h ensures m.snapshotId in ledger && ToMetadata(ledger[m.snapshotId]) == m {
      HistoryMember(cfg, d, ledger, h, m);
    }
  }

  /** Recovery of a good directory in terms of its history. */
  lemma RecoverOnGood(cfg: Config, d: Disk, ledger: Ledger, h: seq<Metadata>, scan: seq<string>)
    requires ValidConfig(cfg) && Good(cfg, d, ledger, h) && IsScan(d, scan)
    ensures RecoverPlan(cfg, d, scan).result == h
    ensures RecoverPlan(cfg, d, scan).actions == Tidy(Surplus(cfg, d, h, scan), h)
    ensures forall m :: m in Surplus(cfg, d, h, scan) ==> !Lists(h, m.snapshotId)
  {
    hide Agrees, Intact, IsNewest, ReadableMetadata, ScannedMetadata;
    RecoverExact(cfg, d, scan);
    ReadableIdsUnique(cfg, d, scan);
    NewestUnique(h, RecoverPlan(cfg, d, scan).result, cfg.retentionLimit, ReadableMetadata(cfg, d));
    FilterElements(NotAmong(h), Valid(cfg, d, scan));
  }

  /** Recovery of a good directory deletes only what the history has already dropped. */
  lemma RecoverKeepsGood(cfg: Config, d: Disk, ledger: Ledger, h: seq<Metadata>, scan: seq<string>, k: nat)
    requires ValidConfig(cfg) && Good(cfg, d, ledger, h) && IsScan(d, scan)
    requires k <= |RecoverPlan(cfg, d, scan).actions|
    ensures RecoverPlan(cfg, d, scan).result == h
    ensures var actions := RecoverPlan(cfg, d, scan).actions;
      var after := ApplyAll(cfg, d, actions[..k]);
      Good(cfg, after, ledger, h) && after.created == d.created
      && (k == |actions| ==> |after.files| <= cfg.retentionLimit)
  {
    hide Good, RecoverPlan, Surplus, ApplyAll;
    RecoverOnGood(cfg, d, ledger, h, scan);
    var gone := Surplus(cfg, d, h, scan);
    TidyKeepsGood(cfg, d, ledger, h, gone, k);
    TidyPrefix(cfg, d, gone, h, k);
    if k == |gone| + 1 {
      RemainingListed(cfg, d, ledger, h, scan, d.files.Keys - Ids(gone));
    }
  }

  lemma IntactFileValid(cfg: Config, d: Disk, ledger: Ledger, h: seq<Metadata>, scan: seq<string>, id: string)
    requires ValidConfig(cfg) && Good(cfg, d, ledger, h) && IsScan(d, scan) && id in d.files
    ensures exists m :: m in Valid(cfg, d, scan) && m.snapshotId == id
  {
    hide Agrees, IsNewest;
    var loaded := FilterMap(LoadMetadata(cfg, d), scan);
    LoadedMetadata(cfg, d, scan);
    RecoverExact(cfg, d, scan);
    SortByElements(MetadataOrder, loaded);
    var m := ToMetadata(Load(cfg, d, id).value);
    ReadableMember(cfg, d, m);
    assert m in Elems(loaded);
    assert m in Valid(cfg, d, scan);
  }

  /** After recovery only listed files remain. */
  lemma RemainingListed(cfg: Config, d: Disk, ledger: Ledger, h: seq<Metadata>, scan: seq<string>, kept: set<string>)
    requires ValidConfig(cfg) && Good(cfg, d, ledger, h) && IsScan(d, scan)
    requires kept == d.files.Keys - Ids(Surplus(cfg, d, h, scan))
    ensures |kept| <= cfg.retentionLimit
  {
    NewestMembers(h, cfg.retentionLimit, ReadableMetadata(cfg, d));
    hide Good, Valid;
    var gone := Surplus(cfg, d, h, scan);
    FilterElements(NotAmong(h), Valid(cfg, d, scan));
    forall id | id in kept ensures id in Ids(h) {
      IntactFileValid(cfg, d, ledger, h, scan, id);
      var m :| m in Valid(cfg, d, scan) && m.snapshotId == id;
      IdsMember(gone, id);
      assert m !in gone;
      IdsMember(h, id);
    }
    SubsetSize(kept, Ids(h));
    IdsMember(h, "");
  }

  /** Reading keeps the history after every step and leaves room for one more file. */
  lemma ReadKeepsGood(cfg: Config, d: Disk, ledger: Ledger, h: seq<Metadata>, scan: seq<string>, k: nat)
    requires ValidConfig(cfg) && Good(cfg, d, ledger, h) && IsScan(d, scan) && d.created
    requires k <= |ReadPlan(cfg, d, scan).actions|
    ensures ReadPlan(cfg, d, scan).result == h
    ensures var actions := ReadPlan(cfg, d, scan).actions;
      var after := ApplyAll(cfg, d, actions[..k]);
      Good(cfg, after, ledger, h) && after.created
      && (k == |actions| ==> |after.files| <= cfg.retentionLimit)
  {
    GoodHistory(cfg, d, ledger, h, scan);
    if IndexTrusted(cfg, d) {
      TrustedRead(cfg, d, ledger, scan);
    } else {
      RecoverKeepsGood(cfg, d, ledger, h, scan, k);
    }
  }
}

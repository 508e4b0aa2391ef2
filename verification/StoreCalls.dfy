/** A call that nothing disturbs performs exactly its plan, however finely it reads and writes. */
module StoreCalls {
  import opened Snapshots
  import opened SnapshotStore
  import opened StoreRuns
  import opened StoreMachine

  lemma OneMoreEvent(cfg: Config, m: Machine, e: Event, later: seq<Event>)
    requires CanHappen(cfg, m, e) && TraceHappens(cfg, Next(cfg, m, e), later)
    ensures TraceHappens(cfg, m, [e] + later) && TraceEnd(cfg, m, [e] + later) == TraceEnd(cfg, Next(cfg, m, e), later)
  {
    hide CanHappen, Next;
    assert ([e] + later)[1..] == later;
  }

  /** A call can perform all its planned actions, one by one. */
  lemma {:induction false} RunPending(cfg: Config, m: Machine, later: seq<Event>) returns (trace: seq<Event>)
    requires TraceHappens(cfg, m.(disk := ApplyAll(cfg, m.disk, m.pending), pending := []), later)
    ensures TraceHappens(cfg, m, trace)
    ensures TraceEnd(cfg, m, trace) == TraceEnd(cfg, m.(disk := ApplyAll(cfg, m.disk, m.pending), pending := []), later)
    decreases |m.pending|
  {
    if m.pending == [] {
      trace := later;
      assert m == m.(disk := ApplyAll(cfg, m.disk, m.pending), pending := []);
    } else {
      ApplyAllFirst(cfg, m.disk, m.pending);
      var next := Next(cfg, m, Step);
      var more := RunPending(cfg, next, later);
      trace := [Step] + more;
      OneMoreEvent(cfg, m, Step, more);
    }
  }

  function StagesLeft(rest: Rest): nat { if rest == Finished then 0 else if rest.Find? then 2 else 1 }

  /** The directory when everything that is left of a call has been done. */
  function Completed(cfg: Config, d: Disk, rest: Rest, scan: seq<string>): Disk
    decreases StagesLeft(rest)
  {
    if rest == Finished then d
    else Completed(cfg, ApplyAll(cfg, d, Resumed(cfg, d, rest, scan)), Remains(cfg, d, rest), scan)
  }

  lemma FoundPlansNothing(cfg: Config, d: Disk, rest: Rest, scan: seq<string>)
    requires Remains(cfg, d, rest) == Rebuild
    ensures rest.Find? && Resumed(cfg, d, rest, scan) == []
  {
    hide FirstLoadable;
  }

  lemma RunRest(cfg: Config, m: Machine, scan: seq<string>, later: seq<Event>) returns (trace: seq<Event>)
    requires m.pending == [] && (m.rest == Finished || m.rest.Decide? || IsScan(m.disk, scan))
    requires TraceHappens(cfg, m.(disk := Completed(cfg, m.disk, m.rest, scan), rest := Finished), later)
    ensures TraceHappens(cfg, m, trace)
    ensures TraceEnd(cfg, m, trace) == TraceEnd(cfg, m.(disk := Completed(cfg, m.disk, m.rest, scan), rest := Finished), later)
    decreases StagesLeft(m.rest)
  {
    hide TraceHappens, TraceEnd, Resumed, IsScan, FirstLoadable, ApplyAll;
    if m.rest == Finished {
      trace := later;
      assert m == m.(disk := Completed(cfg, m.disk, m.rest, scan), rest := Finished);
    } else {
      var resumed := Next(cfg, m, Resume(scan));
      var done := resumed.(disk := ApplyAll(cfg, m.disk, resumed.pending), pending := []);
      if done.rest == Rebuild {
        FoundPlansNothing(cfg, m.disk, m.rest, scan);
        NothingApplied(cfg, m.disk);
      }
      var more := RunRest(cfg, done, scan, later);
      var steps := RunPending(cfg, resumed, more);
      OneMoreEvent(cfg, m, Resume(scan), steps);
      trace := [Resume(scan)] + steps;
    }
  }

  function LastScan(call: Attempt): seq<string> { if call.LatestAttempt? then call.rescan else call.scan }

  lemma SaveCompleted(cfg: Config, d: Disk, s: Snapshot, scan: seq<string>)
    requires Validate(s)
    ensures var ready := ApplyAll(cfg, d, Opening(cfg, d, scan));
      Completed(cfg, ready, Decide(s, ReadPlan(cfg, Apply(cfg, d, MakeDirectory), scan).result), scan)
        == ApplyAll(cfg, d, SavePlan(cfg, d, s, scan).actions)
  {
    hide Validate, ReadPlan, ApplyAll, Newest, StoreActions, Apply;
    var current := ReadPlan(cfg, Apply(cfg, d, MakeDirectory), scan).result;
    var ready := ApplyAll(cfg, d, Opening(cfg, d, scan));
    ApplyAllAppend(cfg, d, Opening(cfg, d, scan), StoreActions(cfg, current, s));
    NothingApplied(cfg, ready);
    assert Completed(cfg, ready, Decide(s, current), scan) == ApplyAll(cfg, ready, Resumed(cfg, ready, Decide(s, current), scan));
  }

  lemma LatestCompleted(cfg: Config, d: Disk, scan: seq<string>, rescan: seq<string>)
    requires d.created
    ensures Completed(cfg, ApplyAll(cfg, d, ReadPlan(cfg, d, scan).actions), Find(ReadPlan(cfg, d, scan).result), rescan)
      == ApplyAll(cfg, d, LatestPlan(cfg, d, scan, rescan).actions)
  {
    hide ReadPlan, ApplyAll, RecoverPlan;
    var read := ReadPlan(cfg, d, scan);
    var after := ApplyAll(cfg, d, read.actions);
    FirstOfNothing(cfg, after);
    hide FirstLoadable;
    NothingApplied(cfg, after);
    ApplyAllAppend(cfg, d, read.actions, [PutIndex([])]);
    ApplyAllAppend(cfg, d, read.actions, RecoverPlan(cfg, after, rescan).actions);
    if Remains(cfg, after, Find(read.result)) == Rebuild {
      assert Completed(cfg, after, Rebuild, rescan) == ApplyAll(cfg, after, RecoverPlan(cfg, after, rescan).actions);
    }
  }

  lemma FirstOfNothing(cfg: Config, d: Disk)
    ensures FirstLoadable(cfg, d, []).None?
  {
  }

  lemma LoadCompleted(cfg: Config, d: Disk, id: string, scan: seq<string>)
    ensures Completed(cfg, d, Awaits(cfg, d, LoadAttempt(id, scan, 0)), scan) == ApplyAll(cfg, d, LoadPlan(cfg, d, id, scan).actions)
  {
    hide ApplyAll, Load, RecoverPlan;
    NothingApplied(cfg, d);
    assert Completed(cfg, d, Rebuild, scan) == ApplyAll(cfg, d, RecoverPlan(cfg, d, scan).actions);
  }

  lemma CallCompleted(cfg: Config, d: Disk, call: Attempt)
    ensures Completed(cfg, ApplyAll(cfg, d, Opened(cfg, d, call)), Awaits(cfg, d, call), LastScan(call))
      == ApplyAll(cfg, d, Planned(cfg, d, call))
  {
    hide ApplyAll, ReadPlan, Load, Validate, RecoverPlan, FirstLoadable;
    NothingApplied(cfg, d);
    match call {
      case SaveAttempt(s, scan, _) => if Validate(s) { SaveCompleted(cfg, d, s, scan); }
      case ListAttempt(_, _) =>
      case LatestAttempt(scan, rescan, _) => if d.created { LatestCompleted(cfg, d, scan, rescan); }
      case LoadAttempt(id, scan, _) => LoadCompleted(cfg, d, id, scan);
    }
  }

  /** Left alone, a call that reads in stages and acts step by step does to the directory what its plan says. */
  lemma UndisturbedCall(cfg: Config, m: Machine, call: Attempt, later: seq<Event>) returns (trace: seq<Event>)
    requires m.pending == [] && m.rest == Finished && Enabled(cfg, m.disk, m.ledger, call)
    requires call.LatestAttempt? ==> IsScan(ApplyAll(cfg, m.disk, ListPlan(cfg, m.disk, call.scan).actions), call.rescan)
    requires TraceHappens(cfg, m.(disk := ApplyAll(cfg, m.disk, Planned(cfg, m.disk, call)), ledger := Issue(m.ledger, call)), later)
    ensures TraceHappens(cfg, m, trace)
    ensures TraceEnd(cfg, m, trace) ==
      TraceEnd(cfg, m.(disk := ApplyAll(cfg, m.disk, Planned(cfg, m.disk, call)), ledger := Issue(m.ledger, call)), later)
  {
    hide TraceHappens, TraceEnd, IsScan, ApplyAll, Planned, ReadPlan, Load, Validate, Opening;
    var begun := Next(cfg, m, Begin(call));
    var ready := begun.(disk := ApplyAll(cfg, m.disk, begun.pending), pending := []);
    CallCompleted(cfg, m.disk, call);
    NothingApplied(cfg, m.disk);
    var more := RunRest(cfg, ready, LastScan(call), later);
    var steps := RunPending(cfg, begun, more);
    OneMoreEvent(cfg, m, Begin(call), steps);
    trace := [Begin(call)] + steps;
  }
}

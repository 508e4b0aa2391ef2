/** Which systemd service owns a host listener. */
module HostListeners {
  import opened Ordering
  import opened Collections
  import opened SystemdDiscovery

  const CONTAINER_RUNTIME_UNITS := {"docker.service", "containerd.service"}

  datatype ParsedListener = ParsedListener(
    protocol: string, localAddress: string, port: nat, wildcard: bool, loopback: bool, processNames: seq<string>, pids: seq<nat>)

  datatype Ownership = SYSTEMD_SERVICE | UNRESOLVED | AMBIGUOUS

  datatype ListenerReport = ListenerReport(listener: ParsedListener, ownership: Ownership, systemdUnit: Option<string>, processName: Option<string>)

  // ----- control groups -----

  predicate StartsWith(s: string, prefix: string) { |prefix| <= |s| && s[..|prefix|] == prefix }

  /** A control group holds a path when it is the path or an ancestor of it. */
  predicate Holds(group: string, path: string) { path == group || StartsWith(path, group + "/") }

  function GroupHolds(path: string): Unit -> bool { (u: Unit) => u.controlGroup.Some? && Holds(u.controlGroup.value, path) }

  function GroupLength(u: Unit): nat { if u.controlGroup.Some? then |u.controlGroup.value| else 0 }

  /** `max(key=len)`: the first longest match. */
  function Longest(matches: seq<Unit>): Option<Unit> {
    if matches == [] then None
    else
      var best, last := Longest(matches[..|matches| - 1]), matches[|matches| - 1];
      if best.Some? && GroupLength(best.value) >= GroupLength(last) then best else Some(last)
  }

  /** `systemd_service_for_cgroup` */
  function ServiceFor(path: Option<string>, services: seq<Unit>): Option<Unit> {
    if path.None? then None else Longest(Filter(GroupHolds(path.value), services))
  }

  lemma {:induction false} LongestIsLongest(matches: seq<Unit>)
    ensures matches != [] ==> Longest(matches).Some? && Longest(matches).value in matches
    ensures forall u :: u in matches ==> Longest(matches).Some? && GroupLength(u) <= GroupLength(Longest(matches).value)
  {
    if matches != [] {
      var front := matches[..|matches| - 1];
      assert matches == front + [matches[|matches| - 1]];
      LongestIsLongest(front);
    }
  }

  /** Of two groups holding the same path the longer lies in the shorter. */
  lemma HoldersNest(a: string, b: string, path: string)
    requires Holds(a, path) && Holds(b, path) && |a| <= |b|
    ensures Holds(a, b)
  {
    assert path[..|a|] == a && path[..|b|] == b;
    if |a| < |b| {
      assert path[..|a| + 1] == a + "/";
      assert b[..|a| + 1] == path[..|a| + 1];
    } else {
      assert a == b;
    }
  }

  /**
    The chosen service is the innermost one: its group holds the path, and every other matching group
    holds it; without a choice no group matches.
   */
  lemma ServiceIsInnermost(path: string, services: seq<Unit>)
    ensures var best := ServiceFor(Some(path), services);
      && (best.None? <==> forall u :: u in services ==> !GroupHolds(path)(u))
      && (best.Some? ==>
            && best.value in services && GroupHolds(path)(best.value)
            && forall u :: u in services && GroupHolds(path)(u) ==> Holds(u.controlGroup.value, best.value.controlGroup.value))
  {
    var matches := Filter(GroupHolds(path), services);
    var best := ServiceFor(Some(path), services);
    assert best == Longest(matches);
    LongestIsLongest(matches);
    hide Holds, Filter, Longest, ServiceFor;
    forall u ensures u in matches <==> u in services && GroupHolds(path)(u) { FilterMember(GroupHolds(path), services, u); }
    if best.Some? {
      forall u | u in services && GroupHolds(path)(u) ensures Holds(u.controlGroup.value, best.value.controlGroup.value) {
        assert u in matches;
        HoldersNest(u.controlGroup.value, best.value.controlGroup.value, path);
      }
    } else {
      assert forall u :: u in matches ==> false;
    }
  }

  // ----- ownership -----

  predicate IsRuntime(u: Unit) { u.unit in CONTAINER_RUNTIME_UNITS }

  /** The service a process counts for: its innermost one, unless that is a container runtime. */
  function OwnerOf(cgroups: nat -> Option<string>, services: seq<Unit>): nat -> Option<string> {
    (pid: nat) =>
      match ServiceFor(cgroups(pid), services)
      case None => None
      case Some(u) => if IsRuntime(u) then None else Some(u.unit)
  }

  function Owners(cgroups: nat -> Option<string>, services: seq<Unit>, pids: seq<nat>): set<string> {
    Elems(FilterMap(OwnerOf(cgroups, services), pids))
  }

  predicate Unowned(cgroups: nat -> Option<string>, services: seq<Unit>, pids: seq<nat>) {
    pids == [] || exists pid :: pid in pids && OwnerOf(cgroups, services)(pid).None?
  }

  /** `listener_json`; `cgroups` stands for reading a process's control group. */
  method ReportListener(l: ParsedListener, services: seq<Unit>, cgroups: nat -> Option<string>) returns (r: ListenerReport)
    ensures r.listener == l
    ensures r.processName == if |l.processNames| == 1 then Some(l.processNames[0]) else None
    ensures r.ownership == SYSTEMD_SERVICE <==> OwnedByOne(l, services, cgroups)
    ensures r.ownership == SYSTEMD_SERVICE <==> r.systemdUnit.Some?
    ensures r.systemdUnit.Some? ==> forall pid :: pid in l.pids ==> OwnerOf(cgroups, services)(pid) == r.systemdUnit
    ensures r.ownership == AMBIGUOUS <==> |Owners(cgroups, services, l.pids)| > 1
  {
    var owners, unresolved := CollectOwners(l.pids, services, cgroups);
    var name := if |l.processNames| == 1 then Some(l.processNames[0]) else None;
    DecisionExact(l, services, cgroups);
    hide Owners, OwnerOf, OwnedByOne, Unowned;
    if |owners| > 1 {
      r := ListenerReport(l, AMBIGUOUS, None, name);
    } else if |owners| == 1 && !unresolved {
      var unit :| unit in owners;
      r := ListenerReport(l, SYSTEMD_SERVICE, Some(unit), name);
    } else {
      r := ListenerReport(l, UNRESOLVED, None, name);
    }
  }

  /** The loop over a listener's processes. */
  method CollectOwners(pids: seq<nat>, services: seq<Unit>, cgroups: nat -> Option<string>) returns (owners: set<string>, unresolved: bool)
    ensures owners == Owners(cgroups, services, pids)
    ensures unresolved <==> Unowned(cgroups, services, pids)
  {
    owners, unresolved := {}, pids == [];
    for i := 0 to |pids|
      invariant owners == Owners(cgroups, services, pids[..i])
      invariant unresolved <==> pids == [] || exists pid :: pid in pids[..i] && OwnerOf(cgroups, services)(pid).None?
    {
      hide FilterMap, ServiceFor;
      FilterMapStep(OwnerOf(cgroups, services), pids, i);
      assert pids[..i + 1] == pids[..i] + [pids[i]];
      match ServiceFor(cgroups(pids[i]), services)
      case None => unresolved := true;
      case Some(u) =>
        if IsRuntime(u) { unresolved := true; } else { owners := owners + {u.unit}; }
    }
    assert pids[..|pids|] == pids;
  }

  /** One owner and no process without one is the same as one service for all processes. */
  lemma DecisionExact(l: ParsedListener, services: seq<Unit>, cgroups: nat -> Option<string>)
    ensures var owners := Owners(cgroups, services, l.pids);
      && (OwnedByOne(l, services, cgroups) <==> |owners| == 1 && !Unowned(cgroups, services, l.pids))
      && (OwnedByOne(l, services, cgroups) ==>
            forall unit, pid :: unit in owners && pid in l.pids ==> OwnerOf(cgroups, services)(pid) == Some(unit))
  {
    var owners := Owners(cgroups, services, l.pids);
    OwnersExact(cgroups, services, l.pids);
    hide Owners, OwnerOf;
    if OwnedByOne(l, services, cgroups) {
      var unit :| forall pid :: pid in l.pids ==> OwnerOf(cgroups, services)(pid) == Some(unit);
      assert l.pids[0] in l.pids;
      assert owners == {unit};
    }
    if |owners| == 1 && !Unowned(cgroups, services, l.pids) {
      var unit :| unit in owners;
      Alone(owners, unit);
      forall pid | pid in l.pids ensures OwnerOf(cgroups, services)(pid) == Some(unit) {
        assert OwnerOf(cgroups, services)(pid).value in owners;
      }
    }
  }

  /** There are processes, and each of them counts for the same service. */
  ghost predicate OwnedByOne(l: ParsedListener, services: seq<Unit>, cgroups: nat -> Option<string>) {
    l.pids != [] && exists unit :: forall pid :: pid in l.pids ==> OwnerOf(cgroups, services)(pid) == Some(unit)
  }

  lemma OwnersExact(cgroups: nat -> Option<string>, services: seq<Unit>, pids: seq<nat>)
    ensures forall unit :: unit in Owners(cgroups, services, pids) <==> exists pid :: pid in pids && OwnerOf(cgroups, services)(pid) == Some(unit)
  {
    FilterMapElements(OwnerOf(cgroups, services), pids);
    hide OwnerOf, FilterMap;
  }

  lemma Alone(owners: set<string>, unit: string)
    requires |owners| == 1 && unit in owners
    ensures owners == {unit}
  {
    assert |owners - {unit}| == 0;
  }
}

/**
  When a whole view keeps its distances: the view that shows everything puts types of node into one
  column that know nothing of each other.
 */
module LayoutEverything {
  import opened Collections
  import opened Graphs
  import opened GraphView
  import opened GraphLayout
  import opened LayoutSpacing
  import opened LayoutColumns

  // ----- the top of the groups -----

  lemma {:induction false} GroupsBelowTop(p: Positions, projects: seq<InfraNode>, members: string -> seq<InfraNode>, projectX: int, containerX: int)
    ensures GroupsPlaced(p, projects, members, projectX, containerX).y >= TOP
  {
    if projects != [] { GroupsBelowTop(p, projects[..|projects| - 1], members, projectX, containerX); }
  }

  lemma {:induction false} MembersBelowTop(p: Positions, projects: seq<InfraNode>, members: string -> seq<InfraNode>, projectX: int, containerX: int, id: string)
    requires id in GroupedIds(projects, members) && id !in NodeIds(projects)
    ensures var q := GroupsPlaced(p, projects, members, projectX, containerX).positions; id in q && q[id].y >= TOP
  {
    var n := |projects| - 1;
    var front, last := projects[..n], projects[n];
    assert projects == front + [last];
    GroupedStep(front, last, members);
    assert id != last.id && id !in NodeIds(front);
    hide GroupedIds, NodeIds, ProjectTop, GroupHeight, Placed;
    GroupsBelowTop(p, front, members, projectX, containerX);
    var g, own := GroupsPlaced(p, front, members, projectX, containerX), members(last.id);
    var k := PlacedSlot(g.positions[last.id := Position(projectX, ProjectTop(g.y, |own|))], own, containerX, g.y, id);
    if id !in NodeIds(own) { MembersBelowTop(p, front, members, projectX, containerX, id); }
  }

  /** The first project stands beside its containers at the top, and every other one lower. */
  lemma {:induction false} FirstProject(p: Positions, projects: seq<InfraNode>, members: string -> seq<InfraNode>, projectX: int, containerX: int, id: string)
    requires projects != [] && UniqueBy(IdOf, projects) && id in NodeIds(projects)
    requires forall a :: NodeIds(projects) !! NodeIds(members(a))
    ensures var q := GroupsPlaced(p, projects, members, projectX, containerX).positions;
      && id in q && q[id].y >= ProjectTop(TOP, |members(projects[0].id)|)
      && (id == projects[0].id ==> q[id].y == ProjectTop(TOP, |members(projects[0].id)|))
  {
    FrontIds(projects);
    var n := |projects| - 1;
    var front, last := projects[..n], projects[n];
    var g, own := GroupsPlaced(p, front, members, projectX, containerX), members(last.id);
    var k := PlacedSlot(g.positions[last.id := Position(projectX, ProjectTop(g.y, |own|))], own, containerX, g.y, id);
    if front == [] {
      assert last == projects[0];
    } else {
      assert front[0] == projects[0] && projects[0] in front;
      hide GroupHeight, Placed, UniqueBy;
      FirstProject(p, front, members, projectX, containerX, projects[0].id);
      if id in NodeIds(front) {
        FirstProject(p, front, members, projectX, containerX, id);
      } else {
        GroupsInvariant(p, front, members, projectX, containerX);
        assert g.positions[projects[0].id].y + PROJECT_GAP <= g.y;
      }
    }
  }

  /** The positions once the groups are placed. */
  function Composed(visible: InfraGraph): Positions { ComposePlaced(Hosts(visible, 270), visible, 530, 800) }

  lemma ComposedProject(visible: InfraGraph, m: InfraNode)
    requires UniqueBy(IdOf, visible.nodes) && m in visible.nodes && m.nodeType == DOCKER_COMPOSE_PROJECT
    ensures var projects := SortedOf(visible.nodes, DOCKER_COMPOSE_PROJECT);
      && projects != [] && m.id in Composed(visible)
      && Composed(visible)[m.id].y >= ProjectTop(TOP, |MembersIn(visible)(projects[0].id)|)
      && (m == projects[0] ==> Composed(visible)[m.id].y == ProjectTop(TOP, |MembersIn(visible)(projects[0].id)|))
  {
    var projects, containers := SortedOf(visible.nodes, DOCKER_COMPOSE_PROJECT), SortedOf(visible.nodes, DOCKER_CONTAINER);
    var members, p := MembersIn(visible), Hosts(visible, 270);
    var grouped := GroupedIds(projects, members);
    var rest := Filter(NotIn(grouped), containers);
    var g := GroupsPlaced(p, projects, members, 530, 800);
    assert Composed(visible) == Placed(g.positions, rest, 800, g.y);
    IdOfType(visible.nodes, m);
    hide *;
    SortedIds(visible.nodes, DOCKER_COMPOSE_PROJECT);
    SortedIds(visible.nodes, DOCKER_CONTAINER);
    SortedUnique(visible.nodes, DOCKER_COMPOSE_PROJECT);
    TypesDisjoint(visible.nodes, DOCKER_COMPOSE_PROJECT, DOCKER_CONTAINER);
    GroupsInView(p, visible, 530, 800);
    RestIds(containers, grouped);
    forall a ensures NodeIds(projects) !! NodeIds(members(a)) { MembersDisjoint(visible, a); }
    FirstProject(p, projects, members, 530, 800, m.id);
    var k := PlacedSlot(g.positions, rest, 800, g.y, m.id);
    SameAt(Placed(g.positions, rest, 800, g.y), g.positions, m.id);
  }

  lemma SameAt(p: Positions, q: Positions, id: string)
    ensures Same(p, q, {id}) ==> (id in p <==> id in q) && (id in p ==> p[id] == q[id])
  {
    assert id in {id};
  }

  lemma ComposedContainer(visible: InfraGraph, c: InfraNode)
    requires UniqueBy(IdOf, visible.nodes) && c in visible.nodes && c.nodeType == DOCKER_CONTAINER
    ensures c.id in Composed(visible) && Composed(visible)[c.id].y >= TOP
  {
    var projects, containers := SortedOf(visible.nodes, DOCKER_COMPOSE_PROJECT), SortedOf(visible.nodes, DOCKER_CONTAINER);
    var members, p := MembersIn(visible), Hosts(visible, 270);
    var grouped := GroupedIds(projects, members);
    var rest := Filter(NotIn(grouped), containers);
    var g := GroupsPlaced(p, projects, members, 530, 800);
    assert Composed(visible) == Placed(g.positions, rest, 800, g.y);
    IdOfType(visible.nodes, c);
    hide *;
    SortedIds(visible.nodes, DOCKER_COMPOSE_PROJECT);
    SortedIds(visible.nodes, DOCKER_CONTAINER);
    TypesDisjoint(visible.nodes, DOCKER_COMPOSE_PROJECT, DOCKER_CONTAINER);
    GroupsInView(p, visible, 530, 800);
    RestIds(containers, grouped);
    GroupsBelowTop(p, projects, members, 530, 800);
    var k := PlacedSlot(g.positions, rest, 800, g.y, c.id);
    if c.id !in NodeIds(rest) {
      MembersBelowTop(p, projects, members, 530, 800, c.id);
      SameAt(Placed(g.positions, rest, 800, g.y), g.positions, c.id);
    }
  }

  // ----- slots of a column -----

  /** Something at or below the top is clear of the first n slots exactly when it is below all of them. */
  lemma ClearOfSlots(y: int, n: nat)
    requires y >= TOP
    ensures (forall k :: 0 <= k < n ==> Distant(y, TOP + k * STEP, STEP)) <==> n == 0 || y >= TOP + n * STEP
  {
    if n > 0 && y < TOP + n * STEP {
      var k := (y - TOP) / STEP;
      assert 0 <= k < n && !Distant(y, TOP + k * STEP, STEP);
    }
  }

  /** Each node of a type has a slot, and each slot a node. */
  lemma SlotOf(p: Positions, visible: InfraGraph, t: NodeType, x: int, n: InfraNode) returns (k: nat)
    requires n in visible.nodes && n.nodeType == t
    ensures k < |SortedOf(visible.nodes, t)|
    ensures n.id in TypePlaced(p, visible, t, x, TOP) && TypePlaced(p, visible, t, x, TOP)[n.id] == Position(x, TOP + k * STEP)
  {
    var nodes := SortedOf(visible.nodes, t);
    IdOfType(visible.nodes, n);
    SortedIds(visible.nodes, t);
    hide Placed, SortedOf, TypeIds;
    k := PlacedSlot(p, nodes, x, TOP, n.id);
  }

  lemma NodeInSlot(p: Positions, visible: InfraGraph, t: NodeType, x: int, k: nat) returns (n: InfraNode)
    requires UniqueBy(IdOf, visible.nodes) && k < |SortedOf(visible.nodes, t)|
    ensures n in visible.nodes && n.nodeType == t
    ensures n.id in TypePlaced(p, visible, t, x, TOP) && TypePlaced(p, visible, t, x, TOP)[n.id] == Position(x, TOP + k * STEP)
  {
    var nodes := SortedOf(visible.nodes, t);
    SortedIds(visible.nodes, t);
    SortedUnique(visible.nodes, t);
    hide Placed, SortedOf;
    n := nodes[k];
    assert n in nodes && n.id in NodeIds(nodes);
    var j := PlacedSlot(p, nodes, x, TOP, n.id);
    assert IdOf(nodes[k]) == IdOf(nodes[j]);
  }

  lemma StaysAt(p: Positions, visible: InfraGraph, t: NodeType, x: int, y: int, n: InfraNode)
    requires UniqueBy(IdOf, visible.nodes) && n in visible.nodes && n.nodeType != t
    ensures var q := TypePlaced(p, visible, t, x, y); (n.id in p <==> n.id in q) && (n.id in p ==> p[n.id] == q[n.id])
  {
    TypeFrame(p, visible, t, x, y, n.nodeType);
    IdOfType(visible.nodes, n);
    hide TypePlaced, TypeIds, UniqueBy;
  }

  /** A proxy keeps its slot through the last two steps, a domain through the last. */
  lemma ProxyStays(visible: InfraGraph, n: InfraNode)
    requires UniqueBy(IdOf, visible.nodes) && n in visible.nodes && n.nodeType == REVERSE_PROXY && n.id in Proxies(visible)
    ensures n.id in Everything(visible) && Everything(visible)[n.id] == Proxies(visible)[n.id]
  {
    hide TypePlaced, UniqueBy, Proxies;
    StaysAt(Proxies(visible), visible, DOMAIN, 800, TOP, n);
    StaysAt(Domains(visible), visible, DIRECTORY, 1070, TOP, n);
  }

  lemma DomainStays(visible: InfraGraph, n: InfraNode)
    requires UniqueBy(IdOf, visible.nodes) && n in visible.nodes && n.nodeType == DOMAIN && n.id in Domains(visible)
    ensures n.id in Everything(visible) && Everything(visible)[n.id] == Domains(visible)[n.id]
  {
    hide TypePlaced, UniqueBy, Domains;
    StaysAt(Domains(visible), visible, DIRECTORY, 1070, TOP, n);
  }

  lemma ComposedStays(visible: InfraGraph, n: InfraNode)
    requires UniqueBy(IdOf, visible.nodes) && n in visible.nodes
    requires n.nodeType == DOCKER_CONTAINER || n.nodeType == DOCKER_COMPOSE_PROJECT
    requires n.id in Composed(visible)
    ensures n.id in Everything(visible) && Everything(visible)[n.id] == Composed(visible)[n.id]
  {
    GroupsStay(visible, n.nodeType);
    IdOfType(visible.nodes, n);
    hide ComposePlaced, Everything, TypeIds, UniqueBy, Hosts;
  }

  // ----- when the shared columns are clear -----

  predicate ProxiesClear(visible: InfraGraph) {
    var proxies, projects := SortedOf(visible.nodes, REVERSE_PROXY), SortedOf(visible.nodes, DOCKER_COMPOSE_PROJECT);
    proxies == [] || projects == [] || |MembersIn(visible)(projects[0].id)| > 2 * |proxies|
  }

  /** Every container stands below all the domains. */
  ghost predicate DomainsClear(visible: InfraGraph) {
    var domains := SortedOf(visible.nodes, DOMAIN);
    domains == [] || forall c :: c in visible.nodes && c.nodeType == DOCKER_CONTAINER && c.id in Composed(visible) ==>
      Composed(visible)[c.id].y >= TOP + |domains| * STEP
  }

  ghost predicate DirectoriesClear(visible: InfraGraph) {
    !Has(visible.nodes, DIRECTORY) || (!Has(visible.nodes, PORT) && !Has(visible.nodes, MOUNT))
  }

  ghost predicate Clear(visible: InfraGraph) { ProxiesClear(visible) && DomainsClear(visible) && DirectoriesClear(visible) }

  /** A project of m containers is below n slots exactly when it has more than twice as many containers. */
  lemma ProjectBelow(m: nat, n: nat)
    requires n > 0
    ensures ProjectTop(TOP, m) >= TOP
    ensures ProjectTop(TOP, m) >= TOP + n * STEP <==> m > 2 * n
  {
  }

  lemma ProxyApart(visible: InfraGraph, m: InfraNode, n: InfraNode)
    requires UniqueBy(IdOf, visible.nodes) && ProxiesClear(visible)
    requires m in visible.nodes && n in visible.nodes && m.nodeType == REVERSE_PROXY && n.nodeType == DOCKER_COMPOSE_PROJECT
    ensures var p := Everything(visible); m.id in p && n.id in p && Distant(p[m.id].y, p[n.id].y, STEP)
  {
    hide TypePlaced, UniqueBy, Everything, Composed, SortedOf, MembersIn, Networks, ProjectTop;
    var proxies, projects := SortedOf(visible.nodes, REVERSE_PROXY), SortedOf(visible.nodes, DOCKER_COMPOSE_PROJECT);
    var k := SlotOf(Networks(visible), visible, REVERSE_PROXY, 530, m);
    assert Proxies(visible) == TypePlaced(Networks(visible), visible, REVERSE_PROXY, 530, TOP);
    ProxyStays(visible, m);
    ComposedProject(visible, n);
    ComposedStays(visible, n);
    ProjectBelow(|MembersIn(visible)(projects[0].id)|, |proxies|);
  }

  lemma DomainApart(visible: InfraGraph, m: InfraNode, n: InfraNode)
    requires UniqueBy(IdOf, visible.nodes) && DomainsClear(visible)
    requires m in visible.nodes && n in visible.nodes && m.nodeType == DOMAIN && n.nodeType == DOCKER_CONTAINER
    ensures var p := Everything(visible); m.id in p && n.id in p && Distant(p[m.id].y, p[n.id].y, STEP)
  {
    hide TypePlaced, UniqueBy, Everything, Composed, SortedOf, Proxies;
    var k := SlotOf(Proxies(visible), visible, DOMAIN, 800, m);
    assert Domains(visible) == TypePlaced(Proxies(visible), visible, DOMAIN, 800, TOP);
    DomainStays(visible, m);
    ComposedContainer(visible, n);
    ComposedStays(visible, n);
  }

  // ----- clear columns keep their distances -----

  lemma MixedApart(visible: InfraGraph, m: InfraNode, n: InfraNode)
    requires UniqueBy(IdOf, visible.nodes) && Clear(visible) && m in visible.nodes && n in visible.nodes
    requires Pair(m.nodeType, n.nodeType, PORT, MOUNT) || Pair(m.nodeType, n.nodeType, REVERSE_PROXY, DOCKER_COMPOSE_PROJECT)
      || Pair(m.nodeType, n.nodeType, DOMAIN, DOCKER_CONTAINER)
    ensures var p := Everything(visible); m.id in p && n.id in p && Distant(p[m.id].y, p[n.id].y, STEP)
  {
    hide Everything, UniqueBy, ProxiesClear, DomainsClear, DirectoriesClear;
    if m.nodeType == PORT { PortMountApart(visible, m, n); }
    else if n.nodeType == PORT { PortMountApart(visible, n, m); }
    else if m.nodeType == REVERSE_PROXY { ProxyApart(visible, m, n); }
    else if n.nodeType == REVERSE_PROXY { ProxyApart(visible, n, m); }
    else if m.nodeType == DOMAIN { DomainApart(visible, m, n); }
    else { DomainApart(visible, n, m); }
  }

  lemma NoDirectory(visible: InfraGraph, m: InfraNode, n: InfraNode)
    requires DirectoriesClear(visible) && m in visible.nodes && n in visible.nodes
    ensures !Pair(m.nodeType, n.nodeType, DIRECTORY, PORT) && !Pair(m.nodeType, n.nodeType, DIRECTORY, MOUNT)
  {
    assert Has(visible.nodes, m.nodeType) && Has(visible.nodes, n.nodeType);
    hide Has;
  }

  lemma TwoApart(visible: InfraGraph, view: ViewMode, m: InfraNode, n: InfraNode)
    requires UniqueBy(IdOf, visible.nodes) && Clear(visible)
    requires m in visible.nodes && n in visible.nodes && m != n && m.nodeType in Columns(view) && n.nodeType in Columns(view)
    ensures var p := LayoutOf(visible, view);
      && m.id in p && n.id in p
      && (p[m.id].x == p[n.id].x ==> Distant(p[m.id].y, p[n.id].y, if m.nodeType == n.nodeType then Gap(m.nodeType) else STEP))
  {
    hide LayoutOf, Everything, UniqueBy, Columns, Laid, Gap, ProxiesClear, DomainsClear, DirectoriesClear;
    var p := LayoutOf(visible, view);
    ColumnsLaid(visible, view);
    NodePlaced(visible, view, m);
    NodePlaced(visible, view, n);
    if m.id == n.id { SameNode(visible.nodes, m, n); }
    if m.nodeType == n.nodeType {
      SameTypeApart(p, visible.nodes, Columns(view), m, n);
    } else if p[m.id].x == p[n.id].x {
      SameColumn(view, m.nodeType, n.nodeType);
      NoDirectory(visible, m, n);
      LastStep(visible, view);
      MixedApart(visible, m, n);
    }
  }

  lemma ClearSpaced(visible: InfraGraph, view: ViewMode)
    requires UniqueBy(IdOf, visible.nodes) && Clear(visible)
    requires forall n :: n in visible.nodes ==> n.nodeType in ViewTypes(view)
    ensures Spaced(LayoutOf(visible, view), visible.nodes)
  {
    hide LayoutOf, UniqueBy, Clear;
    ColumnsCover(view);
    ColumnsLaid(visible, view);
    forall n | n in visible.nodes ensures n.id in LayoutOf(visible, view) { NodePlaced(visible, view, n); }
    hide ViewTypes, Columns, Laid;
    forall m, n | m in visible.nodes && n in visible.nodes && m != n && LayoutOf(visible, view)[m.id].x == LayoutOf(visible, view)[n.id].x
      ensures var p := LayoutOf(visible, view);
        Distant(p[m.id].y, p[n.id].y, if m.nodeType == n.nodeType then Gap(m.nodeType) else STEP)
    {
      TwoApart(visible, view, m, n);
    }
  }

  // ----- what collides -----

  lemma TooClose(p: Positions, nodes: seq<InfraNode>, m: InfraNode, n: InfraNode)
    requires m in nodes && n in nodes && m.nodeType != n.nodeType && m.id in p && n.id in p
    requires p[m.id].x == p[n.id].x && !Distant(p[m.id].y, p[n.id].y, STEP)
    ensures !Spaced(p, nodes)
  {
  }

  lemma ColumnAt(visible: InfraGraph, n: InfraNode)
    requires UniqueBy(IdOf, visible.nodes) && n in visible.nodes && n.nodeType in Columns(EVERYTHING)
    ensures n.id in Everything(visible) && Everything(visible)[n.id].x == Columns(EVERYTHING)[n.nodeType]
  {
    hide LayoutOf, Everything, UniqueBy, Columns, Laid;
    ColumnsLaid(visible, EVERYTHING);
    LastStep(visible, EVERYTHING);
    NodePlaced(visible, EVERYTHING, n);
  }

  lemma ProxiesCollide(visible: InfraGraph)
    requires UniqueBy(IdOf, visible.nodes) && !ProxiesClear(visible)
    ensures !Spaced(Everything(visible), visible.nodes)
  {
    var proxies, projects := SortedOf(visible.nodes, REVERSE_PROXY), SortedOf(visible.nodes, DOCKER_COMPOSE_PROJECT);
    hide TypePlaced, UniqueBy, Everything, Composed, SortedOf, MembersIn, Networks, ProjectTop, Spaced;
    var first := projects[0];
    SortedIds(visible.nodes, DOCKER_COMPOSE_PROJECT);
    assert first in projects;
    ComposedProject(visible, first);
    ComposedStays(visible, first);
    var y := Everything(visible)[first.id].y;
    ProjectBelow(|MembersIn(visible)(first.id)|, |proxies|);
    ClearOfSlots(y, |proxies|);
    var k: nat :| k < |proxies| && !Distant(y, TOP + k * STEP, STEP);
    var n := NodeInSlot(Networks(visible), visible, REVERSE_PROXY, 530, k);
    assert Proxies(visible) == TypePlaced(Networks(visible), visible, REVERSE_PROXY, 530, TOP);
    ProxyStays(visible, n);
    ColumnAt(visible, first);
    TooClose(Everything(visible), visible.nodes, first, n);
  }

  lemma DomainsCollide(visible: InfraGraph)
    requires UniqueBy(IdOf, visible.nodes) && !DomainsClear(visible)
    ensures !Spaced(Everything(visible), visible.nodes)
  {
    var domains := SortedOf(visible.nodes, DOMAIN);
    hide TypePlaced, UniqueBy, Everything, Composed, SortedOf, Proxies, Spaced;
    var c :| c in visible.nodes && c.nodeType == DOCKER_CONTAINER && c.id in Composed(visible) &&
      Composed(visible)[c.id].y < TOP + |domains| * STEP;
    ComposedContainer(visible, c);
    ComposedStays(visible, c);
    var y := Everything(visible)[c.id].y;
    ClearOfSlots(y, |domains|);
    var k: nat :| k < |domains| && !Distant(y, TOP + k * STEP, STEP);
    var n := NodeInSlot(Proxies(visible), visible, DOMAIN, 800, k);
    assert Domains(visible) == TypePlaced(Proxies(visible), visible, DOMAIN, 800, TOP);
    DomainStays(visible, n);
    ColumnAt(visible, c);
    TooClose(Everything(visible), visible.nodes, c, n);
  }

  lemma OnOneSpot(p: Positions, nodes: seq<InfraNode>, m: InfraNode, n: InfraNode)
    requires m in nodes && n in nodes && m != n && m.id in p && n.id in p && p[m.id] == p[n.id]
    ensures !Spaced(p, nodes)
  {
  }

  /** The first port, or the first mount when there is no port, stands at the top of the third column. */
  lemma TopOfThird(visible: InfraGraph) returns (n: InfraNode)
    requires UniqueBy(IdOf, visible.nodes) && (Has(visible.nodes, PORT) || Has(visible.nodes, MOUNT))
    ensures n in visible.nodes && (n.nodeType == PORT || n.nodeType == MOUNT)
    ensures n.id in Mounts(visible) && Mounts(visible)[n.id] == Position(1070, TOP)
  {
    hide TypePlaced, ComposePlaced, UniqueBy, Hosts, SortedOf, TypeIds, Has;
    var p, y := ComposePlaced(Hosts(visible, 270), visible, 530, 800), TOP + |SortedOf(visible.nodes, PORT)| * STEP;
    assert Ports(visible) == TypePlaced(p, visible, PORT, 1070, TOP);
    assert Mounts(visible) == TypePlaced(Ports(visible), visible, MOUNT, 1070, y);
    hide Ports, Mounts;
    if Has(visible.nodes, PORT) {
      n := FirstPlaced(p, visible, PORT, 1070, TOP);
      TypeFrame(Ports(visible), visible, MOUNT, 1070, y, PORT);
      IdOfType(visible.nodes, n);
    } else {
      Absent(visible, PORT);
      n := FirstPlaced(Ports(visible), visible, MOUNT, 1070, y);
    }
  }

  /** The steps after the mounts, but for the last, move neither ports nor mounts; nor does the last. */
  lemma ThirdStays(visible: InfraGraph, t: NodeType)
    requires UniqueBy(IdOf, visible.nodes) && (t == PORT || t == MOUNT)
    ensures Same(Mounts(visible), Everything(visible), TypeIds(visible.nodes, t))
  {
    hide TypePlaced, UniqueBy, TypeIds, Mounts;
    TypeFrame(Mounts(visible), visible, NETWORK, 1340, TOP, t);
    TypeFrame(Networks(visible), visible, REVERSE_PROXY, 530, TOP, t);
    TypeFrame(Proxies(visible), visible, DOMAIN, 800, TOP, t);
    TypeFrame(Domains(visible), visible, DIRECTORY, 1070, TOP, t);
  }

  lemma DirectoriesCollide(visible: InfraGraph)
    requires UniqueBy(IdOf, visible.nodes)
    requires Has(visible.nodes, DIRECTORY) && (Has(visible.nodes, PORT) || Has(visible.nodes, MOUNT))
    ensures !Spaced(Everything(visible), visible.nodes)
  {
    var d := FirstPlaced(Domains(visible), visible, DIRECTORY, 1070, TOP);
    var n := TopOfThird(visible);
    ThirdStays(visible, n.nodeType);
    hide TypePlaced, UniqueBy, Domains, Mounts, Has, Spaced;
    assert n.id in TypeIds(visible.nodes, n.nodeType);
    OnOneSpot(Everything(visible), visible.nodes, n, d);
  }

  /**
    The view that shows everything keeps its distances exactly when its shared columns are clear: the
    first project has more than twice as many containers as there are proxies, every container stands
    below the domains, and no directory meets a port or a mount.
   */
  lemma EverythingSpacedExactly(visible: InfraGraph)
    requires UniqueBy(IdOf, visible.nodes)
    requires forall n :: n in visible.nodes ==> n.nodeType in ViewTypes(EVERYTHING)
    ensures Spaced(LayoutOf(visible, EVERYTHING), visible.nodes) <==> Clear(visible)
  {
    hide UniqueBy, ViewTypes, Everything, LayoutOf, Spaced, ProxiesClear, DomainsClear, Has;
    LastStep(visible, EVERYTHING);
    if Clear(visible) {
      ClearSpaced(visible, EVERYTHING);
    } else if !ProxiesClear(visible) {
      ProxiesCollide(visible);
    } else if !DomainsClear(visible) {
      DomainsCollide(visible);
    } else {
      DirectoriesCollide(visible);
    }
  }

  // ----- what is laid out is what a view shows -----

  lemma VisibleUnique(graph: InfraGraph, view: ViewMode, state: UiState)
    requires UniqueBy(IdOf, graph.nodes)
    ensures UniqueBy(IdOf, Visible(graph, view, state).nodes)
  {
    hide UniqueBy;
    var nodes := Filter(Allowed(ViewTypes(view), Hidden(graph, state.collapsed)), graph.nodes);
    FilterUniqueBy(IdOf, Allowed(ViewTypes(view), Hidden(graph, state.collapsed)), graph.nodes);
    FilterUniqueBy(IdOf, Attached(Filter(Within(NodeIds(nodes)), graph.edges)), nodes);
    if state.focus.Some? { FilterUniqueBy(IdOf, Among(FocusIds(graph, state.focus.value)), Unfocused(graph, view, state.collapsed)); }
    hide Filter, Hidden, FocusIds, NodeIds, ViewTypes;
  }

  lemma NothingShared(visible: InfraGraph, view: ViewMode)
    requires view != EVERYTHING && forall n :: n in visible.nodes ==> n.nodeType in ViewTypes(view)
    ensures Clear(visible)
  {
    assert !Has(visible.nodes, REVERSE_PROXY) && !Has(visible.nodes, DOMAIN) && !Has(visible.nodes, DIRECTORY);
    hide Has, SortedOf, MembersIn, Composed, ViewTypes;
    Absent(visible, REVERSE_PROXY);
    Absent(visible, DOMAIN);
  }

  /** Whatever the graph, the collapsed projects and the focus. */
  lemma ViewSpaced(graph: InfraGraph, view: ViewMode, state: UiState)
    requires UniqueBy(IdOf, graph.nodes) && view != EVERYTHING
    ensures var v := Visible(graph, view, state); Spaced(LayoutOf(v, view), v.nodes)
  {
    var v := Visible(graph, view, state);
    VisibleUnique(graph, view, state);
    VisibleInduced(graph, view, state);
    hide Visible, UniqueBy, Hidden, NodeIds, Clear;
    NothingShared(v, view);
    ClearSpaced(v, view);
  }

  ghost predicate AlwaysSpaced(view: ViewMode) {
    forall graph: InfraGraph, state: UiState ::
      UniqueBy(IdOf, graph.nodes) ==> Spaced(LayoutOf(Visible(graph, view, state), view), Visible(graph, view, state).nodes)
  }

  /** A view keeps its distances on every graph exactly when it is not the one that shows everything. */
  lemma SpacedExactly(view: ViewMode)
    ensures AlwaysSpaced(view) <==> view != EVERYTHING
  {
    hide LayoutOf, UniqueBy, Visible, Spaced;
    if view != EVERYTHING {
      forall graph: InfraGraph, state: UiState | UniqueBy(IdOf, graph.nodes)
        ensures Spaced(LayoutOf(Visible(graph, view, state), view), Visible(graph, view, state).nodes)
      {
        ViewSpaced(graph, view, state);
      }
    } else {
      EverythingCollides();
    }
  }

  const COLLISION := InfraGraph([InfraNode("a", "", REVERSE_PROXY, map[]), InfraNode("b", "", DOCKER_COMPOSE_PROJECT, map[])], [])

  lemma CollisionVisible(state: UiState)
    requires state == UiState({}, None)
    ensures Visible(COLLISION, EVERYTHING, state) == COLLISION
  {
    var nodes := COLLISION.nodes;
    FilterNothing(Allowed(ViewTypes(EVERYTHING), {}), nodes);
    FilterNothing(Attached([]), nodes);
    HiddenByNothing(COLLISION);
    assert Filter(Within(NodeIds(nodes)), COLLISION.edges) == [];
    hide Filter, ViewTypes, NodeIds, Hidden;
  }

  lemma EverythingCollides()
    ensures !AlwaysSpaced(EVERYTHING)
  {
    hide Visible, LayoutOf, Spaced, ViewTypes, Clear;
    var state := UiState({}, None);
    var nodes := COLLISION.nodes;
    assert UniqueBy(IdOf, nodes) && nodes[0].id != nodes[1].id;
    CollisionVisible(state);
    TypesShown(nodes);
    EverythingSpacedExactly(COLLISION);
    CollisionNotClear();
  }

  /** A project without containers stands where the first proxy does. */
  lemma CollisionNotClear()
    ensures !Clear(COLLISION)
  {
    var nodes := COLLISION.nodes;
    SortedIds(nodes, REVERSE_PROXY);
    SortedIds(nodes, DOCKER_COMPOSE_PROJECT);
    hide SortedOf, DomainsClear, DirectoriesClear, WithId;
    assert nodes[0] in nodes && nodes[1] in nodes;
    assert nodes[0] in SortedOf(nodes, REVERSE_PROXY) && nodes[1] in SortedOf(nodes, DOCKER_COMPOSE_PROJECT);
    var project := SortedOf(nodes, DOCKER_COMPOSE_PROJECT)[0].id;
    assert Claims(SortedOf(nodes, DOCKER_CONTAINER), [], project) == [];
    assert MembersIn(COLLISION)(project) == [];
  }

  lemma TypesShown(nodes: seq<InfraNode>)
    requires nodes == COLLISION.nodes
    ensures forall n :: n in nodes ==> n.nodeType in ViewTypes(EVERYTHING)
  {
  }

  lemma HiddenByNothing(graph: InfraGraph)
    requires graph.edges == []
    ensures Hidden(graph, {}) == {}
  {
  }
}

/** Which column every type has, and when the columns of a whole view keep their distance. */
module LayoutColumns {
  import opened Collections
  import opened Graphs
  import opened GraphView
  import opened GraphLayout
  import opened LayoutSpacing

  function Gap(t: NodeType): int { if t == DOCKER_COMPOSE_PROJECT then PROJECT_GAP else STEP }

  function Columns(view: ViewMode): map<NodeType, int> {
    match view
    case NETWORKING =>
      map[SERVER := 32, DOCKER_ENGINE := 245, DOCKER_COMPOSE_PROJECT := 470, DOCKER_CONTAINER := 730, NETWORK := 1000, PORT := 1270]
    case STORAGE =>
      map[SERVER := 32, DOCKER_ENGINE := 245, DOCKER_COMPOSE_PROJECT := 470, DOCKER_CONTAINER := 730, MOUNT := 1010]
    case _ =>
      map[SERVER := 32, DOCKER_ENGINE := 270, DOCKER_COMPOSE_PROJECT := 530, DOCKER_CONTAINER := 800, PORT := 1070, MOUNT := 1070,
          NETWORK := 1340, REVERSE_PROXY := 530, DOMAIN := 800, DIRECTORY := 1070]
  }

  /** Every type with a column has all its nodes there, spaced. */
  ghost predicate Laid(p: Positions, nodes: seq<InfraNode>, columns: map<NodeType, int>) {
    forall t :: t in columns ==> Column(p, TypeIds(nodes, t), columns[t], Gap(t))
  }

  lemma TypeSpaced(p: Positions, visible: InfraGraph, t: NodeType, x: int, y: int)
    ensures Column(TypePlaced(p, visible, t, x, y), TypeIds(visible.nodes, t), x, STEP)
  {
    PlacedColumn(p, SortedOf(visible.nodes, t), x, y);
    SortedIds(visible.nodes, t);
    hide Placed, SortedOf, Column;
  }

  lemma TypeFrame(p: Positions, visible: InfraGraph, t: NodeType, x: int, y: int, u: NodeType)
    requires UniqueBy(IdOf, visible.nodes) && t != u
    ensures Same(p, TypePlaced(p, visible, t, x, y), TypeIds(visible.nodes, u))
  {
    var q := TypePlaced(p, visible, t, x, y);
    assert q == Placed(p, SortedOf(visible.nodes, t), x, y);
    TypesDisjoint(visible.nodes, t, u);
    SortedIds(visible.nodes, t);
    hide Placed, SortedOf, NodeIds, TypeIds, UniqueBy, TypePlaced;
    forall id | id in TypeIds(visible.nodes, u) ensures Same(q, p, {id}) {
      var k := PlacedSlot(p, SortedOf(visible.nodes, t), x, y, id);
    }
  }

  lemma TypeLaid(p: Positions, visible: InfraGraph, columns: map<NodeType, int>, t: NodeType, x: int, y: int)
    requires UniqueBy(IdOf, visible.nodes) && t != DOCKER_COMPOSE_PROJECT
    requires Laid(p, visible.nodes, columns)
    ensures Laid(TypePlaced(p, visible, t, x, y), visible.nodes, columns[t := x])
  {
    var q := TypePlaced(p, visible, t, x, y);
    TypeSpaced(p, visible, t, x, y);
    hide TypePlaced, TypeIds, Column, UniqueBy, Same;
    forall u | u in columns && u != t ensures Column(q, TypeIds(visible.nodes, u), columns[u], Gap(u)) {
      TypeFrame(p, visible, t, x, y, u);
      ColumnKept(p, q, TypeIds(visible.nodes, u), columns[u], Gap(u));
    }
  }

  lemma ComposeKept(p: Positions, visible: InfraGraph, projectX: int, containerX: int, u: NodeType)
    requires UniqueBy(IdOf, visible.nodes) && u != DOCKER_COMPOSE_PROJECT && u != DOCKER_CONTAINER
    ensures Same(p, ComposePlaced(p, visible, projectX, containerX), TypeIds(visible.nodes, u))
  {
    TypesDisjoint(visible.nodes, DOCKER_COMPOSE_PROJECT, u);
    TypesDisjoint(visible.nodes, DOCKER_CONTAINER, u);
    hide ComposePlaced, TypeIds, UniqueBy;
    forall id | id in TypeIds(visible.nodes, u) ensures Same(ComposePlaced(p, visible, projectX, containerX), p, {id}) {
      ComposeFrame(p, visible, projectX, containerX, id);
    }
  }

  lemma ComposeLaid(p: Positions, visible: InfraGraph, columns: map<NodeType, int>, projectX: int, containerX: int)
    requires UniqueBy(IdOf, visible.nodes)
    requires Laid(p, visible.nodes, columns)
    ensures Laid(ComposePlaced(p, visible, projectX, containerX), visible.nodes,
      columns[DOCKER_COMPOSE_PROJECT := projectX][DOCKER_CONTAINER := containerX])
  {
    var q := ComposePlaced(p, visible, projectX, containerX);
    ComposeSpaced(p, visible, projectX, containerX);
    hide ComposePlaced, TypeIds, Column, UniqueBy, Same;
    forall u | u in columns && u != DOCKER_COMPOSE_PROJECT && u != DOCKER_CONTAINER
      ensures Column(q, TypeIds(visible.nodes, u), columns[u], Gap(u))
    {
      ComposeKept(p, visible, projectX, containerX, u);
      ColumnKept(p, q, TypeIds(visible.nodes, u), columns[u], Gap(u));
    }
  }

  function HostColumns(engineX: int, projectX: int, containerX: int): map<NodeType, int> {
    map[SERVER := 32, DOCKER_ENGINE := engineX, DOCKER_COMPOSE_PROJECT := projectX, DOCKER_CONTAINER := containerX]
  }

  lemma HostsLaid(visible: InfraGraph, engineX: int, projectX: int, containerX: int)
    requires UniqueBy(IdOf, visible.nodes)
    ensures Laid(ComposePlaced(Hosts(visible, engineX), visible, projectX, containerX), visible.nodes, HostColumns(engineX, projectX, containerX))
  {
    hide TypePlaced, ComposePlaced, TypeIds, Column, UniqueBy;
    var servers := TypePlaced(map[], visible, SERVER, 32, HOST_TOP);
    assert Laid(map[], visible.nodes, map[]);
    TypeLaid(map[], visible, map[], SERVER, 32, HOST_TOP);
    TypeLaid(servers, visible, map[SERVER := 32], DOCKER_ENGINE, engineX, HOST_TOP);
    ComposeLaid(Hosts(visible, engineX), visible, map[SERVER := 32, DOCKER_ENGINE := engineX], projectX, containerX);
    assert map[SERVER := 32, DOCKER_ENGINE := engineX][DOCKER_COMPOSE_PROJECT := projectX][DOCKER_CONTAINER := containerX] ==
      HostColumns(engineX, projectX, containerX);
    hide *;
  }

  /** Every node of a type with a column in the view stands in that column. */
  lemma ColumnsLaid(visible: InfraGraph, view: ViewMode)
    requires UniqueBy(IdOf, visible.nodes)
    ensures Laid(LayoutOf(visible, view), visible.nodes, Columns(view))
  {
    hide TypePlaced, ComposePlaced, UniqueBy, Laid, Hosts;
    match view
    case NETWORKING =>
      HostsLaid(visible, 245, 470, 730);
      var grouped, columns := ComposePlaced(Hosts(visible, 245), visible, 470, 730), HostColumns(245, 470, 730);
      var networks := TypePlaced(grouped, visible, NETWORK, 1000, TOP);
      TypeLaid(grouped, visible, columns, NETWORK, 1000, TOP);
      TypeLaid(networks, visible, columns[NETWORK := 1000], PORT, 1270, TOP);
      assert columns[NETWORK := 1000][PORT := 1270] == Columns(view);
    case STORAGE =>
      HostsLaid(visible, 245, 470, 730);
      var grouped, columns := ComposePlaced(Hosts(visible, 245), visible, 470, 730), HostColumns(245, 470, 730);
      TypeLaid(grouped, visible, columns, MOUNT, 1010, TOP);
      assert columns[MOUNT := 1010] == Columns(view);
    case _ =>
      HostsLaid(visible, 270, 530, 800);
      RestLaid(visible);
      assert LayoutOf(visible, view) == Everything(visible);
  }

  /** The positions after each step of the view that shows everything. */
  function Ports(visible: InfraGraph): Positions {
    TypePlaced(ComposePlaced(Hosts(visible, 270), visible, 530, 800), visible, PORT, 1070, TOP)
  }

  function Mounts(visible: InfraGraph): Positions {
    TypePlaced(Ports(visible), visible, MOUNT, 1070, TOP + |SortedOf(visible.nodes, PORT)| * STEP)
  }

  function Networks(visible: InfraGraph): Positions { TypePlaced(Mounts(visible), visible, NETWORK, 1340, TOP) }

  function Proxies(visible: InfraGraph): Positions { TypePlaced(Networks(visible), visible, REVERSE_PROXY, 530, TOP) }

  function Domains(visible: InfraGraph): Positions { TypePlaced(Proxies(visible), visible, DOMAIN, 800, TOP) }

  function Everything(visible: InfraGraph): Positions { TypePlaced(Domains(visible), visible, DIRECTORY, 1070, TOP) }

  lemma RestLaid(visible: InfraGraph)
    requires UniqueBy(IdOf, visible.nodes)
    requires Laid(ComposePlaced(Hosts(visible, 270), visible, 530, 800), visible.nodes, HostColumns(270, 530, 800))
    ensures Laid(Everything(visible), visible.nodes, Columns(EVERYTHING))
  {
    hide TypePlaced, ComposePlaced, UniqueBy, Laid, Hosts;
    var grouped, columns := ComposePlaced(Hosts(visible, 270), visible, 530, 800), HostColumns(270, 530, 800);
    TypeLaid(grouped, visible, columns, PORT, 1070, TOP);
    TypeLaid(Ports(visible), visible, columns[PORT := 1070], MOUNT, 1070, TOP + |SortedOf(visible.nodes, PORT)| * STEP);
    columns := columns[PORT := 1070][MOUNT := 1070];
    TypeLaid(Mounts(visible), visible, columns, NETWORK, 1340, TOP);
    TypeLaid(Networks(visible), visible, columns[NETWORK := 1340], REVERSE_PROXY, 530, TOP);
    columns := columns[NETWORK := 1340][REVERSE_PROXY := 530];
    TypeLaid(Proxies(visible), visible, columns, DOMAIN, 800, TOP);
    TypeLaid(Domains(visible), visible, columns[DOMAIN := 800], DIRECTORY, 1070, TOP);
    assert columns[DOMAIN := 800][DIRECTORY := 1070] == Columns(EVERYTHING);
  }

  // ----- ports above mounts -----

  ghost predicate Above(p: Positions, top: set<string>, below: set<string>) {
    forall a, b :: a in top && b in below ==> a in p && b in p && p[a].y + STEP <= p[b].y
  }

  lemma ColumnsAbove(p: Positions, ports: seq<InfraNode>, mounts: seq<InfraNode>, x: int)
    requires NodeIds(ports) !! NodeIds(mounts)
    ensures Above(Placed(Placed(p, ports, x, TOP), mounts, x, TOP + |ports| * STEP), NodeIds(ports), NodeIds(mounts))
  {
    var first := Placed(p, ports, x, TOP);
    var second := Placed(first, mounts, x, TOP + |ports| * STEP);
    hide *;
    forall a, b | a in NodeIds(ports) && b in NodeIds(mounts) ensures a in second && b in second && second[a].y + STEP <= second[b].y {
      var k := PlacedSlot(p, ports, x, TOP, a);
      var l := PlacedSlot(first, mounts, x, TOP + |ports| * STEP, b);
      var m := PlacedSlot(first, mounts, x, TOP + |ports| * STEP, a);
      SlotsFollow(first[a].y, second[b].y, k, |ports|, l);
    }
    AboveIntro(second, NodeIds(ports), NodeIds(mounts));
  }

  lemma SlotsFollow(y: int, z: int, k: int, ports: int, l: int)
    requires k < ports && 0 <= l && y == TOP + k * STEP && z == TOP + ports * STEP + l * STEP
    ensures y + STEP <= z
  {
  }

  lemma AboveIntro(p: Positions, top: set<string>, below: set<string>)
    requires forall a, b :: a in top && b in below ==> a in p && b in p && p[a].y + STEP <= p[b].y
    ensures Above(p, top, below)
  {
  }

  lemma MountsBelow(visible: InfraGraph)
    requires UniqueBy(IdOf, visible.nodes)
    ensures Above(Mounts(visible), TypeIds(visible.nodes, PORT), TypeIds(visible.nodes, MOUNT))
  {
    hide Placed, SortedOf, NodeIds, TypeIds, UniqueBy, ComposePlaced, Hosts, Above;
    var p := ComposePlaced(Hosts(visible, 270), visible, 530, 800);
    assert Mounts(visible) ==
      Placed(Placed(p, SortedOf(visible.nodes, PORT), 1070, TOP), SortedOf(visible.nodes, MOUNT), 1070, TOP + |SortedOf(visible.nodes, PORT)| * STEP);
    hide *;
    TypesDisjoint(visible.nodes, PORT, MOUNT);
    SortedIds(visible.nodes, PORT);
    SortedIds(visible.nodes, MOUNT);
    ColumnsAbove(p, SortedOf(visible.nodes, PORT), SortedOf(visible.nodes, MOUNT), 1070);
  }

  lemma AboveKept(p: Positions, visible: InfraGraph, t: NodeType, x: int, y: int)
    requires UniqueBy(IdOf, visible.nodes) && t != PORT && t != MOUNT
    requires Above(p, TypeIds(visible.nodes, PORT), TypeIds(visible.nodes, MOUNT))
    ensures Above(TypePlaced(p, visible, t, x, y), TypeIds(visible.nodes, PORT), TypeIds(visible.nodes, MOUNT))
  {
    TypeFrame(p, visible, t, x, y, PORT);
    TypeFrame(p, visible, t, x, y, MOUNT);
    hide TypePlaced, TypeIds, UniqueBy;
  }

  lemma PortsAboveMounts(visible: InfraGraph)
    requires UniqueBy(IdOf, visible.nodes)
    ensures Above(Everything(visible), TypeIds(visible.nodes, PORT), TypeIds(visible.nodes, MOUNT))
  {
    hide TypePlaced, TypeIds, UniqueBy, Above, Mounts;
    MountsBelow(visible);
    AboveKept(Mounts(visible), visible, NETWORK, 1340, TOP);
    AboveKept(Networks(visible), visible, REVERSE_PROXY, 530, TOP);
    AboveKept(Proxies(visible), visible, DOMAIN, 800, TOP);
    AboveKept(Domains(visible), visible, DIRECTORY, 1070, TOP);
  }

  // ----- a whole view -----

  /** All nodes are placed, and two nodes in one column are 142 apart, two projects 176. */
  ghost predicate Spaced(p: Positions, nodes: seq<InfraNode>) {
    && (forall n :: n in nodes ==> n.id in p)
    && (forall m, n :: m in nodes && n in nodes && m != n && p[m.id].x == p[n.id].x ==>
          Distant(p[m.id].y, p[n.id].y, if m.nodeType == n.nodeType then Gap(m.nodeType) else STEP))
  }

  ghost predicate Has(nodes: seq<InfraNode>, t: NodeType) { exists n :: n in nodes && n.nodeType == t }

  predicate Pair(t: NodeType, u: NodeType, a: NodeType, b: NodeType) { (t == a && u == b) || (t == b && u == a) }

  lemma SameColumn(view: ViewMode, t: NodeType, u: NodeType)
    requires t != u && t in Columns(view) && u in Columns(view) && Columns(view)[t] == Columns(view)[u]
    ensures view == OVERVIEW || view == EVERYTHING
    ensures Pair(t, u, PORT, MOUNT) || Pair(t, u, REVERSE_PROXY, DOCKER_COMPOSE_PROJECT) || Pair(t, u, DOMAIN, DOCKER_CONTAINER)
      || Pair(t, u, DIRECTORY, PORT) || Pair(t, u, DIRECTORY, MOUNT)
  {
  }

  lemma IdOfType(nodes: seq<InfraNode>, n: InfraNode)
    requires n in nodes
    ensures n.id in TypeIds(nodes, n.nodeType)
  {
  }

  lemma NodePlaced(visible: InfraGraph, view: ViewMode, n: InfraNode)
    requires n in visible.nodes && n.nodeType in Columns(view) && Laid(LayoutOf(visible, view), visible.nodes, Columns(view))
    ensures n.id in LayoutOf(visible, view) && LayoutOf(visible, view)[n.id].x == Columns(view)[n.nodeType]
  {
    IdOfType(visible.nodes, n);
    hide LayoutOf, Columns, TypeIds;
  }

  lemma SameTypeApart(p: Positions, nodes: seq<InfraNode>, columns: map<NodeType, int>, m: InfraNode, n: InfraNode)
    requires m in nodes && n in nodes && m.id != n.id && m.nodeType == n.nodeType && m.nodeType in columns && Laid(p, nodes, columns)
    ensures m.id in p && n.id in p && Distant(p[m.id].y, p[n.id].y, Gap(m.nodeType))
  {
    IdOfType(nodes, m);
    IdOfType(nodes, n);
    hide TypeIds, Gap;
  }

  lemma PortMountApart(visible: InfraGraph, m: InfraNode, n: InfraNode)
    requires UniqueBy(IdOf, visible.nodes)
    requires m in visible.nodes && n in visible.nodes && m.nodeType == PORT && n.nodeType == MOUNT
    ensures var p := Everything(visible); m.id in p && n.id in p && Distant(p[m.id].y, p[n.id].y, STEP)
  {
    hide Everything, TypeIds, UniqueBy;
    PortsAboveMounts(visible);
    IdOfType(visible.nodes, m);
    IdOfType(visible.nodes, n);
    assert Everything(visible)[m.id].y + STEP <= Everything(visible)[n.id].y;
  }

  lemma LastStep(visible: InfraGraph, view: ViewMode)
    requires view == OVERVIEW || view == EVERYTHING
    ensures LayoutOf(visible, view) == Everything(visible)
  {
    hide TypePlaced, ComposePlaced, Hosts;
  }

  lemma ColumnsCover(view: ViewMode)
    ensures ViewTypes(view) <= Columns(view).Keys
  {
  }

  // ----- what stays where it is -----

  /** The first node of a type stands at the top of its column. */
  lemma FirstPlaced(p: Positions, visible: InfraGraph, t: NodeType, x: int, y: int) returns (n: InfraNode)
    requires UniqueBy(IdOf, visible.nodes) && Has(visible.nodes, t)
    ensures n in visible.nodes && n.nodeType == t
    ensures n.id in TypePlaced(p, visible, t, x, y) && TypePlaced(p, visible, t, x, y)[n.id] == Position(x, y)
  {
    var nodes := SortedOf(visible.nodes, t);
    SortedIds(visible.nodes, t);
    SortedUnique(visible.nodes, t);
    hide Placed, SortedOf;
    var m :| m in visible.nodes && m.nodeType == t;
    assert m in nodes;
    n := nodes[0];
    assert n.id in NodeIds(nodes);
    var k := PlacedSlot(p, nodes, x, y, n.id);
    assert IdOf(nodes[0]) == IdOf(nodes[k]);
  }

  /** The steps after the groups move none of the groups' nodes. */
  lemma GroupsStay(visible: InfraGraph, t: NodeType)
    requires UniqueBy(IdOf, visible.nodes)
    requires t == DOCKER_CONTAINER || t == DOCKER_COMPOSE_PROJECT
    ensures Same(ComposePlaced(Hosts(visible, 270), visible, 530, 800), Everything(visible), TypeIds(visible.nodes, t))
  {
    var p := ComposePlaced(Hosts(visible, 270), visible, 530, 800);
    hide TypePlaced, ComposePlaced, Hosts, UniqueBy, TypeIds;
    TypeFrame(p, visible, PORT, 1070, TOP, t);
    TypeFrame(Ports(visible), visible, MOUNT, 1070, TOP + |SortedOf(visible.nodes, PORT)| * STEP, t);
    TypeFrame(Mounts(visible), visible, NETWORK, 1340, TOP, t);
    TypeFrame(Networks(visible), visible, REVERSE_PROXY, 530, TOP, t);
    TypeFrame(Proxies(visible), visible, DOMAIN, 800, TOP, t);
    TypeFrame(Domains(visible), visible, DIRECTORY, 1070, TOP, t);
  }

  lemma Present(visible: InfraGraph, t: NodeType)
    requires SortedOf(visible.nodes, t) != []
    ensures Has(visible.nodes, t)
  {
    SortedIds(visible.nodes, t);
    hide SortedOf;
    assert SortedOf(visible.nodes, t)[0] in SortedOf(visible.nodes, t);
  }

  lemma Absent(visible: InfraGraph, t: NodeType)
    requires !Has(visible.nodes, t)
    ensures SortedOf(visible.nodes, t) == []
  {
    hide SortedOf, Has;
    if SortedOf(visible.nodes, t) != [] { Present(visible, t); }
  }
}

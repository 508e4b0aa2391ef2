/** Positions of visible nodes: columns by type, containers beside their projects. */
module GraphLayout {
  import opened Ordering
  import opened Collections
  import opened Graphs
  import opened GraphView

  const TOP := 64
  const STEP := 142
  const HALF_STEP := 71
  const GROUP_GAP := 34
  const HOST_TOP := 310

  datatype Position = Position(x: int, y: int)

  type Positions = map<string, Position>

  predicate LabelLe(a: InfraNode, b: InfraNode) { KeysLe([a.title, a.id], [b.title, b.id]) }

  function OfType(t: NodeType): InfraNode -> bool { (n: InfraNode) => n.nodeType == t }

  function SortedOf(nodes: seq<InfraNode>, t: NodeType): seq<InfraNode> { SortBy(LabelLe, Filter(OfType(t), nodes)) }

  /** `place`: a column with one node every 142. */
  function Placed(positions: Positions, nodes: seq<InfraNode>, x: int, startY: int): Positions {
    if nodes == [] then positions
    else
      var n := |nodes| - 1;
      Placed(positions, nodes[..n], x, startY)[nodes[n].id := Position(x, startY + n * STEP)]
  }

  // ----- compose groups -----

  function WithId(containers: seq<InfraNode>, id: string): Option<InfraNode> {
    if containers == [] then None
    else if containers[0].id == id then Some(containers[0])
    else WithId(containers[1..], id)
  }

  /** The container that an edge puts into a project. */
  function ClaimOf(containers: seq<InfraNode>, project: string): InfraEdge -> Option<InfraNode> {
    (e: InfraEdge) => if e.relation == CONTAINS && e.source == project then WithId(containers, e.target) else None
  }

  function Claims(containers: seq<InfraNode>, edges: seq<InfraEdge>, project: string): seq<InfraNode> {
    FilterMap(ClaimOf(containers, project), edges)
  }

  function MembersOf(containers: seq<InfraNode>, edges: seq<InfraEdge>, project: string): seq<InfraNode> {
    SortBy(LabelLe, Claims(containers, edges, project))
  }

  function Max(a: int, b: int): int { if a >= b then a else b }

  /** The height of a project's group. */
  function GroupHeight(members: nat): int { Max(1, members) * STEP + GROUP_GAP }

  function ProjectTop(y: int, members: nat): int { y + Max(0, (members - 1) * HALF_STEP) }

  datatype Groups = Groups(positions: Positions, y: int)

  /** The positions after some projects, and where the next group starts. */
  function GroupsPlaced(positions: Positions, projects: seq<InfraNode>, members: string -> seq<InfraNode>, projectX: int, containerX: int): Groups {
    if projects == [] then Groups(positions, TOP)
    else
      var n := |projects| - 1;
      var before := GroupsPlaced(positions, projects[..n], members, projectX, containerX);
      var own := members(projects[n].id);
      Groups(Placed(before.positions[projects[n].id := Position(projectX, ProjectTop(before.y, |own|))], own, containerX, before.y),
        before.y + GroupHeight(|own|))
  }

  function MembersIn(visible: InfraGraph): string -> seq<InfraNode> {
    (project: string) => MembersOf(SortedOf(visible.nodes, DOCKER_CONTAINER), visible.edges, project)
  }

  function GroupedIds(projects: seq<InfraNode>, members: string -> seq<InfraNode>): set<string> {
    set p, m | p in projects && m in members(p.id) :: m.id
  }

  function NotIn(ids: set<string>): InfraNode -> bool { (n: InfraNode) => n.id !in ids }

  /** `placeComposeGroups` */
  function ComposePlaced(positions: Positions, visible: InfraGraph, projectX: int, containerX: int): Positions {
    var projects, containers := SortedOf(visible.nodes, DOCKER_COMPOSE_PROJECT), SortedOf(visible.nodes, DOCKER_CONTAINER);
    var groups := GroupsPlaced(positions, projects, MembersIn(visible), projectX, containerX);
    Placed(groups.positions, Filter(NotIn(GroupedIds(projects, MembersIn(visible))), containers), containerX, groups.y)
  }

  // ----- views -----

  function TypePlaced(positions: Positions, visible: InfraGraph, t: NodeType, x: int, startY: int): Positions {
    Placed(positions, SortedOf(visible.nodes, t), x, startY)
  }

  function Hosts(visible: InfraGraph, engineX: int): Positions {
    TypePlaced(TypePlaced(map[], visible, SERVER, 32, HOST_TOP), visible, DOCKER_ENGINE, engineX, HOST_TOP)
  }

  /** `layoutVisibleGraph` */
  function LayoutOf(visible: InfraGraph, view: ViewMode): Positions {
    match view
    case NETWORKING =>
      var grouped := ComposePlaced(Hosts(visible, 245), visible, 470, 730);
      TypePlaced(TypePlaced(grouped, visible, NETWORK, 1000, TOP), visible, PORT, 1270, TOP)
    case STORAGE =>
      TypePlaced(ComposePlaced(Hosts(visible, 245), visible, 470, 730), visible, MOUNT, 1010, TOP)
    case _ =>
      var grouped := ComposePlaced(Hosts(visible, 270), visible, 530, 800);
      var ports := TypePlaced(grouped, visible, PORT, 1070, TOP);
      var mounts := TypePlaced(ports, visible, MOUNT, 1070, TOP + |SortedOf(visible.nodes, PORT)| * STEP);
      var networks := TypePlaced(mounts, visible, NETWORK, 1340, TOP);
      var proxies := TypePlaced(networks, visible, REVERSE_PROXY, 530, TOP);
      TypePlaced(TypePlaced(proxies, visible, DOMAIN, 800, TOP), visible, DIRECTORY, 1070, TOP)
  }

  // ----- as computed -----

  lemma PlacedStep(positions: Positions, nodes: seq<InfraNode>, x: int, startY: int, i: nat)
    requires i < |nodes|
    ensures Placed(positions, nodes[..i + 1], x, startY) ==
      Placed(positions, nodes[..i], x, startY)[nodes[i].id := Position(x, startY + i * STEP)]
  {
    assert nodes[..i + 1][..i] == nodes[..i];
  }

  method Place(positions: Positions, nodes: seq<InfraNode>, x: int, startY: int) returns (placed: Positions)
    ensures placed == Placed(positions, nodes, x, startY)
  {
    placed := positions;
    for i := 0 to |nodes|
      invariant placed == Placed(positions, nodes[..i], x, startY)
    {
      PlacedStep(positions, nodes, x, startY, i);
      placed := placed[nodes[i].id := Position(x, startY + i * STEP)];
    }
    assert nodes[..|nodes|] == nodes;
  }

  /** The loop that assigns containers to the projects that contain them. */
  method ClaimContainers(projects: set<string>, containers: seq<InfraNode>, edges: seq<InfraEdge>) returns (groups: map<string, seq<InfraNode>>)
    ensures groups.Keys == projects && forall p :: p in projects ==> groups[p] == Claims(containers, edges, p)
  {
    groups := map p | p in projects :: [];
    hide FilterMap, WithId;
    NothingClaimed(containers, edges);
    for i := 0 to |edges|
      invariant groups.Keys == projects && forall p :: p in projects ==> groups[p] == Claims(containers, edges[..i], p)
    {
      ghost var before := groups;
      forall p ensures ClaimOf(containers, p)(edges[i]).None? ==> Claims(containers, edges[..i + 1], p) == Claims(containers, edges[..i], p)
        ensures ClaimOf(containers, p)(edges[i]).Some? ==>
          Claims(containers, edges[..i + 1], p) == Claims(containers, edges[..i], p) + [ClaimOf(containers, p)(edges[i]).value]
      {
        FilterMapStep(ClaimOf(containers, p), edges, i);
      }
      if edges[i].relation == CONTAINS {
        var container := WithId(containers, edges[i].target);
        if container.Some? && edges[i].source in groups {
          groups := groups[edges[i].source := groups[edges[i].source] + [container.value]];
        }
      }
    }
    assert edges[..|edges|] == edges;
  }

  lemma NothingClaimed(containers: seq<InfraNode>, edges: seq<InfraEdge>)
    ensures forall p :: Claims(containers, edges[..0], p) == []
  {
  }

  method PlaceComposeGroups(positions: Positions, visible: InfraGraph, projectX: int, containerX: int) returns (placed: Positions)
    ensures placed == ComposePlaced(positions, visible, projectX, containerX)
  {
    hide SortBy, Filter, FilterMap, Placed, Claims, Max;
    var projects, containers := SortedOf(visible.nodes, DOCKER_COMPOSE_PROJECT), SortedOf(visible.nodes, DOCKER_CONTAINER);
    var ids := set p | p in projects :: p.id;
    var claimed := ClaimContainers(ids, containers, visible.edges);
    ghost var members := MembersIn(visible);
    var grouped: set<string> := {};
    var y := TOP;
    placed := positions;
    NoGroups(positions, projects, members, projectX, containerX);
    for i := 0 to |projects|
      invariant Groups(placed, y) == GroupsPlaced(positions, projects[..i], members, projectX, containerX)
      invariant grouped == GroupedIds(projects[..i], members)
    {
      var project := projects[i];
      assert project in projects && project.id in ids;
      var own := SortBy(LabelLe, claimed[project.id]);
      assert own == members(project.id);
      GroupsStep(positions, projects, members, projectX, containerX, i);
      placed := placed[project.id := Position(projectX, ProjectTop(y, |own|))];
      placed := Place(placed, own, containerX, y);
      y := y + GroupHeight(|own|);
      grouped := grouped + set m | m in own :: m.id;
    }
    assert projects[..|projects|] == projects;
    placed := Place(placed, Filter(NotIn(grouped), containers), containerX, y);
  }

  lemma NoGroups(positions: Positions, projects: seq<InfraNode>, members: string -> seq<InfraNode>, projectX: int, containerX: int)
    ensures GroupsPlaced(positions, projects[..0], members, projectX, containerX) == Groups(positions, TOP)
    ensures GroupedIds(projects[..0], members) == {}
  {
  }

  lemma GroupsStep(positions: Positions, projects: seq<InfraNode>, members: string -> seq<InfraNode>, projectX: int, containerX: int, i: nat)
    requires i < |projects|
    ensures var before := GroupsPlaced(positions, projects[..i], members, projectX, containerX);
      var own := members(projects[i].id);
      GroupsPlaced(positions, projects[..i + 1], members, projectX, containerX) ==
        Groups(Placed(before.positions[projects[i].id := Position(projectX, ProjectTop(before.y, |own|))], own, containerX, before.y),
          before.y + GroupHeight(|own|))
    ensures GroupedIds(projects[..i + 1], members) == GroupedIds(projects[..i], members) + set m | m in members(projects[i].id) :: m.id
  {
    assert projects[..i + 1][..i] == projects[..i];
    assert projects[..i + 1] == projects[..i] + [projects[i]];
    hide Placed, GroupHeight, ProjectTop;
    forall id ensures id in GroupedIds(projects[..i + 1], members) <==>
      id in GroupedIds(projects[..i], members) || exists m :: m in members(projects[i].id) && m.id == id
    {
    }
  }

  method LayoutVisibleGraph(visible: InfraGraph, view: ViewMode) returns (positions: Positions)
    ensures positions == LayoutOf(visible, view)
  {
    hide Placed, ComposePlaced, SortedOf;
    var wide := view == NETWORKING || view == STORAGE;
    positions := Place(map[], SortedOf(visible.nodes, SERVER), 32, HOST_TOP);
    positions := Place(positions, SortedOf(visible.nodes, DOCKER_ENGINE), if wide then 245 else 270, HOST_TOP);
    positions := PlaceComposeGroups(positions, visible, if wide then 470 else 530, if wide then 730 else 800);
    match view
    case NETWORKING =>
      positions := Place(positions, SortedOf(visible.nodes, NETWORK), 1000, TOP);
      positions := Place(positions, SortedOf(visible.nodes, PORT), 1270, TOP);
    case STORAGE =>
      positions := Place(positions, SortedOf(visible.nodes, MOUNT), 1010, TOP);
    case _ =>
      positions := Place(positions, SortedOf(visible.nodes, PORT), 1070, TOP);
      positions := Place(positions, SortedOf(visible.nodes, MOUNT), 1070, TOP + |SortedOf(visible.nodes, PORT)| * STEP);
      positions := Place(positions, SortedOf(visible.nodes, NETWORK), 1340, TOP);
      positions := Place(positions, SortedOf(visible.nodes, REVERSE_PROXY), 530, TOP);
      positions := Place(positions, SortedOf(visible.nodes, DOMAIN), 800, TOP);
      positions := Place(positions, SortedOf(visible.nodes, DIRECTORY), 1070, TOP);
  }
}

/** In the views with one column per type, no two nodes come too close. */
module LayoutSpacing {
  import opened Ordering
  import opened Collections
  import opened Graphs
  import opened GraphView
  import opened GraphLayout

  const IdOf := (n: InfraNode) => n.id

  const PROJECT_GAP := STEP + GROUP_GAP

  predicate Distant(y: int, z: int, gap: int) { y - z >= gap || z - y >= gap }

  /** All the identifiers are placed in one column, at least a gap apart. */
  ghost predicate Column(p: Positions, ids: set<string>, x: int, gap: int) {
    && (forall a :: a in ids ==> a in p && p[a].x == x)
    && (forall a, b :: a in ids && b in ids && a != b ==> Distant(p[a].y, p[b].y, gap))
  }

  ghost predicate Same(p: Positions, q: Positions, ids: set<string>) {
    forall id :: id in ids ==> (id in p <==> id in q) && (id in p ==> p[id] == q[id])
  }

  lemma ColumnKept(p: Positions, q: Positions, ids: set<string>, x: int, gap: int)
    requires Column(p, ids, x, gap) && Same(p, q, ids)
    ensures Column(q, ids, x, gap)
  {
  }

  /** Placing puts every listed node into a slot of its own and moves nothing else. */
  lemma {:induction false} PlacedSlot(p: Positions, nodes: seq<InfraNode>, x: int, startY: int, id: string) returns (k: int)
    ensures id in NodeIds(nodes) ==> 0 <= k < |nodes| && nodes[k].id == id
    ensures id in NodeIds(nodes) ==> id in Placed(p, nodes, x, startY) && Placed(p, nodes, x, startY)[id] == Position(x, startY + k * STEP)
    ensures id !in NodeIds(nodes) ==> Same(Placed(p, nodes, x, startY), p, {id})
  {
    k := 0;
    if nodes != [] {
      var n := |nodes| - 1;
      assert nodes == nodes[..n] + [nodes[n]];
      if nodes[n].id == id {
        k := n;
      } else {
        k := PlacedSlot(p, nodes[..n], x, startY, id);
        if id in NodeIds(nodes) {
          var m :| m in nodes && m.id == id;
          assert m in nodes[..n];
        }
      }
    }
  }

  lemma PlacedColumn(p: Positions, nodes: seq<InfraNode>, x: int, startY: int)
    ensures var q := Placed(p, nodes, x, startY);
      && Column(q, NodeIds(nodes), x, STEP)
      && (forall id :: id in NodeIds(nodes) ==> startY <= q[id].y <= startY + (|nodes| - 1) * STEP)
      && (forall id :: id !in NodeIds(nodes) ==> Same(q, p, {id}))
  {
    var q := Placed(p, nodes, x, startY);
    hide Placed;
    forall id | id in NodeIds(nodes)
      ensures id in q && q[id].x == x && startY <= q[id].y <= startY + (|nodes| - 1) * STEP
    {
      var k := PlacedSlot(p, nodes, x, startY, id);
    }
    forall a, b | a in NodeIds(nodes) && b in NodeIds(nodes) && a != b ensures Distant(q[a].y, q[b].y, STEP) {
      var k := PlacedSlot(p, nodes, x, startY, a);
      var l := PlacedSlot(p, nodes, x, startY, b);
      SlotsApart(startY, k, l);
    }
    forall id | id !in NodeIds(nodes) ensures Same(q, p, {id}) { var k := PlacedSlot(p, nodes, x, startY, id); }
  }

  lemma SlotsApart(startY: int, k: int, l: int)
    requires k != l
    ensures Distant(startY + k * STEP, startY + l * STEP, STEP)
  {
  }

  // ----- compose groups -----

  /** What holds after some projects: both columns are spaced and the next group starts clear of them. */
  ghost predicate GroupsSpaced(g: Groups, projects: set<string>, grouped: set<string>, projectX: int, containerX: int) {
    && g.y >= TOP
    && Column(g.positions, projects, projectX, PROJECT_GAP)
    && Column(g.positions, grouped, containerX, STEP)
    && (forall id :: id in projects ==> g.positions[id].y + PROJECT_GAP <= g.y)
    && (forall id :: id in grouped ==> g.positions[id].y + PROJECT_GAP <= g.y)
  }

  lemma GroupSize(y: int, members: nat)
    ensures ProjectTop(y, members) >= y
    ensures ProjectTop(y, members) + PROJECT_GAP <= y + GroupHeight(members)
    ensures members >= 1 ==> y + (members - 1) * STEP + PROJECT_GAP <= y + GroupHeight(members)
    ensures GroupHeight(members) >= PROJECT_GAP
  {
  }

  lemma ProjectAdded(p: Positions, projects: set<string>, id: string, x: int, y: int, top: int)
    requires Column(p, projects, x, PROJECT_GAP) && id !in projects && y >= top
    requires forall a :: a in projects ==> p[a].y + PROJECT_GAP <= top
    ensures Column(p[id := Position(x, y)], projects + {id}, x, PROJECT_GAP)
  {
  }

  /** Containers claimed again move to the new group; all of them stay spaced. */
  lemma MembersAdded(p: Positions, grouped: set<string>, own: seq<InfraNode>, x: int, y: int)
    requires Column(p, grouped, x, STEP) && forall a :: a in grouped ==> p[a].y + PROJECT_GAP <= y
    ensures Column(Placed(p, own, x, y), grouped + NodeIds(own), x, STEP)
  {
    PlacedColumn(p, own, x, y);
    var q := Placed(p, own, x, y);
    hide Placed, NodeIds;
    forall a, b | a in grouped + NodeIds(own) && b in grouped + NodeIds(own) && a != b ensures Distant(q[a].y, q[b].y, STEP) {
      if a !in NodeIds(own) { assert Same(q, p, {a}); }
      if b !in NodeIds(own) { assert Same(q, p, {b}); }
    }
    forall a | a in grouped + NodeIds(own) ensures a in q && q[a].x == x {
      if a !in NodeIds(own) { assert Same(q, p, {a}); }
    }
  }

  /** A group's project leaves every earlier project at least a gap above. */
  lemma GroupProject(g: Groups, projects: set<string>, grouped: set<string>, id: string, members: nat, projectX: int, containerX: int)
    requires GroupsSpaced(g, projects, grouped, projectX, containerX)
    requires id !in projects && id !in grouped
    ensures var p := g.positions[id := Position(projectX, ProjectTop(g.y, members))];
      && Column(p, projects + {id}, projectX, PROJECT_GAP)
      && Column(p, grouped, containerX, STEP)
      && (forall a :: a in projects + {id} ==> p[a].y + PROJECT_GAP <= g.y + GroupHeight(members))
      && (forall a :: a in grouped ==> p[a].y + PROJECT_GAP <= g.y)
  {
    GroupSize(g.y, members);
    ProjectAdded(g.positions, projects, id, projectX, ProjectTop(g.y, members), g.y);
    hide ProjectTop, GroupHeight;
    ColumnKept(g.positions, g.positions[id := Position(projectX, ProjectTop(g.y, members))], grouped, containerX, STEP);
  }

  /** A group's containers leave the projects alone and end a gap above the next group. */
  lemma GroupMembers(p: Positions, y: int, projects: set<string>, grouped: set<string>, own: seq<InfraNode>, projectX: int, containerX: int)
    requires y >= TOP && projects !! NodeIds(own)
    requires Column(p, projects, projectX, PROJECT_GAP) && Column(p, grouped, containerX, STEP)
    requires forall a :: a in projects ==> p[a].y + PROJECT_GAP <= y + GroupHeight(|own|)
    requires forall a :: a in grouped ==> p[a].y + PROJECT_GAP <= y
    ensures GroupsSpaced(Groups(Placed(p, own, containerX, y), y + GroupHeight(|own|)), projects, grouped + NodeIds(own), projectX, containerX)
  {
    var q := Placed(p, own, containerX, y);
    GroupSize(y, |own|);
    MembersAdded(p, grouped, own, containerX, y);
    PlacedColumn(p, own, containerX, y);
    NoMembers(own);
    hide Placed, NodeIds, GroupHeight;
    ProjectsStay(p, q, projects, NodeIds(own), projectX);
    forall a | a in projects ensures q[a].y + PROJECT_GAP <= y + GroupHeight(|own|) { assert Same(q, p, {a}); }
    forall a | a in grouped + NodeIds(own) ensures q[a].y + PROJECT_GAP <= y + GroupHeight(|own|) {
      if a !in NodeIds(own) { assert Same(q, p, {a}); }
    }
  }

  lemma NoMembers(own: seq<InfraNode>)
    ensures NodeIds(own) != {} ==> |own| >= 1
  {
  }

  lemma FrontIds(projects: seq<InfraNode>)
    requires UniqueBy(IdOf, projects) && projects != []
    ensures var front, last := projects[..|projects| - 1], projects[|projects| - 1];
      && projects == front + [last] && UniqueBy(IdOf, front)
      && NodeIds(projects) == NodeIds(front) + {last.id} && last.id !in NodeIds(front)
  {
    var n := |projects| - 1;
    var front, last := projects[..n], projects[n];
    assert projects == front + [last];
    forall x | x in front ensures x.id != last.id {
      var i :| 0 <= i < n && front[i] == x;
      assert IdOf(projects[i]) != IdOf(projects[n]);
    }
  }

  lemma {:induction false} GroupsInvariant(p: Positions, projects: seq<InfraNode>, members: string -> seq<InfraNode>, projectX: int, containerX: int)
    requires UniqueBy(IdOf, projects)
    requires forall a :: NodeIds(projects) !! NodeIds(members(a))
    ensures var g := GroupsPlaced(p, projects, members, projectX, containerX);
      GroupsSpaced(g, NodeIds(projects), GroupedIds(projects, members), projectX, containerX)
  {
    if projects == [] {
      assert GroupedIds(projects, members) == {} && NodeIds(projects) == {};
    } else {
      FrontIds(projects);
      var n := |projects| - 1;
      var front, last := projects[..n], projects[n];
      GroupedStep(front, last, members);
      hide NodeIds, GroupedIds, ProjectTop, GroupHeight, Placed, Column, UniqueBy;
      GroupsInvariant(p, front, members, projectX, containerX);
      GroupedWithin(front, members, NodeIds(projects));
      var g, own := GroupsPlaced(p, front, members, projectX, containerX), members(last.id);
      GroupProject(g, NodeIds(front), GroupedIds(front, members), last.id, |own|, projectX, containerX);
      GroupMembers(g.positions[last.id := Position(projectX, ProjectTop(g.y, |own|))], g.y,
        NodeIds(projects), GroupedIds(front, members), own, projectX, containerX);
    }
  }

  /** Groups move only projects and containers claimed by one. */
  lemma {:induction false} GroupsFrame(p: Positions, projects: seq<InfraNode>, members: string -> seq<InfraNode>, projectX: int, containerX: int, id: string)
    requires id !in NodeIds(projects) && id !in GroupedIds(projects, members)
    ensures Same(GroupsPlaced(p, projects, members, projectX, containerX).positions, p, {id})
  {
    if projects != [] {
      var n := |projects| - 1;
      var front, last := projects[..n], projects[n];
      assert projects == front + [last];
      GroupedStep(front, last, members);
      assert id != last.id;
      hide GroupedIds, ProjectTop, GroupHeight, Placed;
      GroupsFrame(p, front, members, projectX, containerX, id);
      var g, own := GroupsPlaced(p, front, members, projectX, containerX), members(last.id);
      var k := PlacedSlot(g.positions[last.id := Position(projectX, ProjectTop(g.y, |own|))], own, containerX, g.y, id);
    }
  }

  lemma GroupedStep(front: seq<InfraNode>, last: InfraNode, members: string -> seq<InfraNode>)
    ensures GroupedIds(front + [last], members) == GroupedIds(front, members) + NodeIds(members(last.id))
  {
    var projects := front + [last];
    forall id ensures id in GroupedIds(projects, members) <==> id in GroupedIds(front, members) || id in NodeIds(members(last.id)) {
      if id in GroupedIds(front, members) {
        var q, m :| q in front && m in members(q.id) && m.id == id;
        assert q in projects;
      }
      if id in NodeIds(members(last.id)) { assert last in projects; }
    }
  }

  /** Grouped identifiers avoid whatever every group avoids. */
  lemma GroupedWithin(projects: seq<InfraNode>, members: string -> seq<InfraNode>, others: set<string>)
    requires forall a :: others !! NodeIds(members(a))
    ensures others !! GroupedIds(projects, members)
  {
    forall id | id in GroupedIds(projects, members) ensures id !in others {
      var q, m :| q in projects && m in members(q.id) && m.id == id;
      assert id in NodeIds(members(q.id));
    }
  }

  // ----- types have identifiers of their own -----

  function TypeIds(nodes: seq<InfraNode>, t: NodeType): set<string> { set n | n in nodes && n.nodeType == t :: n.id }

  lemma SortedIds(nodes: seq<InfraNode>, t: NodeType)
    ensures NodeIds(SortedOf(nodes, t)) == TypeIds(nodes, t)
    ensures forall n :: n in SortedOf(nodes, t) <==> n in nodes && n.nodeType == t
  {
    SortByElements(LabelLe, Filter(OfType(t), nodes));
    forall n ensures n in SortedOf(nodes, t) <==> n in nodes && n.nodeType == t { FilterMember(OfType(t), nodes, n); }
    hide SortedOf;
  }

  lemma SortedUnique(nodes: seq<InfraNode>, t: NodeType)
    requires UniqueBy(IdOf, nodes)
    ensures UniqueBy(IdOf, SortedOf(nodes, t))
  {
    FilterUniqueBy(IdOf, OfType(t), nodes);
    UniqueByPermutation(IdOf, Filter(OfType(t), nodes), SortedOf(nodes, t));
  }

  lemma SameNode(nodes: seq<InfraNode>, n: InfraNode, m: InfraNode)
    requires UniqueBy(IdOf, nodes) && n in nodes && m in nodes && n.id == m.id
    ensures n == m
  {
    var i :| 0 <= i < |nodes| && nodes[i] == n;
    var j :| 0 <= j < |nodes| && nodes[j] == m;
    assert IdOf(nodes[i]) == IdOf(nodes[j]);
  }

  lemma TypesDisjoint(nodes: seq<InfraNode>, t: NodeType, u: NodeType)
    requires UniqueBy(IdOf, nodes) && t != u
    ensures TypeIds(nodes, t) !! TypeIds(nodes, u)
  {
    hide UniqueBy;
    forall n, m | n in nodes && m in nodes && n.nodeType == t && m.nodeType == u ensures n.id != m.id {
      if n.id == m.id { SameNode(nodes, n, m); }
    }
  }

  lemma {:induction false} FoundContainer(containers: seq<InfraNode>, id: string)
    ensures WithId(containers, id).Some? ==> WithId(containers, id).value in containers
  {
    if containers != [] && containers[0].id != id { FoundContainer(containers[1..], id); }
  }

  lemma MembersAreContainers(visible: InfraGraph, project: string, m: InfraNode)
    requires m in MembersIn(visible)(project)
    ensures m in SortedOf(visible.nodes, DOCKER_CONTAINER)
  {
    var containers := SortedOf(visible.nodes, DOCKER_CONTAINER);
    SortByElements(LabelLe, Claims(containers, visible.edges, project));
    hide SortBy, SortedOf, FilterMap, WithId;
    var e := FilterMapOrigin(ClaimOf(containers, project), visible.edges, m);
    FoundContainer(containers, e.target);
  }

  // ----- compose groups in a view -----

  lemma MembersDisjoint(visible: InfraGraph, project: string)
    requires UniqueBy(IdOf, visible.nodes)
    ensures TypeIds(visible.nodes, DOCKER_COMPOSE_PROJECT) !! NodeIds(MembersIn(visible)(project))
    ensures NodeIds(MembersIn(visible)(project)) <= TypeIds(visible.nodes, DOCKER_CONTAINER)
  {
    TypesDisjoint(visible.nodes, DOCKER_COMPOSE_PROJECT, DOCKER_CONTAINER);
    SortedIds(visible.nodes, DOCKER_CONTAINER);
    hide MembersIn, SortedOf;
    forall id | id in NodeIds(MembersIn(visible)(project)) ensures id in TypeIds(visible.nodes, DOCKER_CONTAINER) {
      var m :| m in MembersIn(visible)(project) && m.id == id;
      MembersAreContainers(visible, project, m);
    }
  }

  lemma RestIds(containers: seq<InfraNode>, grouped: set<string>)
    requires grouped <= NodeIds(containers)
    ensures grouped + NodeIds(Filter(NotIn(grouped), containers)) == NodeIds(containers)
    ensures NodeIds(Filter(NotIn(grouped), containers)) !! grouped
  {
    forall n ensures n in Filter(NotIn(grouped), containers) <==> n in containers && n.id !in grouped {
      FilterMember(NotIn(grouped), containers, n);
    }
    hide Filter;
  }

  lemma GroupsInView(p: Positions, visible: InfraGraph, projectX: int, containerX: int)
    requires UniqueBy(IdOf, visible.nodes)
    ensures var projects, members := SortedOf(visible.nodes, DOCKER_COMPOSE_PROJECT), MembersIn(visible);
      && GroupsSpaced(GroupsPlaced(p, projects, members, projectX, containerX), NodeIds(projects), GroupedIds(projects, members), projectX, containerX)
      && GroupedIds(projects, members) <= TypeIds(visible.nodes, DOCKER_CONTAINER)
  {
    var projects, members := SortedOf(visible.nodes, DOCKER_COMPOSE_PROJECT), MembersIn(visible);
    SortedIds(visible.nodes, DOCKER_COMPOSE_PROJECT);
    SortedUnique(visible.nodes, DOCKER_COMPOSE_PROJECT);
    hide SortedOf, MembersIn, GroupsPlaced, NodeIds, TypeIds, UniqueBy, GroupsSpaced;
    forall a ensures NodeIds(projects) !! NodeIds(members(a)) && NodeIds(members(a)) <= TypeIds(visible.nodes, DOCKER_CONTAINER) {
      MembersDisjoint(visible, a);
    }
    GroupsInvariant(p, projects, members, projectX, containerX);
    GroupedIncluded(projects, members, TypeIds(visible.nodes, DOCKER_CONTAINER));
  }

  /** Projects are spaced by 176 and containers by 142, however many projects claim a container. */
  lemma ComposeSpaced(p: Positions, visible: InfraGraph, projectX: int, containerX: int)
    requires UniqueBy(IdOf, visible.nodes)
    ensures var q := ComposePlaced(p, visible, projectX, containerX);
      && Column(q, TypeIds(visible.nodes, DOCKER_COMPOSE_PROJECT), projectX, PROJECT_GAP)
      && Column(q, TypeIds(visible.nodes, DOCKER_CONTAINER), containerX, STEP)
  {
    var projects, containers := SortedOf(visible.nodes, DOCKER_COMPOSE_PROJECT), SortedOf(visible.nodes, DOCKER_CONTAINER);
    var members := MembersIn(visible);
    var grouped := GroupedIds(projects, members);
    var rest := Filter(NotIn(grouped), containers);
    var g := GroupsPlaced(p, projects, members, projectX, containerX);
    GroupsInView(p, visible, projectX, containerX);
    SortedIds(visible.nodes, DOCKER_COMPOSE_PROJECT);
    SortedIds(visible.nodes, DOCKER_CONTAINER);
    TypesDisjoint(visible.nodes, DOCKER_COMPOSE_PROJECT, DOCKER_CONTAINER);
    hide SortedOf, MembersIn, GroupsPlaced, Placed, Filter, NodeIds, TypeIds, UniqueBy, Column;
    RestIds(containers, grouped);
    MembersAdded(g.positions, grouped, rest, containerX, g.y);
    PlacedColumn(g.positions, rest, containerX, g.y);
    ProjectsStay(g.positions, Placed(g.positions, rest, containerX, g.y), NodeIds(projects), NodeIds(rest), projectX);
  }

  /** Placing the groups moves only projects and containers. */
  lemma ComposeFrame(p: Positions, visible: InfraGraph, projectX: int, containerX: int, id: string)
    requires UniqueBy(IdOf, visible.nodes)
    requires id !in TypeIds(visible.nodes, DOCKER_COMPOSE_PROJECT) && id !in TypeIds(visible.nodes, DOCKER_CONTAINER)
    ensures Same(ComposePlaced(p, visible, projectX, containerX), p, {id})
  {
    var projects, containers := SortedOf(visible.nodes, DOCKER_COMPOSE_PROJECT), SortedOf(visible.nodes, DOCKER_CONTAINER);
    var members := MembersIn(visible);
    var grouped := GroupedIds(projects, members);
    var rest := Filter(NotIn(grouped), containers);
    var g := GroupsPlaced(p, projects, members, projectX, containerX);
    assert ComposePlaced(p, visible, projectX, containerX) == Placed(g.positions, rest, containerX, g.y);
    hide *;
    GroupsInView(p, visible, projectX, containerX);
    SortedIds(visible.nodes, DOCKER_COMPOSE_PROJECT);
    SortedIds(visible.nodes, DOCKER_CONTAINER);
    RestIds(containers, grouped);
    GroupsFrame(p, projects, members, projectX, containerX, id);
    var k := PlacedSlot(g.positions, rest, containerX, g.y, id);
  }

  lemma GroupedIncluded(projects: seq<InfraNode>, members: string -> seq<InfraNode>, all: set<string>)
    requires forall a :: NodeIds(members(a)) <= all
    ensures GroupedIds(projects, members) <= all
  {
    forall id | id in GroupedIds(projects, members) ensures id in all {
      var q, m :| q in projects && m in members(q.id) && m.id == id;
      assert id in NodeIds(members(q.id));
    }
  }

  lemma ProjectsStay(p: Positions, q: Positions, projects: set<string>, rest: set<string>, x: int)
    requires Column(p, projects, x, PROJECT_GAP) && projects !! rest
    requires forall id :: id !in rest ==> Same(q, p, {id})
    ensures Column(q, projects, x, PROJECT_GAP)
  {
    forall a | a in projects ensures Same(p, q, {a}) { assert Same(q, p, {a}); }
    assert Same(p, q, projects);
    ColumnKept(p, q, projects, x, PROJECT_GAP);
  }
}

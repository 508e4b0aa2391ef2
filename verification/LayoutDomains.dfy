/** When the containers stand below the domains, in terms of what is shown instead of where it was placed. */
module LayoutDomains {
  import Ordering
  import opened Collections
  import opened Graphs
  import opened GraphView
  import opened GraphLayout
  import opened LayoutSpacing
  import opened LayoutColumns
  import opened LayoutEverything

  // ----- where the groups start -----

  /** How many projects without containers come first. */
  function LeadingEmpty(projects: seq<InfraNode>, members: string -> seq<InfraNode>): (k: nat)
    ensures k <= |projects|
    ensures k < |projects| ==> members(projects[k].id) != []
  {
    if projects == [] then 0
    else
      var n := |projects| - 1;
      var front := LeadingEmpty(projects[..n], members);
      if front == n && members(projects[n].id) == [] then n + 1 else front
  }

  /** Where a group starts that only projects without containers precede. */
  function StartAfter(k: nat): int { TOP + k * PROJECT_GAP }

  lemma NextStart(k: nat, members: nat)
    ensures StartAfter(k + 1) == StartAfter(k) + PROJECT_GAP && StartAfter(0) == TOP
    ensures GroupHeight(members) >= PROJECT_GAP && GroupHeight(0) == PROJECT_GAP
  {
  }

  lemma {:induction false} GroupsStart(p: Positions, projects: seq<InfraNode>, members: string -> seq<InfraNode>, projectX: int, containerX: int)
    ensures var y := GroupsPlaced(p, projects, members, projectX, containerX).y;
      && y >= StartAfter(|projects|) >= StartAfter(LeadingEmpty(projects, members))
      && (LeadingEmpty(projects, members) == |projects| ==> y == StartAfter(|projects|) && GroupedIds(projects, members) == {})
  {
    if projects == [] {
      NextStart(0, 0);
    } else {
      var n := |projects| - 1;
      var front, last := projects[..n], projects[n];
      assert projects == front + [last];
      GroupedStep(front, last, members);
      NextStart(n, |members(last.id)|);
      hide GroupedIds, Placed, GroupHeight, StartAfter, ProjectTop;
      GroupsStart(p, front, members, projectX, containerX);
    }
  }

  /** No container of a group stands above the first group that has any. */
  lemma {:induction false} MembersStart(p: Positions, projects: seq<InfraNode>, members: string -> seq<InfraNode>, projectX: int, containerX: int, id: string)
    requires id in GroupedIds(projects, members) && id !in NodeIds(projects)
    ensures var q := GroupsPlaced(p, projects, members, projectX, containerX).positions;
      id in q && q[id].y >= StartAfter(LeadingEmpty(projects, members))
  {
    var n := |projects| - 1;
    var front, last := projects[..n], projects[n];
    assert projects == front + [last];
    GroupedStep(front, last, members);
    assert id != last.id && id !in NodeIds(front);
    GroupsStart(p, front, members, projectX, containerX);
    hide GroupedIds, NodeIds, ProjectTop, GroupHeight, Placed, StartAfter;
    var g, own := GroupsPlaced(p, front, members, projectX, containerX), members(last.id);
    var k := PlacedSlot(g.positions[last.id := Position(projectX, ProjectTop(g.y, |own|))], own, containerX, g.y, id);
    NoMembers(own);
    if id !in NodeIds(own) { MembersStart(p, front, members, projectX, containerX, id); }
  }

  /** The first container of the first group that has any, if nothing moves it again, stands where that group starts. */
  lemma {:induction false} FirstMember(p: Positions, projects: seq<InfraNode>, members: string -> seq<InfraNode>, projectX: int, containerX: int, id: string)
    requires LeadingEmpty(projects, members) < |projects| && id !in NodeIds(projects)
    requires var own := members(projects[LeadingEmpty(projects, members)].id); own[0].id == id && UniqueBy(IdOf, own)
    requires forall j :: LeadingEmpty(projects, members) < j < |projects| ==> id !in NodeIds(members(projects[j].id))
    ensures var q := GroupsPlaced(p, projects, members, projectX, containerX).positions;
      id in q && q[id].y == StartAfter(LeadingEmpty(projects, members))
  {
    var n := |projects| - 1;
    var front, last := projects[..n], projects[n];
    assert projects == front + [last];
    assert id != last.id && id !in NodeIds(front);
    GroupsStart(p, front, members, projectX, containerX);
    hide NodeIds, ProjectTop, GroupHeight, Placed, StartAfter;
    var g, own := GroupsPlaced(p, front, members, projectX, containerX), members(last.id);
    var k := PlacedSlot(g.positions[last.id := Position(projectX, ProjectTop(g.y, |own|))], own, containerX, g.y, id);
    if LeadingEmpty(front, members) < n {
      FirstMember(p, front, members, projectX, containerX, id);
    } else {
      FirstListed(own);
    }
  }

  lemma FirstListed(nodes: seq<InfraNode>)
    ensures nodes != [] ==> nodes[0].id in NodeIds(nodes)
  {
  }

  // ----- containers claimed once -----

  /** An edge that puts a shown container into a shown project. */
  predicate Claiming(visible: InfraGraph, e: InfraEdge) {
    e.relation == CONTAINS && e.source in TypeIds(visible.nodes, DOCKER_COMPOSE_PROJECT) && e.target in TypeIds(visible.nodes, DOCKER_CONTAINER)
  }

  ghost predicate ClaimedOnce(visible: InfraGraph) {
    forall i, j :: 0 <= i < j < |visible.edges| && Claiming(visible, visible.edges[i]) && Claiming(visible, visible.edges[j]) ==>
      visible.edges[i].target != visible.edges[j].target
  }

  lemma {:induction false} FoundId(containers: seq<InfraNode>, id: string)
    ensures WithId(containers, id).Some? ==> WithId(containers, id).value.id == id && id in NodeIds(containers)
  {
    if containers != [] && containers[0].id != id { FoundId(containers[1..], id); }
  }

  lemma ClaimClaims(visible: InfraGraph, project: string, e: InfraEdge)
    requires project in TypeIds(visible.nodes, DOCKER_COMPOSE_PROJECT)
    ensures var claim := ClaimOf(SortedOf(visible.nodes, DOCKER_CONTAINER), project)(e);
      claim.Some? ==> Claiming(visible, e) && e.source == project && e.target == claim.value.id
  {
    SortedIds(visible.nodes, DOCKER_CONTAINER);
    hide SortedOf, TypeIds, WithId, NodeIds;
    FoundId(SortedOf(visible.nodes, DOCKER_CONTAINER), e.target);
  }

  lemma {:induction false} ClaimIndex(visible: InfraGraph, project: string, edges: seq<InfraEdge>, m: InfraNode) returns (i: nat)
    requires project in TypeIds(visible.nodes, DOCKER_COMPOSE_PROJECT)
    requires m in Claims(SortedOf(visible.nodes, DOCKER_CONTAINER), edges, project)
    ensures i < |edges| && Claiming(visible, edges[i]) && edges[i].source == project && edges[i].target == m.id
  {
    var containers := SortedOf(visible.nodes, DOCKER_CONTAINER);
    var n := |edges| - 1;
    ClaimClaims(visible, project, edges[n]);
    hide SortedOf, ClaimOf, TypeIds;
    if m in Claims(containers, edges[..n], project) {
      i := ClaimIndex(visible, project, edges[..n], m);
    } else {
      i := n;
    }
  }

  lemma {:induction false} ClaimsUnique(visible: InfraGraph, project: string, edges: seq<InfraEdge>)
    requires project in TypeIds(visible.nodes, DOCKER_COMPOSE_PROJECT)
    requires ClaimedOnce(visible) && edges <= visible.edges
    ensures UniqueBy(IdOf, Claims(SortedOf(visible.nodes, DOCKER_CONTAINER), edges, project))
  {
    if edges != [] {
      var containers := SortedOf(visible.nodes, DOCKER_CONTAINER);
      var n := |edges| - 1;
      ClaimClaims(visible, project, edges[n]);
      ClaimsUnique(visible, project, edges[..n]);
      hide SortedOf, ClaimOf, TypeIds, Claiming;
      var claims := Claims(containers, edges[..n], project);
      forall k | 0 <= k < |claims| && ClaimOf(containers, project)(edges[n]).Some?
        ensures IdOf(claims[k]) != IdOf(ClaimOf(containers, project)(edges[n]).value)
      {
        var i := ClaimIndex(visible, project, edges[..n], claims[k]);
        assert edges[i] == visible.edges[i] && edges[n] == visible.edges[n];
      }
    }
  }

  lemma MembersUnique(visible: InfraGraph, project: string)
    requires ClaimedOnce(visible) && project in TypeIds(visible.nodes, DOCKER_COMPOSE_PROJECT)
    ensures UniqueBy(IdOf, MembersIn(visible)(project))
  {
    var claims := Claims(SortedOf(visible.nodes, DOCKER_CONTAINER), visible.edges, project);
    ClaimsUnique(visible, project, visible.edges);
    hide SortedOf, FilterMap, TypeIds, ClaimedOnce;
    UniqueByPermutation(IdOf, claims, MembersIn(visible)(project));
  }

  lemma MembersApart(visible: InfraGraph, project: string, other: string, id: string)
    requires ClaimedOnce(visible) && project != other
    requires project in TypeIds(visible.nodes, DOCKER_COMPOSE_PROJECT) && other in TypeIds(visible.nodes, DOCKER_COMPOSE_PROJECT)
    requires id in NodeIds(MembersIn(visible)(project))
    ensures id !in NodeIds(MembersIn(visible)(other))
  {
    var containers := SortedOf(visible.nodes, DOCKER_CONTAINER);
    Ordering.SortByElements(LabelLe, Claims(containers, visible.edges, project));
    Ordering.SortByElements(LabelLe, Claims(containers, visible.edges, other));
    hide SortedOf, FilterMap, TypeIds, Claims, Claiming;
    var m :| m in MembersIn(visible)(project) && m.id == id;
    var i := ClaimIndex(visible, project, visible.edges, m);
    forall n | n in MembersIn(visible)(other) ensures n.id != id {
      var j := ClaimIndex(visible, other, visible.edges, n);
      assert i != j;
    }
  }

  // ----- the highest container -----

  function EmptyFirst(visible: InfraGraph): nat { LeadingEmpty(SortedOf(visible.nodes, DOCKER_COMPOSE_PROJECT), MembersIn(visible)) }

  /** Where the containers end up: the claimed ones in their groups, the rest below all groups. */
  function Stacked(p: Positions, projects: seq<InfraNode>, members: string -> seq<InfraNode>, containers: seq<InfraNode>): Positions {
    var g := GroupsPlaced(p, projects, members, 530, 800);
    Placed(g.positions, Filter(NotIn(GroupedIds(projects, members)), containers), 800, g.y)
  }

  lemma StackedBelow(p: Positions, projects: seq<InfraNode>, members: string -> seq<InfraNode>, containers: seq<InfraNode>, id: string)
    requires NodeIds(projects) !! NodeIds(containers) && GroupedIds(projects, members) <= NodeIds(containers) && id in NodeIds(containers)
    ensures var q := Stacked(p, projects, members, containers);
      id in q && q[id].y >= StartAfter(LeadingEmpty(projects, members))
  {
    var grouped := GroupedIds(projects, members);
    var rest := Filter(NotIn(grouped), containers);
    var g := GroupsPlaced(p, projects, members, 530, 800);
    RestIds(containers, grouped);
    GroupsStart(p, projects, members, 530, 800);
    hide NodeIds, GroupedIds, GroupsPlaced, Placed, Filter, StartAfter, LeadingEmpty;
    var k := PlacedSlot(g.positions, rest, 800, g.y, id);
    if id !in NodeIds(rest) {
      MembersStart(p, projects, members, 530, 800, id);
      SameAt(Placed(g.positions, rest, 800, g.y), g.positions, id);
    }
  }

  lemma ContainersApart(visible: InfraGraph)
    requires UniqueBy(IdOf, visible.nodes)
    ensures var projects, containers := SortedOf(visible.nodes, DOCKER_COMPOSE_PROJECT), SortedOf(visible.nodes, DOCKER_CONTAINER);
      && NodeIds(projects) !! NodeIds(containers) && GroupedIds(projects, MembersIn(visible)) <= NodeIds(containers)
      && NodeIds(containers) == TypeIds(visible.nodes, DOCKER_CONTAINER)
  {
    hide SortedOf, MembersIn, GroupsPlaced, NodeIds, TypeIds, UniqueBy, GroupsSpaced, GroupedIds;
    SortedIds(visible.nodes, DOCKER_COMPOSE_PROJECT);
    SortedIds(visible.nodes, DOCKER_CONTAINER);
    TypesDisjoint(visible.nodes, DOCKER_COMPOSE_PROJECT, DOCKER_CONTAINER);
    GroupsInView(Hosts(visible, 270), visible, 530, 800);
  }

  lemma ComposedStacked(visible: InfraGraph)
    ensures Composed(visible) == Stacked(Hosts(visible, 270), SortedOf(visible.nodes, DOCKER_COMPOSE_PROJECT), MembersIn(visible),
      SortedOf(visible.nodes, DOCKER_CONTAINER))
  {
    hide SortedOf, MembersIn, GroupsPlaced, Placed, Filter, GroupedIds, Hosts;
  }

  /** No container stands above the start of the first group that has any. */
  lemma ContainerBelowStart(visible: InfraGraph, c: InfraNode)
    requires UniqueBy(IdOf, visible.nodes) && c in visible.nodes && c.nodeType == DOCKER_CONTAINER
    ensures c.id in Composed(visible) && Composed(visible)[c.id].y >= StartAfter(EmptyFirst(visible))
  {
    ComposedStacked(visible);
    ContainersApart(visible);
    IdOfType(visible.nodes, c);
    hide SortedOf, MembersIn, NodeIds, TypeIds, UniqueBy, GroupedIds, Stacked, Composed, StartAfter, Hosts, LeadingEmpty;
    StackedBelow(Hosts(visible, 270), SortedOf(visible.nodes, DOCKER_COMPOSE_PROJECT), MembersIn(visible),
      SortedOf(visible.nodes, DOCKER_CONTAINER), c.id);
  }

  lemma FirstClaimed(visible: InfraGraph) returns (id: string)
    requires UniqueBy(IdOf, visible.nodes) && ClaimedOnce(visible)
    requires EmptyFirst(visible) < |SortedOf(visible.nodes, DOCKER_COMPOSE_PROJECT)|
    ensures id in TypeIds(visible.nodes, DOCKER_CONTAINER)
    ensures id in GroupedIds(SortedOf(visible.nodes, DOCKER_COMPOSE_PROJECT), MembersIn(visible))
    ensures var q := GroupsPlaced(Hosts(visible, 270), SortedOf(visible.nodes, DOCKER_COMPOSE_PROJECT), MembersIn(visible), 530, 800).positions;
      id in q && q[id].y == StartAfter(EmptyFirst(visible))
  {
    var projects, members := SortedOf(visible.nodes, DOCKER_COMPOSE_PROJECT), MembersIn(visible);
    var k := EmptyFirst(visible);
    assert k == LeadingEmpty(projects, members);
    SortedIds(visible.nodes, DOCKER_COMPOSE_PROJECT);
    SortedUnique(visible.nodes, DOCKER_COMPOSE_PROJECT);
    TypesDisjoint(visible.nodes, DOCKER_COMPOSE_PROJECT, DOCKER_CONTAINER);
    hide SortedOf, MembersIn, GroupsPlaced, TypeIds, ClaimedOnce, EmptyFirst, Hosts, LeadingEmpty;
    var own := members(projects[k].id);
    id := own[0].id;
    assert projects[k] in projects && projects[k].id in NodeIds(projects) && own[0] in own;
    MembersDisjoint(visible, projects[k].id);
    MembersUnique(visible, projects[k].id);
    assert id in NodeIds(own);
    forall j | k < j < |projects| ensures id !in NodeIds(members(projects[j].id)) {
      assert projects[j] in projects && projects[j].id in NodeIds(projects);
      assert IdOf(projects[k]) != IdOf(projects[j]);
      MembersApart(visible, projects[k].id, projects[j].id, id);
    }
    hide NodeIds, UniqueBy;
    FirstMember(Hosts(visible, 270), projects, members, 530, 800, id);
  }

  lemma NodeWithId(nodes: seq<InfraNode>, t: NodeType, id: string) returns (n: InfraNode)
    requires id in TypeIds(nodes, t)
    ensures n in nodes && n.nodeType == t && n.id == id
  {
    n :| n in nodes && n.nodeType == t && n.id == id;
  }

  lemma GroupedStays(p: Positions, projects: seq<InfraNode>, members: string -> seq<InfraNode>, containers: seq<InfraNode>, id: string)
    requires NodeIds(projects) !! NodeIds(containers) && GroupedIds(projects, members) <= NodeIds(containers)
    requires id in GroupedIds(projects, members) && id in GroupsPlaced(p, projects, members, 530, 800).positions
    ensures var q := Stacked(p, projects, members, containers);
      id in q && q[id] == GroupsPlaced(p, projects, members, 530, 800).positions[id]
  {
    var grouped := GroupedIds(projects, members);
    var rest := Filter(NotIn(grouped), containers);
    var g := GroupsPlaced(p, projects, members, 530, 800);
    RestIds(containers, grouped);
    hide NodeIds, GroupedIds, GroupsPlaced, Placed, Filter;
    var k := PlacedSlot(g.positions, rest, 800, g.y, id);
    SameAt(Placed(g.positions, rest, 800, g.y), g.positions, id);
  }

  lemma RestStarts(p: Positions, projects: seq<InfraNode>, members: string -> seq<InfraNode>, containers: seq<InfraNode>)
    requires LeadingEmpty(projects, members) == |projects| && containers != [] && UniqueBy(IdOf, containers)
    ensures var q := Stacked(p, projects, members, containers);
      containers[0].id in q && q[containers[0].id].y == StartAfter(|projects|)
  {
    var g := GroupsPlaced(p, projects, members, 530, 800);
    GroupsStart(p, projects, members, 530, 800);
    NothingGrouped(containers);
    FirstListed(containers);
    hide NodeIds, GroupedIds, GroupsPlaced, Placed, Filter, StartAfter, LeadingEmpty;
    var k := PlacedSlot(g.positions, containers, 800, g.y, containers[0].id);
    SlotIsFirst(containers, k);
  }

  /** When no container is claimed twice, one stands exactly there. */
  lemma SomeAtStart(visible: InfraGraph) returns (c: InfraNode)
    requires UniqueBy(IdOf, visible.nodes) && ClaimedOnce(visible) && Has(visible.nodes, DOCKER_CONTAINER)
    ensures c in visible.nodes && c.nodeType == DOCKER_CONTAINER
    ensures c.id in Composed(visible) && Composed(visible)[c.id].y == StartAfter(EmptyFirst(visible))
  {
    var projects, containers := SortedOf(visible.nodes, DOCKER_COMPOSE_PROJECT), SortedOf(visible.nodes, DOCKER_CONTAINER);
    var some :| some in visible.nodes && some.nodeType == DOCKER_CONTAINER;
    ComposedStacked(visible);
    SortedIds(visible.nodes, DOCKER_CONTAINER);
    ContainersApart(visible);
    LayoutSpacing.SortedUnique(visible.nodes, DOCKER_CONTAINER);
    hide SortedOf, MembersIn, NodeIds, TypeIds, UniqueBy, GroupedIds, GroupsPlaced, Stacked, Composed, StartAfter, Hosts, LeadingEmpty, ClaimedOnce;
    if EmptyFirst(visible) < |projects| {
      var id := FirstClaimed(visible);
      c := NodeWithId(visible.nodes, DOCKER_CONTAINER, id);
      GroupedStays(Hosts(visible, 270), projects, MembersIn(visible), containers, id);
    } else {
      assert some in containers;
      c := containers[0];
      RestStarts(Hosts(visible, 270), projects, MembersIn(visible), containers);
    }
  }

  lemma NothingGrouped(containers: seq<InfraNode>)
    ensures Filter(NotIn({}), containers) == containers
  {
    FilterNothing(NotIn({}), containers);
  }

  lemma SlotIsFirst(nodes: seq<InfraNode>, k: int)
    requires UniqueBy(IdOf, nodes) && 0 <= k < |nodes| && nodes[k].id == nodes[0].id
    ensures k == 0
  {
  }

  // ----- the condition on what is shown -----

  /** The projects without containers that come first leave room for the domains beside them. */
  ghost predicate RoomForDomains(visible: InfraGraph) {
    var domains := |SortedOf(visible.nodes, DOMAIN)|;
    domains == 0 || !Has(visible.nodes, DOCKER_CONTAINER) || StartAfter(EmptyFirst(visible)) >= TOP + domains * STEP
  }

  /**
    Room for the domains keeps the containers below them, and is also needed when no container is claimed
    twice.
   */
  lemma DomainsClearExactly(visible: InfraGraph)
    requires UniqueBy(IdOf, visible.nodes)
    ensures RoomForDomains(visible) ==> DomainsClear(visible)
    ensures ClaimedOnce(visible) ==> (DomainsClear(visible) <==> RoomForDomains(visible))
  {
    hide UniqueBy, Composed, SortedOf, ClaimedOnce, EmptyFirst;
    if RoomForDomains(visible) {
      forall c | c in visible.nodes && c.nodeType == DOCKER_CONTAINER && SortedOf(visible.nodes, DOMAIN) != []
        ensures c.id in Composed(visible) && Composed(visible)[c.id].y >= TOP + |SortedOf(visible.nodes, DOMAIN)| * STEP
      {
        ContainerBelowStart(visible, c);
      }
    } else if ClaimedOnce(visible) {
      var c := SomeAtStart(visible);
    }
  }

  /**
    In a graph that puts no container into two projects, the view that shows everything keeps its distances
    exactly under three conditions that can be read off the graph.
   */
  lemma SpacedByShape(visible: InfraGraph)
    requires UniqueBy(IdOf, visible.nodes) && ClaimedOnce(visible)
    requires forall n :: n in visible.nodes ==> n.nodeType in ViewTypes(EVERYTHING)
    ensures Spaced(LayoutOf(visible, EVERYTHING), visible.nodes) <==>
      ProxiesClear(visible) && RoomForDomains(visible) && DirectoriesClear(visible)
  {
    hide UniqueBy, ViewTypes, LayoutOf, Spaced, ClaimedOnce, ProxiesClear, DomainsClear, DirectoriesClear, RoomForDomains;
    EverythingSpacedExactly(visible);
    DomainsClearExactly(visible);
  }
}

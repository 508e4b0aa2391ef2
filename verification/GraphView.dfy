/** The part of a graph that a view shows. */
module GraphView {
  import opened Collections
  import opened Graphs

  datatype ViewMode = OVERVIEW | NETWORKING | STORAGE | EVERYTHING

  /** What the user collapsed and focused. */
  datatype UiState = UiState(collapsed: set<string>, focus: Option<string>)

  function ViewTypes(view: ViewMode): set<NodeType> {
    var base := {SERVER, DOCKER_ENGINE, DOCKER_COMPOSE_PROJECT, DOCKER_CONTAINER};
    match view
    case OVERVIEW => base
    case NETWORKING => base + {NETWORK, PORT}
    case STORAGE => base + {MOUNT}
    case EVERYTHING => base + {NETWORK, MOUNT, PORT, REVERSE_PROXY, DOMAIN, DIRECTORY}
  }

  function NodeIds(nodes: seq<InfraNode>): set<string> { set n | n in nodes :: n.id }

  predicate Joins(e: InfraEdge, ids: set<string>) { e.source in ids && e.target in ids }

  predicate Touches(e: InfraEdge, id: string) { e.source == id || e.target == id }

  function CollapsedContainers(graph: InfraGraph, collapsed: set<string>): set<string> {
    set e | e in graph.edges && e.relation == CONTAINS && e.source in collapsed :: e.target
  }

  function Hidden(graph: InfraGraph, collapsed: set<string>): set<string> {
    var containers := CollapsedContainers(graph, collapsed);
    containers + set e | e in graph.edges && e.source in containers && (e.relation == EXPOSES || e.relation == MOUNTS) :: e.target
  }

  function Allowed(types: set<NodeType>, hidden: set<string>): InfraNode -> bool {
    (n: InfraNode) => n.nodeType in types && n.id !in hidden
  }

  function Within(ids: set<string>): InfraEdge -> bool { (e: InfraEdge) => Joins(e, ids) }

  predicate IsSecondary(n: InfraNode) { n.nodeType == NETWORK || n.nodeType == PORT || n.nodeType == MOUNT }

  predicate IsOrphan(n: InfraNode, edges: seq<InfraEdge>) { IsSecondary(n) && forall e :: e in edges ==> !Touches(e, n.id) }

  function Attached(edges: seq<InfraEdge>): InfraNode -> bool { (n: InfraNode) => !IsOrphan(n, edges) }

  /** The focused node and its neighbours in the whole graph. */
  function FocusIds(graph: InfraGraph, focus: string): set<string> {
    {focus} + (set e | e in graph.edges && e.source == focus :: e.target) + set e | e in graph.edges && e.target == focus :: e.source
  }

  function Among(ids: set<string>): InfraNode -> bool { (n: InfraNode) => n.id in ids }

  /** The nodes before focusing. */
  function Unfocused(graph: InfraGraph, view: ViewMode, collapsed: set<string>): seq<InfraNode> {
    var nodes := Filter(Allowed(ViewTypes(view), Hidden(graph, collapsed)), graph.nodes);
    Filter(Attached(Filter(Within(NodeIds(nodes)), graph.edges)), nodes)
  }

  /** The nodes that `deriveVisibleGraph` shows. */
  function VisibleNodes(graph: InfraGraph, view: ViewMode, state: UiState): seq<InfraNode> {
    var nodes := Unfocused(graph, view, state.collapsed);
    if state.focus.Some? && state.focus.value != "" && state.focus.value in NodeIds(nodes)
    then Filter(Among(FocusIds(graph, state.focus.value)), nodes) else nodes
  }

  /** `deriveVisibleGraph`: the subgraph induced by the visible nodes. */
  function Visible(graph: InfraGraph, view: ViewMode, state: UiState): InfraGraph {
    var nodes := VisibleNodes(graph, view, state);
    InfraGraph(nodes, Filter(Within(NodeIds(nodes)), graph.edges))
  }

  // ----- as computed -----

  lemma FilterIds(p: InfraNode -> bool, nodes: seq<InfraNode>)
    ensures NodeIds(Filter(p, nodes)) <= NodeIds(nodes)
  {
    forall id | id in NodeIds(Filter(p, nodes)) ensures id in NodeIds(nodes) {
      var n :| n in Filter(p, nodes) && n.id == id;
      FilterMember(p, nodes, n);
    }
  }

  /** Filtering edges step by step is filtering them once. */
  lemma EdgesOnce(edges: seq<InfraEdge>, outer: set<string>, inner: set<string>)
    requires inner <= outer
    ensures Filter(Within(inner), Filter(Within(outer), edges)) == Filter(Within(inner), edges)
  {
    FilterTwice(Within(outer), Within(inner), edges);
  }

  method DeriveVisibleGraph(graph: InfraGraph, view: ViewMode, state: UiState) returns (visible: InfraGraph)
    ensures visible == Visible(graph, view, state)
  {
    hide Filter, ViewTypes, FocusIds, NodeIds;
    var hidden := CollectHidden(graph, state.collapsed);
    var nodes := Filter(Allowed(ViewTypes(view), hidden), graph.nodes);
    var nodeIds := NodeIds(nodes);
    var edges := Filter(Within(nodeIds), graph.edges);
    FilterIds(Attached(edges), nodes);
    nodes := Filter(Attached(edges), nodes);
    EdgesOnce(graph.edges, nodeIds, NodeIds(nodes));
    nodeIds := NodeIds(nodes);
    edges := Filter(Within(nodeIds), edges);
    if state.focus.Some? && state.focus.value != "" && state.focus.value in nodeIds {
      var focusIds := CollectFocus(graph, state.focus.value);
      FilterIds(Among(focusIds), nodes);
      nodes := Filter(Among(focusIds), nodes);
      EdgesOnce(graph.edges, nodeIds, NodeIds(nodes));
      nodeIds := NodeIds(nodes);
      edges := Filter(Within(nodeIds), edges);
    }
    visible := InfraGraph(nodes, edges);
  }

  /** The loop that hides what belongs to collapsed projects. */
  method CollectHidden(graph: InfraGraph, collapsed: set<string>) returns (hidden: set<string>)
    ensures hidden == Hidden(graph, collapsed)
  {
    var containers := CollapsedContainers(graph, collapsed);
    hidden := containers;
    for i := 0 to |graph.edges|
      invariant hidden == containers + set e |
        e in graph.edges[..i] && e.source in containers && (e.relation == EXPOSES || e.relation == MOUNTS) :: e.target
    {
      assert graph.edges[..i + 1] == graph.edges[..i] + [graph.edges[i]];
      var e := graph.edges[i];
      if e.source in containers && (e.relation == EXPOSES || e.relation == MOUNTS) { hidden := hidden + {e.target}; }
    }
    assert graph.edges[..|graph.edges|] == graph.edges;
  }

  /** The loop that collects the neighbours of the focused node. */
  method CollectFocus(graph: InfraGraph, focus: string) returns (ids: set<string>)
    ensures ids == FocusIds(graph, focus)
  {
    ids := {focus};
    for i := 0 to |graph.edges|
      invariant ids == FocusIds(InfraGraph(graph.nodes, graph.edges[..i]), focus)
    {
      assert graph.edges[..i + 1] == graph.edges[..i] + [graph.edges[i]];
      var e := graph.edges[i];
      if e.source == focus { ids := ids + {e.target}; }
      if e.target == focus { ids := ids + {e.source}; }
    }
    assert graph.edges[..|graph.edges|] == graph.edges;
  }

  // ----- what is visible -----

  lemma VisibleNode(graph: InfraGraph, view: ViewMode, state: UiState, n: InfraNode)
    requires n in VisibleNodes(graph, view, state)
    ensures n in Unfocused(graph, view, state.collapsed)
    ensures n in graph.nodes && n.nodeType in ViewTypes(view) && n.id !in Hidden(graph, state.collapsed)
  {
    var types, hidden := ViewTypes(view), Hidden(graph, state.collapsed);
    var nodes := Filter(Allowed(types, hidden), graph.nodes);
    var edges := Filter(Within(NodeIds(nodes)), graph.edges);
    if state.focus.Some? { FilterMember(Among(FocusIds(graph, state.focus.value)), Unfocused(graph, view, state.collapsed), n); }
    FilterMember(Attached(edges), nodes, n);
    FilterMember(Allowed(types, hidden), graph.nodes, n);
    hide Filter, ViewTypes, Hidden, FocusIds, NodeIds, IsOrphan;
  }

  lemma VisibleEdge(graph: InfraGraph, view: ViewMode, state: UiState, e: InfraEdge)
    ensures e in Visible(graph, view, state).edges <==> e in graph.edges && Joins(e, NodeIds(VisibleNodes(graph, view, state)))
  {
    FilterMember(Within(NodeIds(VisibleNodes(graph, view, state))), graph.edges, e);
    hide VisibleNodes, Filter, NodeIds;
  }

  /** A secondary node shown before focusing hangs on an edge between nodes shown before focusing. */
  lemma UnfocusedAttached(graph: InfraGraph, view: ViewMode, collapsed: set<string>, n: InfraNode)
    requires n in Unfocused(graph, view, collapsed) && IsSecondary(n)
    ensures exists e :: e in graph.edges && Touches(e, n.id) && Joins(e, NodeIds(Unfocused(graph, view, collapsed)))
  {
    var allowed := Allowed(ViewTypes(view), Hidden(graph, collapsed));
    var nodes := Filter(allowed, graph.nodes);
    var edges := Filter(Within(NodeIds(nodes)), graph.edges);
    FilterMember(Attached(edges), nodes, n);
    var e :| e in edges && Touches(e, n.id);
    FilterMember(Within(NodeIds(nodes)), graph.edges, e);
    EndStays(nodes, edges, e, e.source);
    EndStays(nodes, edges, e, e.target);
    assert Unfocused(graph, view, collapsed) == Filter(Attached(edges), nodes);
    hide Filter, ViewTypes, Hidden, Unfocused;
  }

  /** The ends of a kept edge are no orphans. */
  lemma EndStays(nodes: seq<InfraNode>, edges: seq<InfraEdge>, e: InfraEdge, id: string)
    requires e in edges && Touches(e, id) && id in NodeIds(nodes)
    ensures id in NodeIds(Filter(Attached(edges), nodes))
  {
    var n :| n in nodes && n.id == id;
    FilterMember(Attached(edges), nodes, n);
    hide Filter;
    assert Attached(edges)(n);
  }

  lemma UnfocusedIds(graph: InfraGraph, view: ViewMode, state: UiState, id: string)
    ensures id in NodeIds(VisibleNodes(graph, view, state)) <==>
      && id in NodeIds(Unfocused(graph, view, state.collapsed))
      && (Focused(graph, view, state) ==> id in FocusIds(graph, state.focus.value))
  {
    var nodes := Unfocused(graph, view, state.collapsed);
    hide Unfocused, FocusIds, Filter;
    if Focused(graph, view, state) {
      var p := Among(FocusIds(graph, state.focus.value));
      forall n ensures n in Filter(p, nodes) <==> n in nodes && p(n) { FilterMember(p, nodes, n); }
    }
  }

  predicate Focused(graph: InfraGraph, view: ViewMode, state: UiState) {
    state.focus.Some? && state.focus.value != "" && state.focus.value in NodeIds(Unfocused(graph, view, state.collapsed))
  }

  /** No visible NETWORK, PORT or MOUNT node is without a visible edge. */
  lemma NoOrphans(graph: InfraGraph, view: ViewMode, state: UiState, n: InfraNode)
    requires n in Visible(graph, view, state).nodes && IsSecondary(n)
    ensures !IsOrphan(n, Visible(graph, view, state).edges)
  {
    VisibleNode(graph, view, state, n);
    UnfocusedAttached(graph, view, state.collapsed, n);
    hide Unfocused, FocusIds, VisibleNodes;
    var ids := NodeIds(Unfocused(graph, view, state.collapsed));
    assert n.id in NodeIds(VisibleNodes(graph, view, state));
    UnfocusedIds(graph, view, state, n.id);
    var e :| e in graph.edges && Touches(e, n.id) && Joins(e, ids);
    if Focused(graph, view, state) && n.id != state.focus.value {
      e := FocusEdge(graph, state.focus.value, n.id);
    }
    UnfocusedIds(graph, view, state, e.source);
    UnfocusedIds(graph, view, state, e.target);
    if Focused(graph, view, state) { FocusNeighbours(graph, state.focus.value, e); }
    VisibleEdge(graph, view, state, e);
  }

  lemma FocusEdge(graph: InfraGraph, focus: string, id: string) returns (e: InfraEdge)
    requires id in FocusIds(graph, focus) && id != focus
    ensures e in graph.edges && Touches(e, id) && Touches(e, focus) && Joins(e, {id, focus})
  {
    if x :| x in graph.edges && x.source == focus && x.target == id {
      e := x;
    } else {
      e :| e in graph.edges && e.target == focus && e.source == id;
    }
  }

  lemma FocusNeighbours(graph: InfraGraph, focus: string, e: InfraEdge)
    requires e in graph.edges && Touches(e, focus)
    ensures e.source in FocusIds(graph, focus) && e.target in FocusIds(graph, focus)
  {
  }

  // ----- showing what is shown -----

  lemma EndsVisible(graph: InfraGraph, view: ViewMode, state: UiState, e: InfraEdge)
    requires e in Visible(graph, view, state).edges
    ensures e in graph.edges && e.target !in Hidden(graph, state.collapsed)
  {
    VisibleEdge(graph, view, state, e);
    hide Visible, Hidden;
    var n :| n in VisibleNodes(graph, view, state) && n.id == e.target;
    VisibleNode(graph, view, state, n);
  }

  lemma CollapsedIsHidden(graph: InfraGraph, collapsed: set<string>, e: InfraEdge)
    requires e in graph.edges && e.relation == CONTAINS && e.source in collapsed
    ensures e.target in Hidden(graph, collapsed)
  {
    assert e.target in CollapsedContainers(graph, collapsed);
  }

  /** Nothing visible is hidden again. */
  lemma NothingHidden(graph: InfraGraph, view: ViewMode, state: UiState)
    ensures Hidden(Visible(graph, view, state), state.collapsed) == {}
  {
    var v, hidden := Visible(graph, view, state), Hidden(graph, state.collapsed);
    forall e | e in v.edges ensures e in graph.edges && e.target !in hidden { EndsVisible(graph, view, state, e); }
    forall e | e in graph.edges && e.relation == CONTAINS && e.source in state.collapsed ensures e.target in hidden {
      CollapsedIsHidden(graph, state.collapsed, e);
    }
    assert CollapsedContainers(v, state.collapsed) == {} by { hide Visible, Hidden; }
    hide Visible;
  }

  lemma UnfocusedAgain(graph: InfraGraph, view: ViewMode, state: UiState)
    ensures Unfocused(Visible(graph, view, state), view, state.collapsed) == Visible(graph, view, state).nodes
  {
    var v := Visible(graph, view, state);
    NothingHidden(graph, view, state);
    forall n | n in v.nodes
      ensures Allowed(ViewTypes(view), {})(n)
      ensures Attached(v.edges)(n)
    {
      VisibleNode(graph, view, state, n);
      if IsSecondary(n) { NoOrphans(graph, view, state, n); }
    }
    FilterNothing(Allowed(ViewTypes(view), {}), v.nodes);
    EdgesOnce(graph.edges, NodeIds(v.nodes), NodeIds(v.nodes));
    FilterNothing(Attached(v.edges), v.nodes);
    assert v.edges == Filter(Within(NodeIds(v.nodes)), graph.edges);
    hide Visible, Hidden, Filter, ViewTypes, NodeIds, IsOrphan;
  }

  /** Every visible node is the focus or one of its visible neighbours. */
  lemma FocusAgain(graph: InfraGraph, view: ViewMode, state: UiState, n: InfraNode)
    requires Focused(graph, view, state) && n in Visible(graph, view, state).nodes
    ensures n.id in FocusIds(Visible(graph, view, state), state.focus.value)
  {
    var focus, v := state.focus.value, Visible(graph, view, state);
    assert n.id in NodeIds(v.nodes);
    hide Unfocused, VisibleNodes;
    UnfocusedIds(graph, view, state, n.id);
    UnfocusedIds(graph, view, state, focus);
    if n.id != focus {
      var e := FocusEdge(graph, focus, n.id);
      VisibleEdge(graph, view, state, e);
    }
  }

  lemma SameFocus(graph: InfraGraph, view: ViewMode, state: UiState)
    ensures Focused(Visible(graph, view, state), view, state) <==> Focused(graph, view, state)
  {
    UnfocusedAgain(graph, view, state);
    hide Unfocused, VisibleNodes;
    if state.focus.Some? { UnfocusedIds(graph, view, state, state.focus.value); }
  }

  /** Showing what is shown changes nothing. */
  lemma VisibleIdempotent(graph: InfraGraph, view: ViewMode, state: UiState)
    ensures Visible(Visible(graph, view, state), view, state) == Visible(graph, view, state)
  {
    var v := Visible(graph, view, state);
    UnfocusedAgain(graph, view, state);
    SameFocus(graph, view, state);
    EdgesOnce(graph.edges, NodeIds(v.nodes), NodeIds(v.nodes));
    assert v.edges == Filter(Within(NodeIds(v.nodes)), graph.edges) by { hide VisibleNodes, Filter; }
    if Focused(graph, view, state) {
      forall n | n in v.nodes ensures Among(FocusIds(v, state.focus.value))(n) { FocusAgain(graph, view, state, n); }
      FilterNothing(Among(FocusIds(v, state.focus.value)), v.nodes);
    }
    assert VisibleNodes(v, view, state) == v.nodes by { hide Unfocused, Filter, FocusIds; }
    hide VisibleNodes, Filter;
  }

  /**
    The visible graph is the subgraph of the whole graph induced by the visible nodes, all of a type of
    the view and none of them hidden.
   */
  lemma VisibleInduced(graph: InfraGraph, view: ViewMode, state: UiState)
    ensures var v := Visible(graph, view, state);
      && (forall n :: n in v.nodes ==> n in graph.nodes && n.nodeType in ViewTypes(view) && n.id !in Hidden(graph, state.collapsed))
      && (forall e :: e in v.edges <==> e in graph.edges && Joins(e, NodeIds(v.nodes)))
  {
    var v := Visible(graph, view, state);
    forall n | n in v.nodes ensures n in graph.nodes && n.nodeType in ViewTypes(view) && n.id !in Hidden(graph, state.collapsed) {
      VisibleNode(graph, view, state, n);
    }
    forall e ensures e in v.edges <==> e in graph.edges && Joins(e, NodeIds(v.nodes)) { VisibleEdge(graph, view, state, e); }
  }
}

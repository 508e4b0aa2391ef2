/** In graphs built by the factory an identifier stands for one edge, so replaying a diff gives back every edge. */
module GraphReplay {
  import opened Ordering
  import opened Collections
  import opened Graphs
  import opened Discovery
  import opened GraphIds
  import opened GraphSpec
  import opened GraphRouting
  import opened GraphParts
  import opened GraphShape
  import opened GraphEnds
  import opened GraphAccounting
  import opened Snapshots
  import opened Projection
  import opened DiffEngine
  import opened DiffReplay

  lemma DrawnAlike(env: Env, later: Env, server: string, e: RefEdge, f: RefEdge)
    requires env.identity == later.identity && Drawn(e) && Drawn(f) && e.id == f.id
    ensures TextEdge(env, server)(e) == TextEdge(later, server)(f)
  {
    hide EdgeText, NodeText;
  }

  lemma GraphProper(env: Env, d: HostDiscovery)
    requires Sound(d.docker)
    ensures forall e :: e in GraphOf(env, d).edges ==> ProperEdge(e.id)
  {
    GraphUnique(env, d);
    hide GraphOf, Sound, Unique;
    SectionsProper(GraphOf(env, d), {0, 1, 2, 3, 4, 5, 6, 7, 8});
  }

  /** Two scans of one server, whatever they discover, never draw two edges under one identifier. */
  lemma SameIdSameEdge(env: Env, d: HostDiscovery, later: Env, c: HostDiscovery, x: InfraEdge, y: InfraEdge)
    requires IsIdentity(env.identity) && env.identity == later.identity && Sound(d.docker) && Sound(c.docker)
    requires ServerText(env, d.host) == ServerText(later, c.host)
    requires x in Written(env, d.host, GraphOf(env, d)).edges && y in Written(later, c.host, GraphOf(later, c)).edges
    requires x.id == y.id
    ensures x == y
  {
    hide GraphOf, Sound, IsIdentity, ServerText, EdgeText, NodeText, Map, Drawn, ProperEdge;
    var server := ServerText(env, d.host);
    var e := MapOrigin(TextEdge(env, server), GraphOf(env, d).edges, x);
    var f := MapOrigin(TextEdge(later, server), GraphOf(later, c).edges, y);
    GraphProper(env, d);
    GraphProper(later, c);
    GraphDrawn(env, d);
    GraphDrawn(later, c);
    EdgeTextInjective(env.identity, server, e.id, f.id);
    DrawnAlike(env, later, server, e, f);
  }

  lemma CanonicalEdge(g: InfraGraph, e: SnapshotEdge) returns (x: InfraEdge)
    requires e in Canonical(g).edges
    ensures x in g.edges && ProjectEdge(x) == e
  {
    SortByElements(EdgeLe, Map(ProjectEdgeOf, g.edges));
    hide SortBy, Map, DiscoveryQualityOf;
    x := MapOrigin(ProjectEdgeOf, g.edges, e);
  }

  /**
    Between two snapshots of scans of one server, replaying the relationship changes gives back exactly the
    current edges, with their ends and relations.
   */
  lemma BuiltEdgesReplay(env: Env, d: HostDiscovery, later: Env, e: HostDiscovery, p: Snapshot, c: Snapshot)
    requires IsIdentity(env.identity) && env.identity == later.identity && Sound(d.docker) && Sound(e.docker)
    requires ServerText(env, d.host) == ServerText(later, e.host)
    requires ContentOf(Written(env, d.host, GraphOf(env, d))) == Success(p.content)
    requires ContentOf(Written(later, e.host, GraphOf(later, e))) == Success(c.content)
    ensures ReplayedEdges(p, FullDiff(p, c)) == Elems(c.content.edges)
  {
    hide ContentOf, Written, GraphOf, Sound, IsIdentity, ServerText, FullDiff, ReplayedEdges, ValidContent, Canonical, Elems;
    var g, h := Written(env, d.host, GraphOf(env, d)), Written(later, e.host, GraphOf(later, e));
    ContentValid(g);
    ContentValid(h);
    forall x, y | x in p.content.edges && y in c.content.edges && x.id == y.id ensures x == y {
      var a := CanonicalEdge(g, x);
      var b := CanonicalEdge(h, y);
      SameIdSameEdge(env, d, later, e, a, b);
    }
    ReplayEdgesExactly(p, c);
  }

  lemma ContentValid(g: InfraGraph)
    requires ContentOf(g).Success?
    ensures ContentOf(g).value == Canonical(g) && ValidContent(Canonical(g))
  {
    CanonicalWellFormed(g);
    hide Canonical;
  }
}

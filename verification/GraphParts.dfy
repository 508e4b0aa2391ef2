/** When the parts of a graph have unique identifiers and how membership passes through `Gather`. */
module GraphParts {
  import opened Collections
  import opened GraphIds
  import opened GraphSpec

  const NodeIdOf := (n: RefNode) => n.id
  const EdgeIdOf := (e: RefEdge) => e.id

  predicate Unique(p: Part) { UniqueBy(NodeIdOf, p.nodes) && UniqueBy(EdgeIdOf, p.edges) }

  ghost predicate NodesApart(a: seq<RefNode>, b: seq<RefNode>) { forall x, y :: x in a && y in b ==> x.id != y.id }

  ghost predicate EdgesApart(a: seq<RefEdge>, b: seq<RefEdge>) { forall x, y :: x in a && y in b ==> x.id != y.id }

  /** Two parts without a common identifier. */
  ghost predicate Apart(p: Part, q: Part) { NodesApart(p.nodes, q.nodes) && EdgesApart(p.edges, q.edges) }

  lemma PlusUnique(p: Part, q: Part)
    requires Unique(p) && Unique(q) && Apart(p, q)
    ensures Unique(Plus(p, q))
  {
  }

  lemma PlusApart(p: Part, q: Part, r: Part)
    ensures Apart(p, r) && Apart(q, r) ==> Apart(Plus(p, q), r)
    ensures Apart(r, p) && Apart(r, q) ==> Apart(r, Plus(p, q))
  {
  }

  lemma {:induction false} GatherApart<T>(f: T -> Part, s: seq<T>, q: Part)
    requires forall x :: x in s ==> Apart(f(x), q)
    ensures Apart(Gather(f, s), q)
  {
    hide Apart;
    if s == [] {
      EmptyApart(q);
    } else {
      var n := |s| - 1;
      assert s == s[..n] + [s[n]];
      forall x | x in s[..n] ensures Apart(f(x), q) { assert x in s; }
      GatherApart(f, s[..n], q);
      assert s[n] in s;
      PlusApart(Gather(f, s[..n]), f(s[n]), q);
    }
  }

  lemma EmptyApart(q: Part)
    ensures Apart(EmptyPart, q) && Apart(q, EmptyPart) && Unique(EmptyPart)
  {
  }

  /** Gathered parts are unique when each is and no two share an identifier. */
  lemma {:induction false} GatherUnique<T>(f: T -> Part, s: seq<T>)
    requires forall x :: x in s ==> Unique(f(x))
    requires forall i, j :: 0 <= i < j < |s| ==> Apart(f(s[i]), f(s[j]))
    ensures Unique(Gather(f, s))
  {
    hide Apart, Unique;
    if s == [] {
      EmptyApart(EmptyPart);
    } else {
      var n := |s| - 1;
      assert s == s[..n] + [s[n]];
      forall x | x in s[..n] ensures Unique(f(x)) { assert x in s; }
      GatherUnique(f, s[..n]);
      forall x | x in s[..n] ensures Apart(f(x), f(s[n])) {
        var i :| 0 <= i < n && s[i] == x;
      }
      GatherApart(f, s[..n], f(s[n]));
      assert s[n] in s;
      PlusUnique(Gather(f, s[..n]), f(s[n]));
    }
  }

  // ----- properties of every node and edge -----

  ghost predicate All(p: Part, nodes: RefNode -> bool, edges: RefEdge -> bool) {
    (forall n :: n in p.nodes ==> nodes(n)) && (forall e :: e in p.edges ==> edges(e))
  }

  lemma PlusAll(p: Part, q: Part, nodes: RefNode -> bool, edges: RefEdge -> bool)
    requires All(p, nodes, edges) && All(q, nodes, edges)
    ensures All(Plus(p, q), nodes, edges)
  {
  }

  lemma {:induction false} GatherAll<T>(f: T -> Part, s: seq<T>, nodes: RefNode -> bool, edges: RefEdge -> bool)
    requires forall x :: x in s ==> All(f(x), nodes, edges)
    ensures All(Gather(f, s), nodes, edges)
  {
    hide All;
    if s == [] {
      assert All(EmptyPart, nodes, edges) by { NothingToShow(nodes, edges); }
    } else {
      var n := |s| - 1;
      assert s == s[..n] + [s[n]];
      forall x | x in s[..n] ensures All(f(x), nodes, edges) { assert x in s; }
      GatherAll(f, s[..n], nodes, edges);
      assert s[n] in s;
      PlusAll(Gather(f, s[..n]), f(s[n]), nodes, edges);
    }
  }

  lemma NothingToShow(nodes: RefNode -> bool, edges: RefEdge -> bool)
    ensures All(EmptyPart, nodes, edges)
  {
  }

  // ----- identifiers in a part -----

  ghost function Refs(p: Part): set<NodeRef> { set n | n in p.nodes :: n.id }

  lemma PlusRefs(p: Part, q: Part)
    ensures Refs(Plus(p, q)) == Refs(p) + Refs(q)
  {
  }

  lemma {:induction false} GatherRefs<T>(f: T -> Part, s: seq<T>, x: T)
    requires x in s
    ensures Refs(f(x)) <= Refs(Gather(f, s))
  {
    var n := |s| - 1;
    assert s == s[..n] + [s[n]];
    PlusRefs(Gather(f, s[..n]), f(s[n]));
    hide Refs;
    if x in s[..n] { GatherRefs(f, s[..n], x); }
  }

  lemma {:induction false} GatherNodes<T>(f: T -> Part, s: seq<T>, x: T, n: RefNode)
    requires x in s && n in f(x).nodes
    ensures n in Gather(f, s).nodes
  {
    var k := |s| - 1;
    assert s == s[..k] + [s[k]];
    if x in s[..k] { GatherNodes(f, s[..k], x, n); }
  }

  function EndsIn(refs: set<NodeRef>): RefEdge -> bool { (e: RefEdge) => e.source in refs && e.target in refs }

  const AnyNode := (n: RefNode) => true

  /** Every edge of `p` joins nodes among `refs`. */
  ghost predicate Grounded(p: Part, refs: set<NodeRef>) { All(p, AnyNode, EndsIn(refs)) }

  // ----- who an identifier belongs to -----

  type Owner = (nat, string)

  /** The section of the graph and the resource in it that a node belongs to. */
  function NodeOwner(n: NodeRef): Owner {
    match n
    case ServerRef => (0, "")
    case EngineRef => (0, "")
    case ServiceRef(unit) => (1, unit)
    case ListenerRef(listener) => (2, listener)
    case ProjectRef(project) => (3, project)
    case ContainerRef(id) => (4, id)
    case PortRef(id, _) => (4, id)
    case MountRef(id, _) => (4, id)
    case NetworkRef(network) => (5, network)
    case ProxyRef(id) => (7, id)
    case UpstreamRef(id, _, _) => (7, id)
    case DomainRef(host) => (8, host)
  }

  /** The same for an edge: it was added for the resource at one of its ends. */
  function EdgeOwner(e: EdgeRef): Owner {
    match e
    case RouteLink(_, _, target) => NodeOwner(target)
    case Link(source, verb, target) =>
      match verb
      case Runs => NodeOwner(target)
      case Contains => NodeOwner(target)
      case Listens => NodeOwner(target)
      case OwnedBy => NodeOwner(source)
      case Exposes => NodeOwner(source)
      case Mounts => NodeOwner(source)
      case Network => NodeOwner(target)
      case PublishedAs => (6, NodeOwner(target).1)
      case Proxies => NodeOwner(source)
      case Resolves => NodeOwner(source)
      case Targets => NodeOwner(source)
  }

  function NodeOf(o: Owner): RefNode -> bool { (n: RefNode) => NodeOwner(n.id) == o }

  function EdgeOf(o: Owner): RefEdge -> bool { (e: RefEdge) => EdgeOwner(e.id) == o && ProperEdge(e.id) }

  ghost predicate Owned(p: Part, o: Owner) { All(p, NodeOf(o), EdgeOf(o)) }

  function NodeIn(sections: set<nat>): RefNode -> bool { (n: RefNode) => NodeOwner(n.id).0 in sections }

  function EdgeIn(sections: set<nat>): RefEdge -> bool { (e: RefEdge) => EdgeOwner(e.id).0 in sections && ProperEdge(e.id) }

  ghost predicate InSections(p: Part, sections: set<nat>) { All(p, NodeIn(sections), EdgeIn(sections)) }

  lemma OwnedApart(p: Part, q: Part, o: Owner, r: Owner)
    requires Owned(p, o) && Owned(q, r) && o != r
    ensures Apart(p, q)
  {
    hide NodeOwner, EdgeOwner;
  }

  lemma SectionsApart(p: Part, q: Part, s: set<nat>, t: set<nat>)
    requires InSections(p, s) && InSections(q, t) && s !! t
    ensures Apart(p, q)
  {
    hide NodeOwner, EdgeOwner;
  }

  /** A section built from one part per resource has unique identifiers. */
  lemma SectionUnique<T>(f: T -> Part, s: seq<T>, owner: T -> Owner, section: nat)
    requires UniqueBy(owner, s)
    requires forall x :: x in s ==> Unique(f(x)) && Owned(f(x), owner(x)) && owner(x).0 == section
    ensures Unique(Gather(f, s)) && InSections(Gather(f, s), {section})
  {
    hide Unique, Apart, Owned, InSections;
    forall i, j | 0 <= i < j < |s| ensures Apart(f(s[i]), f(s[j])) {
      assert s[i] in s && s[j] in s && owner(s[i]) != owner(s[j]);
      OwnedApart(f(s[i]), f(s[j]), owner(s[i]), owner(s[j]));
    }
    hide UniqueBy;
    GatherUnique(f, s);
    forall x | x in s ensures All(f(x), NodeIn({section}), EdgeIn({section})) {
      SectionOf(f(x), owner(x), section);
    }
    hide All;
    GatherAll(f, s, NodeIn({section}), EdgeIn({section}));
    SectionAll(Gather(f, s), section);
  }

  lemma SectionOf(p: Part, o: Owner, section: nat)
    requires Owned(p, o) && o.0 == section
    ensures All(p, NodeIn({section}), EdgeIn({section}))
  {
    hide NodeOwner, EdgeOwner, ProperEdge;
  }

  lemma SectionAll(p: Part, section: nat)
    ensures All(p, NodeIn({section}), EdgeIn({section})) <==> InSections(p, {section})
  {
  }

  /** Appending a new section keeps identifiers unique. */
  lemma AppendSection(p: Part, q: Part, sections: set<nat>, added: set<nat>)
    requires Unique(p) && InSections(p, sections) && Unique(q) && InSections(q, added) && sections !! added
    ensures Unique(Plus(p, q)) && InSections(Plus(p, q), sections + added)
  {
    SectionsApart(p, q, sections, added);
    PlusUnique(p, q);
    hide Unique, Apart, NodeOwner, EdgeOwner, ProperEdge;
  }
}

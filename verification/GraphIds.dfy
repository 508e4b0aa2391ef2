/**
  Identifiers of graph nodes and edges.

  `NodeRef` and `EdgeRef` are the identifiers as structure, `NodeText` and `EdgeText` the strings the
  graph carries.  The truncated SHA-256 is an arbitrary function `h` without collisions.
 */
module GraphIds {
  import opened Texts

  datatype NodeRef =
    | ServerRef
    | EngineRef
    | ServiceRef(unit: string)
    | ListenerRef(listener: string)
    | ProjectRef(project: string)
    | ContainerRef(container: string)
    | PortRef(container: string, port: string)
    | MountRef(container: string, mount: string)
    | NetworkRef(network: string)
    | ProxyRef(instance: string)
    | UpstreamRef(instance: string, route: string, upstream: string)
    | DomainRef(host: string)

  datatype Verb = Runs | Contains | Listens | OwnedBy | Exposes | Mounts | Network | PublishedAs | Proxies | Resolves | Targets

  datatype EdgeRef =
    | Link(source: NodeRef, verb: Verb, target: NodeRef)
    | RouteLink(host: string, route: string, target: NodeRef)

  function SourceOf(e: EdgeRef): NodeRef { match e case Link(s, _, _) => s case RouteLink(host, _, _) => DomainRef(host) }

  function VerbText(v: Verb): string {
    match v
    case Runs => "runs"
    case Contains => "contains"
    case Listens => "listens"
    case OwnedBy => "owned-by"
    case Exposes => "exposes"
    case Mounts => "mounts"
    case Network => "network"
    case PublishedAs => "published-as"
    case Proxies => "proxies"
    case Resolves => "resolves"
    case Targets => "targets"
  }

  /** A hash without collisions whose texts are colon-free and longer than every literal segment. */
  ghost predicate IsIdentity(h: string -> string) {
    && (forall a, b :: h(a) == h(b) ==> a == b)
    && (forall a :: ':' !in h(a) && |h(a)| >= 16)
  }

  /** Two characters per character, none of them a colon. */
  function Escaped(s: string): string {
    if s == [] then [] else (if s[0] == ':' then "1c" else ['0', s[0]]) + Escaped(s[1..])
  }

  const Padding := "0000000000000000"
  const PaddedEscape := (s: string) => Padding + Escaped(s)

  lemma {:induction false} EscapedInjective(s: string, t: string)
    requires Escaped(s) == Escaped(t)
    ensures s == t
  {
    if s != [] && t != [] {
      var x, y := Escaped(s), Escaped(t);
      assert x[0] == y[0] && x[1] == y[1];
      assert x[2..] == Escaped(s[1..]) && y[2..] == Escaped(t[1..]);
      EscapedInjective(s[1..], t[1..]);
      assert s == [s[0]] + s[1..] && t == [t[0]] + t[1..];
    }
  }

  lemma {:induction false} EscapedClean(s: string)
    ensures ':' !in Escaped(s)
  {
    if s != [] { EscapedClean(s[1..]); }
  }

  /** Such functions exist, so nothing below holds vacuously. */
  lemma IdentityExists()
    ensures IsIdentity(PaddedEscape)
  {
    forall a, b | PaddedEscape(a) == PaddedEscape(b) ensures a == b {
      assert (Padding + Escaped(a))[|Padding|..] == Escaped(a) && (Padding + Escaped(b))[|Padding|..] == Escaped(b);
      EscapedInjective(a, b);
    }
    forall a ensures ':' !in PaddedEscape(a) && |PaddedEscape(a)| >= 16 {
      EscapedClean(a);
      assert ':' !in Padding;
    }
  }

  function Segments(h: string -> string, server: string, n: NodeRef): (s: seq<string>)
    ensures s != [] && s[0] == "server"
  {
    match n
    case ServerRef => ["server", h(server)]
    case EngineRef => ["server", h(server), "docker"]
    case ServiceRef(unit) => ["server", h(server), "systemd", h(unit)]
    case ListenerRef(key) => ["server", h(server), "listener", h(key)]
    case ProjectRef(project) => ["server", h(server), "docker", "compose", h(project)]
    case ContainerRef(id) => ["server", h(server), "docker", "container", h(id)]
    case PortRef(id, port) => ["server", h(server), "docker", "container", h(id), "port", h(port)]
    case MountRef(id, mount) => ["server", h(server), "docker", "container", h(id), "mount", h(mount)]
    case NetworkRef(network) => ["server", h(server), "docker", "network", h(network)]
    case ProxyRef(id) => ["server", h(server), "caddy", h(id)]
    case UpstreamRef(id, route, upstream) => ["server", h(server), "caddy", h(id), "route", h(route), "upstream", h(upstream)]
    case DomainRef(host) => ["server", h(server), "domain", h(host)]
  }

  function NodeText(h: string -> string, server: string, n: NodeRef): string { Join(":", Segments(h, server, n)) }

  /** What stands between the two node identifiers in an edge identifier. */
  function Middle(h: string -> string, e: EdgeRef): seq<string> {
    match e
    case Link(_, verb, _) => [VerbText(verb)]
    case RouteLink(_, route, target) => ["route", h(route), if target.ProxyRef? then "proxy" else "upstream"]
  }

  function EdgeSegments(h: string -> string, server: string, e: EdgeRef): seq<string> {
    Segments(h, server, SourceOf(e)) + Middle(h, e) + Segments(h, server, e.target)
  }

  function EdgeText(h: string -> string, server: string, e: EdgeRef): string { Join(":", EdgeSegments(h, server, e)) }

  // ----- identifiers are told apart by their texts -----

  lemma SegmentsInjective(h: string -> string, server: string, a: NodeRef, b: NodeRef)
    requires IsIdentity(h) && Segments(h, server, a) == Segments(h, server, b)
    ensures a == b
  {
    var s, t := Segments(h, server, a), Segments(h, server, b);
    assert |s| == |t|;
    assert forall i :: 0 <= i < |s| ==> s[i] == t[i];
  }

  predicate CleanWord(s: string) { ':' !in s && s != "server" }

  lemma WordsClean()
    ensures CleanWord("docker") && CleanWord("systemd") && CleanWord("listener") && CleanWord("compose")
    ensures CleanWord("container") && CleanWord("port") && CleanWord("mount") && CleanWord("network")
    ensures CleanWord("caddy") && CleanWord("route") && CleanWord("upstream") && CleanWord("domain") && CleanWord("proxy")
  {
  }

  lemma HashClean(h: string -> string)
    requires IsIdentity(h)
    ensures forall a :: CleanWord(h(a))
  {
  }

  /** Only the first segment of a node is "server", and none contains a colon. */
  lemma SegmentsClean(h: string -> string, server: string, n: NodeRef)
    requires IsIdentity(h)
    ensures forall i :: 0 < i < |Segments(h, server, n)| ==> CleanWord(Segments(h, server, n)[i])
  {
    WordsClean();
    HashClean(h);
    hide CleanWord, IsIdentity;
  }

  lemma NodeSegmentsSeparate(h: string -> string, server: string, n: NodeRef)
    requires IsIdentity(h)
    ensures AllWithout(':', Segments(h, server, n))
  {
    SegmentsClean(h, server, n);
    hide Segments, IsIdentity;
  }

  /** Different nodes have different identifier texts. */
  lemma NodeTextInjective(h: string -> string, server: string, a: NodeRef, b: NodeRef)
    requires IsIdentity(h) && NodeText(h, server, a) == NodeText(h, server, b)
    ensures a == b
  {
    hide Segments, IsIdentity, Join;
    NodeSegmentsSeparate(h, server, a);
    NodeSegmentsSeparate(h, server, b);
    JoinInjective(':', Segments(h, server, a), Segments(h, server, b));
    SegmentsInjective(h, server, a, b);
  }

  // ----- edges -----

  lemma VerbsClean(v: Verb)
    ensures CleanWord(VerbText(v)) && VerbText(v) != "proxy" && VerbText(v) != "upstream"
  {
  }

  lemma VerbTextInjective(v: Verb, w: Verb)
    requires VerbText(v) == VerbText(w)
    ensures v == w
  {
  }

  /** Routes only lead to proxies and upstreams. */
  predicate ProperEdge(e: EdgeRef) { e.RouteLink? ==> e.target.ProxyRef? || e.target.UpstreamRef? }

  lemma MiddleClean(h: string -> string, e: EdgeRef)
    requires IsIdentity(h)
    ensures forall i :: 0 <= i < |Middle(h, e)| ==> CleanWord(Middle(h, e)[i])
  {
    WordsClean();
    HashClean(h);
    if e.Link? { VerbsClean(e.verb); }
    hide CleanWord, IsIdentity, VerbText;
  }

  /** Lists that start with "server" and then never repeat it are recovered from their concatenation. */
  lemma ServerSplits(a: seq<string>, x: seq<string>, b: seq<string>, y: seq<string>)
    requires a != [] && b != [] && x != [] && y != [] && x[0] == y[0] == "server"
    requires forall i :: 0 < i < |a| ==> a[i] != "server"
    requires forall i :: 0 < i < |b| ==> b[i] != "server"
    requires a + x == b + y
    ensures a == b && x == y
  {
    var s, t := a + x, b + y;
    assert s[|a|] == "server" && t[|b|] == "server";
    assert forall i :: 0 < i < |a| ==> s[i] == a[i];
    assert forall i :: 0 < i < |b| ==> t[i] == b[i];
    assert |a| == |b|;
    assert s[..|a|] == a && t[..|b|] == b && s[|a|..] == x && t[|b|..] == y;
  }

  function Front(h: string -> string, server: string, e: EdgeRef): seq<string> {
    Segments(h, server, SourceOf(e)) + Middle(h, e)
  }

  lemma FrontClean(h: string -> string, server: string, e: EdgeRef)
    requires IsIdentity(h)
    ensures Front(h, server, e) != []
    ensures forall i :: 0 < i < |Front(h, server, e)| ==> CleanWord(Front(h, server, e)[i])
    ensures AllWithout(':', EdgeSegments(h, server, e))
  {
    SegmentsClean(h, server, SourceOf(e));
    SegmentsClean(h, server, e.target);
    MiddleClean(h, e);
    hide Segments, Middle, IsIdentity;
  }

  lemma FrontInjective(h: string -> string, server: string, d: EdgeRef, e: EdgeRef)
    requires IsIdentity(h) && Front(h, server, d) == Front(h, server, e) && ProperEdge(d) && ProperEdge(e)
    requires d.target == e.target
    ensures d == e
  {
    var s, t := Front(h, server, d), Front(h, server, e);
    assert s[|s| - 1] == t[|t| - 1];
    if d.Link? { VerbsClean(d.verb); }
    if e.Link? { VerbsClean(e.verb); }
    if d.Link? && e.Link? {
      VerbTextInjective(d.verb, e.verb);
      assert s[..|s| - 1] == Segments(h, server, d.source) && t[..|t| - 1] == Segments(h, server, e.source);
      SegmentsInjective(h, server, d.source, e.source);
    } else {
      assert d.RouteLink? && e.RouteLink?;
      assert s[3] == t[3] && s[5] == t[5];
    }
  }

  /** Different edges have different identifier texts. */
  lemma EdgeTextInjective(h: string -> string, server: string, d: EdgeRef, e: EdgeRef)
    requires IsIdentity(h) && EdgeText(h, server, d) == EdgeText(h, server, e) && ProperEdge(d) && ProperEdge(e)
    ensures d == e
  {
    FrontClean(h, server, d);
    FrontClean(h, server, e);
    assert EdgeSegments(h, server, d) == Front(h, server, d) + Segments(h, server, d.target);
    assert EdgeSegments(h, server, e) == Front(h, server, e) + Segments(h, server, e.target);
    hide Segments, Front, IsIdentity, Join, ProperEdge;
    JoinInjective(':', EdgeSegments(h, server, d), EdgeSegments(h, server, e));
    hide EdgeSegments;
    ServerSplits(Front(h, server, d), Segments(h, server, d.target), Front(h, server, e), Segments(h, server, e.target));
    SegmentsInjective(h, server, d.target, e.target);
    FrontInjective(h, server, d, e);
  }
}

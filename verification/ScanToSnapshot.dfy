/** From a helper's report to a snapshot: parsing, graph construction and projection fit together. */
module ScanToSnapshot {
  import opened Ordering
  import opened Collections
  import opened Graphs
  import opened Discovery
  import opened GraphIds
  import opened GraphSpec
  import opened GraphRouting
  import opened GraphParts
  import opened GraphShape
  import opened GraphEnds
  import opened JsonData
  import opened HelperParser
  import opened Projection
  import opened DiffEngine

  /** The two things a report must not repeat. */
  predicate NoRepeats(docker: Docker) {
    UniqueBy(ContainerIdOf, docker.containers) && UniqueBy(InstanceIdOf, docker.caddy.instances)
  }

  lemma ParsedSound(rules: Rules, root: Option<Json>)
    ensures NoRepeats(Parsed(rules, root)) <==> Sound(Parsed(rules, root))
  {
    hide FilterMap, SortBy, SystemdOf, ListenersOf, CaddyOf, AnyMalformed, DistinctBy, Text, Int, Bool;
    var docker := Parsed(rules, root);
    if docker.state == AVAILABLE {
      var o := root.value.fields;
      SystemdUnitsUnique(rules, Member(o, "systemd"));
      ListenerKeysUnique(rules, Member(o, "listeners"));
      forall i | i in docker.caddy.instances ensures UniqueBy(RouteKeyOf, i.routes) {
        CaddyRoutesUnique(rules, Member(o, "caddy"), i);
      }
    }
  }

  // ----- repeated identifiers are found -----

  /** A part per element that starts with a node tagged by it tells the elements apart. */
  lemma {:induction false} TagsUnique<T>(f: T -> Part, s: seq<T>, tag: T -> NodeRef)
    requires UniqueBy(NodeIdOf, Gather(f, s).nodes)
    requires forall x :: x in s ==> f(x).nodes != [] && f(x).nodes[0].id == tag(x)
    ensures UniqueBy(tag, s)
  {
    if s != [] {
      var n := |s| - 1;
      var front, last := Gather(f, s[..n]).nodes, f(s[n]).nodes;
      assert s == s[..n] + [s[n]];
      assert Gather(f, s).nodes == front + last;
      assert s[n] in s;
      UniqueSplit(NodeIdOf, front, last);
      forall x | x in s[..n] ensures f(x).nodes != [] && f(x).nodes[0].id == tag(x) { assert x in s; }
      TagsUnique(f, s[..n], tag);
      forall i | 0 <= i < n ensures tag(s[i]) != tag(s[n]) {
        assert s[i] in s[..n];
        GatherHead(f, s[..n], s[i]);
        assert last[0] in last;
        assert NodeIdOf(f(s[i]).nodes[0]) != NodeIdOf(last[0]);
      }
    }
  }

  lemma GatherHead<T>(f: T -> Part, s: seq<T>, x: T)
    requires x in s && f(x).nodes != []
    ensures f(x).nodes[0] in Gather(f, s).nodes
  {
    GatherNodes(f, s, x, f(x).nodes[0]);
  }

  lemma UniqueSplit<K, V>(key: V -> K, a: seq<V>, b: seq<V>)
    requires UniqueBy(key, a + b)
    ensures UniqueBy(key, a) && UniqueBy(key, b)
    ensures forall x, y :: x in a && y in b ==> key(x) != key(y)
  {
    var s := a + b;
    forall i, j | 0 <= i < j < |a| ensures key(a[i]) != key(a[j]) { assert key(s[i]) != key(s[j]); }
    forall i, j | 0 <= i < j < |b| ensures key(b[i]) != key(b[j]) { assert key(s[|a| + i]) != key(s[|a| + j]); }
    forall x, y | x in a && y in b ensures key(x) != key(y) {
      var i :| 0 <= i < |a| && a[i] == x;
      var j :| 0 <= j < |b| && b[j] == y;
      assert key(s[i]) != key(s[|a| + j]);
    }
  }

  const ContainerTag := (c: Container) => ContainerRef(c.id)
  const InstanceTag := (i: CaddyInstance) => ProxyRef(i.containerId)

  lemma ContainerHead(projects: map<string, ComposeProject>, c: Container)
    ensures var nodes := ContainerPart(projects)(c).nodes; nodes != [] && nodes[0].id == ContainerTag(c)
  {
    assert ContainerNode(c).id == ContainerRef(c.id) by { hide Listed, With; }
    hide ContainerNode, Gather;
  }

  lemma InstanceHead(env: Env, docker: Docker, i: CaddyInstance)
    ensures var nodes := InstancePart(env, docker)(i).nodes; nodes != [] && nodes[0].id == InstanceTag(i)
  {
    assert ProxyNode(env, i).id == ProxyRef(i.containerId) by { hide FlatMap, FilterMap, With; }
    hide ProxyNode, Gather, KnownContainer;
  }

  lemma UniqueTags<K, L, V>(key: V -> K, tag: V -> L, s: seq<V>)
    requires UniqueBy(tag, s) && forall x, y :: key(x) == key(y) ==> tag(x) == tag(y)
    ensures UniqueBy(key, s)
  {
  }

  lemma ContainersMustDiffer(docker: Docker)
    requires UniqueBy(NodeIdOf, DockerResources(docker).nodes)
    ensures UniqueBy(ContainerIdOf, docker.containers)
  {
    var projects, members := Projects(docker), Members(docker);
    var f, s := ContainerPart(projects), SortedContainers(docker);
    var a := Gather(ProjectPart(docker, projects), SortedSet(projects.Keys)).nodes;
    var c := Gather(NetworkPart(docker, members), SortedSet(members.Keys)).nodes;
    assert DockerResources(docker).nodes == a + Gather(f, s).nodes + c;
    hide Gather, ContainerPart, SortBy, DockerResources, Projects, Members;
    UniqueSplit(NodeIdOf, a + Gather(f, s).nodes, c);
    UniqueSplit(NodeIdOf, a, Gather(f, s).nodes);
    hide UniqueBy;
    forall x | x in s ensures f(x).nodes != [] && f(x).nodes[0].id == ContainerTag(x) { ContainerHead(projects, x); }
    TagsUnique(f, s, ContainerTag);
    UniqueTags(ContainerIdOf, ContainerTag, s);
    UniqueByPermutation(ContainerIdOf, s, docker.containers);
  }

  lemma InstancesMustDiffer(env: Env, docker: Docker)
    requires UniqueBy(NodeIdOf, Routing(env, docker).nodes)
    ensures UniqueBy(InstanceIdOf, docker.caddy.instances)
  {
    var f, s := InstancePart(env, docker), SortBy(InstanceLe, docker.caddy.instances);
    hide Gather, InstancePart, SortBy, UniqueBy;
    forall x | x in s ensures f(x).nodes != [] && f(x).nodes[0].id == InstanceTag(x) { InstanceHead(env, docker, x); }
    TagsUnique(f, s, InstanceTag);
    UniqueTags(InstanceIdOf, InstanceTag, s);
    UniqueByPermutation(InstanceIdOf, s, docker.caddy.instances);
  }

  lemma PartsUnique(env: Env, d: HostDiscovery)
    requires d.docker.state == AVAILABLE && UniqueBy(NodeIdOf, GraphOf(env, d).nodes)
    ensures UniqueBy(NodeIdOf, DockerResources(d.docker).nodes) && UniqueBy(NodeIdOf, Routing(env, d.docker).nodes)
  {
    hide HostResources, DockerResources, Correlations, Routing, Domains, UniqueBy;
    var a, b, c, e := HostResources(env, d).nodes, DockerResources(d.docker).nodes, Correlations(d.docker).nodes, Routing(env, d.docker).nodes;
    UniqueSplit(NodeIdOf, Routed(env, d).nodes, Domains(Routed(env, d).visits).nodes);
    assert Routed(env, d).nodes == a + b + c + e;
    UniqueSplit(NodeIdOf, a + b + c, e);
    UniqueSplit(NodeIdOf, a + b, c);
    UniqueSplit(NodeIdOf, a, b);
  }

  lemma TextsUnique(env: Env, server: string, nodes: seq<RefNode>)
    requires UniqueBy(InfraNodeId, Map(TextNode(env, server), nodes))
    ensures UniqueBy(NodeIdOf, nodes)
  {
    var texts := Map(TextNode(env, server), nodes);
    forall i, j | 0 <= i < j < |nodes| ensures NodeIdOf(nodes[i]) != NodeIdOf(nodes[j]) {
      assert InfraNodeId(texts[i]) != InfraNodeId(texts[j]);
      assert texts[i] == TextNode(env, server)(nodes[i]) && texts[j] == TextNode(env, server)(nodes[j]);
      hide NodeText, Map;
    }
  }

  lemma RepeatsBreakGraph(env: Env, d: HostDiscovery)
    requires d.docker.state == AVAILABLE && WellFormed(Written(env, d.host, GraphOf(env, d)))
    ensures NoRepeats(d.docker)
  {
    hide GraphOf, UniqueBy, ServerText;
    TextsUnique(env, ServerText(env, d.host), GraphOf(env, d).nodes);
    PartsUnique(env, d);
    ContainersMustDiffer(d.docker);
    InstancesMustDiffer(env, d.docker);
  }

  lemma UnavailableHasNone(rules: Rules, root: Option<Json>)
    ensures Parsed(rules, root).state != AVAILABLE ==> NoRepeats(Parsed(rules, root))
  {
    hide FilterMap, SortBy, SystemdOf, ListenersOf, CaddyOf, AnyMalformed, DistinctBy, Text, Int, Bool;
  }

  lemma ContentExact(g: InfraGraph)
    ensures ContentOf(g).Success? <==> WellFormed(g)
    ensures WellFormed(g) ==> ContentOf(g) == Success(Canonical(g))
  {
    hide Canonical;
  }

  lemma CanonicalValid(g: InfraGraph)
    requires WellFormed(g)
    ensures ValidContent(Canonical(g))
  {
    CanonicalWellFormed(g);
    hide Canonical, UniqueBy;
  }

  /**
    From any helper report to a snapshot: projecting the built graph succeeds exactly when the report
    repeats no container and no Caddy container, and the diff engine then accepts the content.
   */
  lemma ReportsProject(rules: Rules, env: Env, host: HostInfo, root: Option<Json>)
    requires IsIdentity(env.identity)
    ensures var d := HostDiscovery(host, Parsed(rules, root));
      var g := Written(env, host, GraphOf(env, d));
      && (ContentOf(g).Success? <==> NoRepeats(d.docker))
      && (NoRepeats(d.docker) ==> ContentOf(g) == Success(Canonical(g)) && ValidContent(Canonical(g)))
  {
    hide GraphOf, Parsed, IsIdentity, Written, WellFormed, NoRepeats, ContentOf, ValidContent, Canonical, Sound;
    var d := HostDiscovery(host, Parsed(rules, root));
    var g := Written(env, host, GraphOf(env, d));
    ParsedSound(rules, root);
    ContentExact(g);
    UnavailableHasNone(rules, root);
    if NoRepeats(d.docker) {
      BuiltGraphWellFormed(env, d);
      CanonicalValid(g);
    } else if WellFormed(g) {
      RepeatsBreakGraph(env, d);
    }
  }
}

/**
  Reducing a Caddy configuration to its reverse-proxy routes.

  `Emitted`, `Reached` and `TooDeep` specify the recursive walk; `CaddyWalker` is the walk with its
  shared visit counter; `CaddyChains` relates both to root-to-proxy chains.
 */
module CaddyRoutes {
  import opened Ordering
  import opened Collections
  import opened JsonData

  const MAX_CADDY_ROUTE_DEPTH := 32
  const MAX_CADDY_ROUTES := 5000

  /** The text sanitizers: what a matcher value or a dial address reduces to, if it is acceptable. */
  datatype Sanitizers = Sanitizers(host: Json -> Option<string>, path: Json -> Option<string>, dial: Option<Json> -> Option<string>)

  /** Matchers in force for the handlers of a route. */
  datatype Context = Context(hosts: seq<string>, hostUnresolved: bool, paths: seq<string>)

  const NoContext := Context([], false, [])

  /** A route as published; `None` is an upstream whose address did not pass. */
  datatype Route = Route(
    hosts: seq<string>, hostless: bool, hostUnresolved: bool, paths: seq<string>,
    upstreams: seq<Option<string>>, dynamic: bool)

  // ----- one route -----

  function MatchValues(sanitize: Json -> Option<string>, key: string): Json -> set<string> {
    (m: Json) => Elems(FilterMap(sanitize, List(FieldsOf(m), key)))
  }

  function AllValues(sanitize: Json -> Option<string>, key: string, matches: seq<Json>): set<string> {
    if matches == [] then {} else AllValues(sanitize, key, matches[..|matches| - 1]) + MatchValues(sanitize, key)(matches[|matches| - 1])
  }

  predicate HasMatcher(route: Json, key: string) { exists m :: m in List(FieldsOf(route), "match") && key in FieldsOf(m) }

  /** The acceptable values of a route's own matchers, in order. */
  function OwnValues(sanitize: Json -> Option<string>, key: string, route: Json): seq<string> {
    SortedSet(AllValues(sanitize, key, List(FieldsOf(route), "match")))
  }

  function OwnHosts(s: Sanitizers, route: Json): seq<string> { OwnValues(s.host, "host", route) }

  function OwnPaths(s: Sanitizers, route: Json): seq<string> { OwnValues(s.path, "path", route) }

  /** The context inside a route. */
  function Enter(s: Sanitizers, outer: Context, route: Json): Context {
    var matched := HasMatcher(route, "host");
    Context(
      if matched then OwnHosts(s, route) else outer.hosts,
      (matched && OwnHosts(s, route) == []) || (!matched && outer.hostUnresolved),
      if HasMatcher(route, "path") then OwnPaths(s, route) else outer.paths)
  }

  function DialOf(s: Sanitizers): Json -> Option<string> { (u: Json) => s.dial(Member(FieldsOf(u), "dial")) }

  /** Distinct upstreams, known addresses first and in order. */
  function Upstreams(s: Sanitizers, handler: Fields): seq<Option<string>> {
    var raw := List(handler, "upstreams");
    Map(Known, SortedSet(Elems(FilterMap(DialOf(s), raw)))) + if exists u :: u in raw && DialOf(s)(u).None? then [None] else []
  }

  const Known := (dial: string) => Some(dial)

  function Proxied(s: Sanitizers, context: Context, handler: Fields): Route {
    Route(SortedSet(Elems(context.hosts)), context.hosts == [] && !context.hostUnresolved, context.hostUnresolved,
      SortedSet(Elems(context.paths)), Upstreams(s, handler), "dynamic" in handler && handler["dynamic"] != Null)
  }

  predicate IsProxy(handler: Json) { Text(FieldsOf(handler), "handler") == Some("reverse_proxy") }

  predicate IsSubroute(handler: Json) { Text(FieldsOf(handler), "handler") == Some("subroute") }

  function Handlers(route: Json): seq<Json> { List(FieldsOf(route), "handle") }

  function Subroutes(handler: Json): seq<Json> { List(FieldsOf(handler), "routes") }

  // ----- the walk, specified -----

  /** The routes below a list of raw routes, in the order the walk meets them. */
  function Emitted(s: Sanitizers, routes: seq<Json>, context: Context): seq<Route>
    decreases routes
  {
    if routes == [] then []
    else
      var n := |routes| - 1;
      Emitted(s, routes[..n], context) + RouteEmitted(s, routes[n], context)
  }

  function RouteEmitted(s: Sanitizers, route: Json, outer: Context): seq<Route>
    decreases route
  {
    if Handlers(route) == [] then [] else HandlersEmitted(s, Handlers(route), Enter(s, outer, route))
  }

  function HandlersEmitted(s: Sanitizers, handlers: seq<Json>, context: Context): seq<Route>
    decreases handlers
  {
    if handlers == [] then []
    else
      var n := |handlers| - 1;
      HandlersEmitted(s, handlers[..n], context) + HandlerEmitted(s, handlers[n], context)
  }

  function HandlerEmitted(s: Sanitizers, handler: Json, context: Context): seq<Route>
    decreases handler
  {
    if IsProxy(handler) then [Proxied(s, context, FieldsOf(handler))]
    else if IsSubroute(handler) && Subroutes(handler) != [] then Emitted(s, Subroutes(handler), context)
    else []
  }

  /** How many routes the walk visits. */
  function Reached(routes: seq<Json>): nat
    decreases routes
  {
    if routes == [] then 0 else Reached(routes[..|routes| - 1]) + 1 + RouteReached(routes[|routes| - 1])
  }

  function RouteReached(route: Json): nat
    decreases route
  {
    if Handlers(route) == [] then 0 else HandlersReached(Handlers(route))
  }

  function HandlersReached(handlers: seq<Json>): nat
    decreases handlers
  {
    if handlers == [] then 0 else HandlersReached(handlers[..|handlers| - 1]) + HandlerReached(handlers[|handlers| - 1])
  }

  function HandlerReached(handler: Json): nat
    decreases handler
  {
    if IsSubroute(handler) && Subroutes(handler) != [] then Reached(Subroutes(handler)) else 0
  }

  /** Some subroute lies below depth 32. */
  predicate TooDeep(routes: seq<Json>, depth: nat)
    decreases routes
  {
    depth > MAX_CADDY_ROUTE_DEPTH || exists r :: r in routes && RouteTooDeep(r, depth)
  }

  predicate RouteTooDeep(route: Json, depth: nat)
    decreases route
  {
    exists h :: h in Handlers(route) && HandlerTooDeep(h, depth)
  }

  predicate HandlerTooDeep(handler: Json, depth: nat)
    decreases handler
  {
    IsSubroute(handler) && (depth >= MAX_CADDY_ROUTE_DEPTH || exists r :: r in Subroutes(handler) && RouteTooDeep(r, depth + 1))
  }

  // ----- measures -----

  /** A size that every step of the walk lowers, empty subroutes included. */
  function Weight(routes: seq<Json>): nat
    decreases routes
  {
    if routes == [] then 0 else Weight(routes[..|routes| - 1]) + 1 + RouteWeight(routes[|routes| - 1])
  }

  function RouteWeight(route: Json): nat
    decreases route
  {
    if Handlers(route) == [] then 0 else HandlersWeight(Handlers(route))
  }

  function HandlersWeight(handlers: seq<Json>): nat
    decreases handlers
  {
    if handlers == [] then 0
    else HandlersWeight(handlers[..|handlers| - 1]) + 1 + HandlerWeight(handlers[|handlers| - 1])
  }

  function HandlerWeight(handler: Json): nat
    decreases handler
  {
    if Subroutes(handler) == [] then 0 else Weight(Subroutes(handler))
  }

  lemma {:induction false} WeightLess(routes: seq<Json>, i: nat)
    requires i < |routes|
    ensures RouteWeight(routes[i]) < Weight(routes)
    decreases |routes|
  {
    if i < |routes| - 1 { WeightLess(routes[..|routes| - 1], i); }
  }

  lemma {:induction false} HandlerWeightLess(handlers: seq<Json>, i: nat)
    requires i < |handlers|
    ensures HandlerWeight(handlers[i]) < HandlersWeight(handlers)
    decreases |handlers|
  {
    if i < |handlers| - 1 { HandlerWeightLess(handlers[..|handlers| - 1], i); }
  }

  lemma SubrouteWeight(handler: Json)
    ensures Weight(Subroutes(handler)) == HandlerWeight(handler)
  {
  }

  lemma ReachedStep(routes: seq<Json>, i: nat)
    requires i < |routes|
    ensures Reached(routes[..i + 1]) == Reached(routes[..i]) + 1 + RouteReached(routes[i])
  {
    assert routes[..i + 1][..i] == routes[..i];
  }

  lemma {:induction false} ReachedPrefix(routes: seq<Json>, i: nat)
    requires i <= |routes|
    ensures Reached(routes[..i]) <= Reached(routes)
    decreases |routes| - i
  {
    if i < |routes| {
      ReachedStep(routes, i);
      ReachedPrefix(routes, i + 1);
    } else {
      assert routes[..i] == routes;
    }
  }

  lemma EmittedStep(s: Sanitizers, routes: seq<Json>, context: Context, i: nat)
    requires i < |routes|
    ensures Emitted(s, routes[..i + 1], context) == Emitted(s, routes[..i], context) + RouteEmitted(s, routes[i], context)
  {
    assert routes[..i + 1][..i] == routes[..i];
  }

  lemma HandlersReachedStep(handlers: seq<Json>, i: nat)
    requires i < |handlers|
    ensures HandlersReached(handlers[..i + 1]) == HandlersReached(handlers[..i]) + HandlerReached(handlers[i])
  {
    assert handlers[..i + 1][..i] == handlers[..i];
  }

  lemma {:induction false} HandlersReachedPrefix(handlers: seq<Json>, i: nat)
    requires i <= |handlers|
    ensures HandlersReached(handlers[..i]) <= HandlersReached(handlers)
    decreases |handlers| - i
  {
    if i < |handlers| {
      HandlersReachedStep(handlers, i);
      HandlersReachedPrefix(handlers, i + 1);
    } else {
      assert handlers[..i] == handlers;
    }
  }

  lemma HandlersEmittedStep(s: Sanitizers, handlers: seq<Json>, context: Context, i: nat)
    requires i < |handlers|
    ensures HandlersEmitted(s, handlers[..i + 1], context) ==
      HandlersEmitted(s, handlers[..i], context) + HandlerEmitted(s, handlers[i], context)
  {
    assert handlers[..i + 1][..i] == handlers[..i];
  }

  // ----- the walk as it runs -----

  class CaddyWalker {
    const s: Sanitizers
    var visited: nat
    var routes: seq<Route>

    constructor (s: Sanitizers)
      ensures this.s == s && visited == 0 && routes == []
    {
      this.s, visited, routes := s, 0, [];
    }

    /** `walk`; false stands for the exception that rejects the configuration. */
    method Walk(raw: seq<Json>, context: Context, depth: nat) returns (ok: bool)
      requires visited <= MAX_CADDY_ROUTES
      modifies this
      ensures ok <==> !TooDeep(raw, depth) && old(visited) + Reached(raw) <= MAX_CADDY_ROUTES
      ensures ok ==> visited == old(visited) + Reached(raw) && routes == old(routes) + Emitted(s, raw, context)
      decreases Weight(raw), 1
    {
      hide RouteTooDeep, RouteReached, RouteEmitted, Reached, Emitted, Weight, RouteWeight;
      NothingYet(s, raw, context);
      if depth > MAX_CADDY_ROUTE_DEPTH { return false; }
      for i := 0 to |raw|
        invariant visited == old(visited) + Reached(raw[..i]) <= MAX_CADDY_ROUTES
        invariant routes == old(routes) + Emitted(s, raw[..i], context)
        invariant forall r :: r in raw[..i] ==> !RouteTooDeep(r, depth)
      {
        ReachedStep(raw, i);
        ReachedPrefix(raw, i + 1);
        EmittedStep(s, raw, context, i);
        WeightLess(raw, i);
        assert raw[i] in raw;
        visited := visited + 1;
        if visited > MAX_CADDY_ROUTES { return false; }
        var entered := Visit(raw[i], context, depth);
        if !entered { return false; }
        assert raw[..i + 1] == raw[..i] + [raw[i]];
      }
      assert raw[..|raw|] == raw;
      ok := true;
    }

    /** The body of the walk's loop: one route and its handlers. */
    method Visit(route: Json, outer: Context, depth: nat) returns (ok: bool)
      requires visited <= MAX_CADDY_ROUTES && depth <= MAX_CADDY_ROUTE_DEPTH
      modifies this
      ensures ok <==> !RouteTooDeep(route, depth) && old(visited) + RouteReached(route) <= MAX_CADDY_ROUTES
      ensures ok ==> visited == old(visited) + RouteReached(route) && routes == old(routes) + RouteEmitted(s, route, outer)
      decreases RouteWeight(route), 0
    {
      var handlers, context := Handlers(route), Enter(s, outer, route);
      RouteParts(s, route, outer);
      hide Reached, Emitted, HandlersReached, HandlersEmitted, HandlersWeight, HandlerWeight, Weight, Enter, RouteEmitted, RouteReached, RouteWeight;
      hide Proxied, IsProxy, IsSubroute, HandlerTooDeep, HandlerReached, HandlerEmitted, Handlers, Subroutes;
      for i := 0 to |handlers|
        invariant visited == old(visited) + HandlersReached(handlers[..i]) <= MAX_CADDY_ROUTES
        invariant routes == old(routes) + HandlersEmitted(s, handlers[..i], context)
        invariant forall h :: h in handlers[..i] ==> !HandlerTooDeep(h, depth)
      {
        var handler := handlers[i];
        HandlersReachedStep(handlers, i);
        HandlersReachedPrefix(handlers, i + 1);
        HandlersEmittedStep(s, handlers, context, i);
        HandlerParts(s, handler, context, depth);
        HandlerWeightLess(handlers, i);
        SubrouteWeight(handler);
        assert handler in handlers;
        if IsProxy(handler) {
          routes := routes + [Proxied(s, context, FieldsOf(handler))];
        } else if IsSubroute(handler) {
          var walked := Walk(Subroutes(handler), context, depth + 1);
          if !walked { return false; }
        }
        assert handlers[..i + 1] == handlers[..i] + [handler];
      }
      assert handlers[..|handlers|] == handlers;
      ok := true;
    }
  }

  lemma NothingYet(s: Sanitizers, raw: seq<Json>, context: Context)
    ensures Reached(raw[..0]) == 0 && Emitted(s, raw[..0], context) == []
  {
  }

  lemma RouteParts(s: Sanitizers, route: Json, outer: Context)
    ensures RouteReached(route) == HandlersReached(Handlers(route))
    ensures RouteEmitted(s, route, outer) == HandlersEmitted(s, Handlers(route), Enter(s, outer, route))
    ensures RouteWeight(route) == HandlersWeight(Handlers(route))
    ensures HandlersReached(Handlers(route)[..0]) == 0
    ensures HandlersEmitted(s, Handlers(route)[..0], Enter(s, outer, route)) == []
  {
  }

  lemma HandlerParts(s: Sanitizers, handler: Json, context: Context, depth: nat)
    requires depth <= MAX_CADDY_ROUTE_DEPTH
    ensures !(IsProxy(handler) && IsSubroute(handler))
    ensures HandlerTooDeep(handler, depth) <==> IsSubroute(handler) && TooDeep(Subroutes(handler), depth + 1)
    ensures HandlerReached(handler) == if IsSubroute(handler) then Reached(Subroutes(handler)) else 0
    ensures HandlerEmitted(s, handler, context) ==
      if IsProxy(handler) then [Proxied(s, context, FieldsOf(handler))]
      else if IsSubroute(handler) then Emitted(s, Subroutes(handler), context) else []
  {
  }

  // ----- whole configurations -----

  function Servers(config: Json): Fields { Object(Object(Object(FieldsOf(config), "apps"), "http"), "servers") }

  function ServerRoutes(servers: Fields): string -> seq<Json> { (name: string) => List(Object(servers, name), "routes") }

  /** The top-level routes of all servers, in server order. */
  function RootRoutes(config: Json): seq<Json> { FlatMap(ServerRoutes(Servers(config)), SortedSet(Servers(config).Keys)) }

  /** One route per written form, ordered by it. */
  function Published(dump: Route -> string, routes: seq<Route>): seq<Route> { LastByKey(dump, routes) }

  predicate Accepted(config: Json) {
    config.Obj? && !TooDeep(RootRoutes(config), 0) && Reached(RootRoutes(config)) <= MAX_CADDY_ROUTES
  }

  /** `sanitize_caddy_config`; `None` stands for a rejected configuration. */
  function Sanitized(s: Sanitizers, dump: Route -> string, config: Option<Json>): Option<seq<Route>> {
    if config.Some? && Accepted(config.value) then Some(Published(dump, Emitted(s, RootRoutes(config.value), NoContext))) else None
  }

  lemma {:induction false} ReachedAppend(a: seq<Json>, b: seq<Json>)
    ensures Reached(a + b) == Reached(a) + Reached(b)
    decreases |b|
  {
    if b == [] {
      assert a + b == a;
    } else {
      var n := |b| - 1;
      assert (a + b)[..|a| + n] == a + b[..n];
      hide RouteReached;
      ReachedAppend(a, b[..n]);
    }
  }

  lemma {:induction false} EmittedAppend(s: Sanitizers, a: seq<Json>, b: seq<Json>, context: Context)
    ensures Emitted(s, a + b, context) == Emitted(s, a, context) + Emitted(s, b, context)
    decreases |b|
  {
    if b == [] {
      assert a + b == a;
    } else {
      var n := |b| - 1;
      assert (a + b)[..|a| + n] == a + b[..n];
      hide RouteEmitted;
      EmittedAppend(s, a, b[..n], context);
    }
  }

  lemma TooDeepAppend(a: seq<Json>, b: seq<Json>, depth: nat)
    ensures TooDeep(a + b, depth) <==> TooDeep(a, depth) || TooDeep(b, depth)
  {
    hide RouteTooDeep;
    if r :| r in a && RouteTooDeep(r, depth) { assert r in a + b; }
    if r :| r in b && RouteTooDeep(r, depth) { assert r in a + b; }
  }

  lemma ServersStep(servers: Fields, names: seq<string>, i: nat)
    requires i < |names|
    ensures var f := ServerRoutes(servers);
      FlatMap(f, names[..i + 1]) == FlatMap(f, names[..i]) + f(names[i])
    ensures Reached(FlatMap(ServerRoutes(servers), names[..i + 1])) <= Reached(FlatMap(ServerRoutes(servers), names))
    ensures TooDeep(FlatMap(ServerRoutes(servers), names[..i + 1]), 0) ==> TooDeep(FlatMap(ServerRoutes(servers), names), 0)
  {
    var f := ServerRoutes(servers);
    FlatMapStep(f, names, i);
    hide FlatMap, ServerRoutes, Reached, TooDeep;
    FlatMapSplit(f, names, i + 1);
    ReachedAppend(FlatMap(f, names[..i + 1]), FlatMap(f, names[i + 1..]));
    TooDeepAppend(FlatMap(f, names[..i + 1]), FlatMap(f, names[i + 1..]), 0);
  }

  method SanitizeConfig(s: Sanitizers, dump: Route -> string, config: Option<Json>) returns (r: Option<seq<Route>>)
    ensures r == Sanitized(s, dump, config)
  {
    hide Reached, Emitted, TooDeep, SortedSet, Published, FlatMap;
    if config.None? || !config.value.Obj? { return None; }
    var servers := Servers(config.value);
    var walked := WalkServers(s, servers, SortedSet(servers.Keys));
    r := if walked.None? then None else Some(Published(dump, walked.value));
  }

  /** One walk per server, in order, over one shared visit counter. */
  method WalkServers(s: Sanitizers, servers: Fields, names: seq<string>) returns (r: Option<seq<Route>>)
    ensures var raw := FlatMap(ServerRoutes(servers), names);
      && (r.Some? <==> !TooDeep(raw, 0) && Reached(raw) <= MAX_CADDY_ROUTES)
      && (r.Some? ==> r.value == Emitted(s, raw, NoContext))
  {
    var walker := new CaddyWalker(s);
    ghost var f := ServerRoutes(servers);
    hide FlatMap, Reached, Emitted, TooDeep, ServerRoutes;
    NoServers(s, f, names);
    for i := 0 to |names|
      invariant fresh(walker) && walker.s == s
      invariant walker.visited == Reached(FlatMap(f, names[..i])) <= MAX_CADDY_ROUTES
      invariant walker.routes == Emitted(s, FlatMap(f, names[..i]), NoContext)
      invariant !TooDeep(FlatMap(f, names[..i]), 0)
    {
      var raw := ServerRoutes(servers)(names[i]);
      ServersStep(servers, names, i);
      ReachedAppend(FlatMap(f, names[..i]), raw);
      EmittedAppend(s, FlatMap(f, names[..i]), raw, NoContext);
      TooDeepAppend(FlatMap(f, names[..i]), raw, 0);
      var ok := walker.Walk(raw, NoContext, 0);
      if !ok { return None; }
    }
    assert names[..|names|] == names;
    r := Some(walker.routes);
  }

  lemma NoServers(s: Sanitizers, f: string -> seq<Json>, names: seq<string>)
    ensures FlatMap(f, names[..0]) == [] && Reached([]) == 0 && Emitted(s, [], NoContext) == [] && !TooDeep([], 0)
  {
  }
}

/** What the Caddy walk means: root-to-proxy chains, nearest matchers, and indifference to order. */
module CaddyChains {
  import opened Ordering
  import opened Collections
  import opened JsonData
  import opened CaddyRoutes

  // ----- chains -----

  /** A way from a list of routes through nested subroutes to a reverse proxy. */
  ghost predicate IsChain(routes: seq<Json>, path: seq<Json>, proxy: Json)
    decreases |path|
  {
    && path != []
    && path[0] in routes
    && if |path| == 1 then proxy in Handlers(path[0]) && IsProxy(proxy)
       else exists h :: h in Handlers(path[0]) && IsSubroute(h) && IsChain(Subroutes(h), path[1..], proxy)
  }

  /** The innermost route of a chain that has a matcher of a kind. */
  function Innermost(key: string, path: seq<Json>): Option<Json> {
    if path == [] then None
    else if HasMatcher(path[|path| - 1], key) then Some(path[|path| - 1])
    else Innermost(key, path[..|path| - 1])
  }

  /** The matchers in force at the end of a chain: each kind comes from the nearest enclosing route that has it. */
  function ContextAt(s: Sanitizers, outer: Context, path: seq<Json>): Context {
    var hosts, paths := Innermost("host", path), Innermost("path", path);
    Context(
      if hosts.Some? then OwnHosts(s, hosts.value) else outer.hosts,
      if hosts.Some? then OwnHosts(s, hosts.value) == [] else outer.hostUnresolved,
      if paths.Some? then OwnPaths(s, paths.value) else outer.paths)
  }

  lemma {:induction false} InnermostPrepend(key: string, first: Json, rest: seq<Json>)
    ensures Innermost(key, [first] + rest) ==
      if Innermost(key, rest).Some? then Innermost(key, rest) else if HasMatcher(first, key) then Some(first) else None
  {
    var path := [first] + rest;
    hide HasMatcher;
    if rest == [] {
      assert path[..0] == [];
    } else {
      assert path[..|path| - 1] == [first] + rest[..|rest| - 1];
      InnermostPrepend(key, first, rest[..|rest| - 1]);
    }
  }

  /** Entering the first route of a chain, then following the rest. */
  lemma ContextPrepend(s: Sanitizers, outer: Context, first: Json, rest: seq<Json>)
    ensures ContextAt(s, outer, [first] + rest) == ContextAt(s, Enter(s, outer, first), rest)
  {
    InnermostPrepend("host", first, rest);
    InnermostPrepend("path", first, rest);
    hide Innermost, HasMatcher, OwnHosts, OwnPaths;
  }

  function ChainRoute(s: Sanitizers, outer: Context, path: seq<Json>, proxy: Json): Route {
    Proxied(s, ContextAt(s, outer, path), FieldsOf(proxy))
  }

  lemma {:induction false} EmittedOrigin(s: Sanitizers, routes: seq<Json>, context: Context, r: Route) returns (route: Json)
    requires r in Emitted(s, routes, context)
    ensures route in routes && r in RouteEmitted(s, route, context) && RouteWeight(route) < Weight(routes)
    decreases |routes|
  {
    hide RouteEmitted, RouteWeight;
    var n := |routes| - 1;
    if r in RouteEmitted(s, routes[n], context) {
      route := routes[n];
    } else {
      route := EmittedOrigin(s, routes[..n], context, r);
    }
  }

  lemma {:induction false} HandlersOrigin(s: Sanitizers, handlers: seq<Json>, context: Context, r: Route) returns (handler: Json)
    requires r in HandlersEmitted(s, handlers, context)
    ensures handler in handlers && r in HandlerEmitted(s, handler, context) && HandlerWeight(handler) < HandlersWeight(handlers)
    decreases |handlers|
  {
    hide HandlerEmitted, HandlerWeight;
    var n := |handlers| - 1;
    if r in HandlerEmitted(s, handlers[n], context) {
      handler := handlers[n];
    } else {
      handler := HandlersOrigin(s, handlers[..n], context, r);
    }
  }

  lemma {:induction false} EmittedMember(s: Sanitizers, routes: seq<Json>, context: Context, route: Json, r: Route)
    requires route in routes && r in RouteEmitted(s, route, context)
    ensures r in Emitted(s, routes, context)
    decreases |routes|
  {
    hide RouteEmitted;
    var n := |routes| - 1;
    if route != routes[n] { EmittedMember(s, routes[..n], context, route, r); }
  }

  lemma {:induction false} HandlersMember(s: Sanitizers, handlers: seq<Json>, context: Context, handler: Json, r: Route)
    requires handler in handlers && r in HandlerEmitted(s, handler, context)
    ensures r in HandlersEmitted(s, handlers, context)
    decreases |handlers|
  {
    hide HandlerEmitted;
    var n := |handlers| - 1;
    if handler != handlers[n] { HandlersMember(s, handlers[..n], context, handler, r); }
  }

  /** Every emitted route comes from a chain. */
  lemma {:induction false} ChainBehind(s: Sanitizers, routes: seq<Json>, context: Context, r: Route) returns (path: seq<Json>, proxy: Json)
    requires r in Emitted(s, routes, context)
    ensures IsChain(routes, path, proxy) && r == ChainRoute(s, context, path, proxy)
    decreases Weight(routes)
  {
    var route := EmittedOrigin(s, routes, context, r);
    var inner := Enter(s, context, route);
    RouteParts(s, route, context);
    var handler := HandlersOrigin(s, Handlers(route), inner, r);
    HandlerParts(s, handler, inner, 0);
    SubrouteWeight(handler);
    hide Emitted, HandlersEmitted, HandlerEmitted, Enter, Weight, HandlersWeight, Proxied, ContextAt;
    if IsProxy(handler) {
      path, proxy := [route], handler;
      ContextPrepend(s, context, route, []);
      assert [route] + [] == [route];
      NoPath(s, inner);
    } else {
      var rest;
      rest, proxy := ChainBehind(s, Subroutes(handler), inner, r);
      path := [route] + rest;
      assert path[1..] == rest;
      ContextPrepend(s, context, route, rest);
    }
  }

  lemma NoPath(s: Sanitizers, context: Context)
    ensures ContextAt(s, context, []) == context
  {
  }

  lemma ChainStep(routes: seq<Json>, path: seq<Json>, proxy: Json) returns (handler: Json)
    requires IsChain(routes, path, proxy)
    ensures path != [] && path[0] in routes && handler in Handlers(path[0])
    ensures |path| == 1 ==> handler == proxy && IsProxy(proxy)
    ensures |path| > 1 ==> IsSubroute(handler) && IsChain(Subroutes(handler), path[1..], proxy)
  {
    hide Handlers, Subroutes, IsProxy, IsSubroute;
    if |path| == 1 {
      handler := proxy;
    } else {
      handler :| handler in Handlers(path[0]) && IsSubroute(handler) && IsChain(Subroutes(handler), path[1..], proxy);
    }
  }

  /** Every chain is emitted. */
  lemma {:induction false} ChainEmitted(s: Sanitizers, routes: seq<Json>, context: Context, path: seq<Json>, proxy: Json)
    requires IsChain(routes, path, proxy)
    ensures ChainRoute(s, context, path, proxy) in Emitted(s, routes, context)
    decreases |path|
  {
    hide IsChain, Emitted, HandlersEmitted, HandlerEmitted, RouteEmitted, Enter, Proxied, ContextAt, Handlers, Subroutes, IsProxy, IsSubroute;
    var handler := ChainStep(routes, path, proxy);
    var route, rest := path[0], path[1..];
    var inner, r := Enter(s, context, route), ChainRoute(s, context, path, proxy);
    assert path == [route] + rest;
    ContextPrepend(s, context, route, rest);
    RouteParts(s, route, context);
    NoPath(s, inner);
    HandlerParts(s, handler, inner, 0);
    if |path| > 1 {
      ChainEmitted(s, Subroutes(handler), inner, rest, proxy);
    } else {
      assert rest == [];
    }
    HandlersMember(s, Handlers(route), inner, handler, r);
    EmittedMember(s, routes, context, route, r);
  }

  /** The emitted routes are exactly those of the chains, with matchers from the nearest enclosing route. */
  lemma EmittedAreChains(s: Sanitizers, config: Json, r: Route)
    ensures r in Emitted(s, RootRoutes(config), NoContext) <==>
      exists path, proxy :: IsChain(RootRoutes(config), path, proxy) && r == ChainRoute(s, NoContext, path, proxy)
  {
    hide Emitted, RootRoutes, IsChain, ChainRoute;
    var routes := RootRoutes(config);
    if r in Emitted(s, routes, NoContext) {
      var path, proxy := ChainBehind(s, routes, NoContext, r);
    }
    if path, proxy :| IsChain(routes, path, proxy) && r == ChainRoute(s, NoContext, path, proxy) {
      ChainEmitted(s, routes, NoContext, path, proxy);
    }
  }

  /** Exactly one of: some hosts, no host matcher at all, a host matcher that did not resolve. */
  predicate OneHostState(r: Route) {
    && (r.hosts != [] ==> !r.hostless && !r.hostUnresolved)
    && (r.hosts == [] ==> r.hostless != r.hostUnresolved)
  }

  lemma ChainHostState(s: Sanitizers, path: seq<Json>, proxy: Json)
    ensures OneHostState(ChainRoute(s, NoContext, path, proxy))
  {
    hide Innermost, OwnHosts, OwnPaths, Upstreams, SortedSet;
    var context := ContextAt(s, NoContext, path);
    assert context.hostUnresolved ==> context.hosts == [];
    ElemsEmpty(context.hosts);
  }

  lemma ElemsEmpty(hosts: seq<string>)
    ensures SortedSet(Elems(hosts)) == [] <==> hosts == []
  {
    if hosts != [] { assert hosts[0] in Elems(hosts); }
  }

  lemma EveryRouteHasOneHostState(s: Sanitizers, config: Json, r: Route)
    requires r in Emitted(s, RootRoutes(config), NoContext)
    ensures OneHostState(r)
  {
    hide Emitted, RootRoutes, IsChain, ChainRoute;
    var path, proxy := ChainBehind(s, RootRoutes(config), NoContext, r);
    ChainHostState(s, path, proxy);
  }

  // ----- what is published -----

  ghost predicate Injective(dump: Route -> string) { forall a, b :: dump(a) == dump(b) ==> a == b }

  /** Published are exactly the distinct emitted routes. */
  lemma PublishedExact(dump: Route -> string, routes: seq<Route>)
    requires Injective(dump)
    ensures forall r :: r in Published(dump, routes) <==> r in routes
    ensures Distinct(Published(dump, routes))
  {
    AssociateByKeys(dump, routes);
    LastByKeyDistinct(dump, routes);
    hide AssociateBy, LastByKey;
    forall r ensures r in Published(dump, routes) <==> r in routes {
      LastByKeyMember(dump, routes, r);
      if r in routes { assert dump(AssociateBy(dump, routes)[dump(r)]) == dump(r); }
    }
  }

  /** The published list depends on the set of emitted routes alone. */
  lemma PublishedIgnoresOrder(dump: Route -> string, a: seq<Route>, b: seq<Route>)
    requires Injective(dump) && forall r :: r in a <==> r in b
    ensures Published(dump, a) == Published(dump, b)
  {
    var m, n := AssociateBy(dump, a), AssociateBy(dump, b);
    AssociateByKeys(dump, a);
    AssociateByKeys(dump, b);
    hide AssociateBy;
    forall k ensures k in m <==> k in n {
      if k in m { assert m[k] in b && dump(m[k]) == k; }
      if k in n { assert n[k] in a && dump(n[k]) == k; }
    }
    assert m.Keys == n.Keys;
    forall k | k in m ensures m[k] == n[k] { assert dump(m[k]) == k && dump(n[k]) == k; }
    assert m == n;
    assert AssociateBy(dump, a) == AssociateBy(dump, b);
    hide SortedSet, FilterMap;
  }

  // ----- order of routes -----

  /** Equal apart from one member. */
  predicate SameBut(key: string, a: Fields, b: Fields) { a - {key} == b - {key} }

  /** The same routes in another order, at every level. */
  ghost predicate Rearranged(a: seq<Json>, b: seq<Json>)
    decreases a, 1
  {
    exists c: seq<Json> :: multiset(c) == multiset(b) && Paired(a, c)
  }

  ghost predicate Paired(a: seq<Json>, c: seq<Json>)
    decreases a, 0
  {
    |c| == |a| && forall i :: 0 <= i < |a| ==> RouteRearranged(a[i], c[i])
  }

  ghost predicate RouteRearranged(x: Json, y: Json)
    decreases x, 0
  {
    x == y ||
    (&& x.Obj? && y.Obj? && SameBut("handle", x.fields, y.fields)
     && |Handlers(x)| == |Handlers(y)|
     && forall i :: 0 <= i < |Handlers(x)| ==> HandlerRearranged(Handlers(x)[i], Handlers(y)[i]))
  }

  ghost predicate HandlerRearranged(x: Json, y: Json)
    decreases x, 0
  {
    x == y ||
    (&& x.Obj? && y.Obj? && SameBut("routes", x.fields, y.fields)
     && (Subroutes(x) == [] <==> Subroutes(y) == [])
     && (Subroutes(x) != [] ==> Rearranged(Subroutes(x), Subroutes(y))))
  }

  lemma SameMember(key: string, a: Fields, b: Fields, k: string)
    requires SameBut(key, a, b) && k != key
    ensures k in a <==> k in b
    ensures k in a ==> a[k] == b[k]
  {
    assert k in a <==> k in a - {key};
    assert k in b <==> k in b - {key};
    if k in a { assert (a - {key})[k] == (b - {key})[k]; }
  }

  lemma SameEnter(s: Sanitizers, outer: Context, x: Json, y: Json)
    requires RouteRearranged(x, y)
    ensures Enter(s, outer, x) == Enter(s, outer, y)
  {
    if x != y {
      SameMember("handle", x.fields, y.fields, "match");
      assert List(x.fields, "match") == List(y.fields, "match");
      hide AllValues, SortedSet;
    }
  }

  lemma SameHandler(s: Sanitizers, context: Context, x: Json, y: Json)
    requires HandlerRearranged(x, y)
    ensures IsProxy(x) == IsProxy(y) && IsSubroute(x) == IsSubroute(y)
    ensures Proxied(s, context, FieldsOf(x)) == Proxied(s, context, FieldsOf(y))
  {
    if x != y {
      SameMember("routes", x.fields, y.fields, "handler");
      SameMember("routes", x.fields, y.fields, "upstreams");
      SameMember("routes", x.fields, y.fields, "dynamic");
      assert List(x.fields, "upstreams") == List(y.fields, "upstreams");
      hide SortedSet, FilterMap, Map, Rearranged, SameBut;
    }
  }

  // ----- sums and unions over permutations -----

  lemma {:induction false} ReachedPermuted(a: seq<Json>, b: seq<Json>)
    requires multiset(a) == multiset(b)
    ensures Reached(a) == Reached(b)
    decreases |a|
  {
    hide RouteReached;
    if a == [] {
      SameElements(a, b);
    } else {
      var n := |a| - 1;
      var front, back := PermutationStep(a, b);
      ReachedPermuted(a[..n], front + back);
      ReachedAppend(front, back);
      var single := [a[n]];
      ReachedAppend(front + single, back);
      ReachedAppend(front, single);
      assert single[..0] == [];
    }
  }

  lemma PermutedMembers(s: Sanitizers, a: seq<Json>, b: seq<Json>, context: Context, r: Route)
    requires multiset(a) == multiset(b)
    ensures r in Emitted(s, a, context) <==> r in Emitted(s, b, context)
  {
    SameElements(a, b);
    hide Emitted;
    if r in Emitted(s, a, context) {
      var route := EmittedOrigin(s, a, context, r);
      EmittedMember(s, b, context, route, r);
    }
    if r in Emitted(s, b, context) {
      var route := EmittedOrigin(s, b, context, r);
      EmittedMember(s, a, context, route, r);
    }
  }

  lemma {:induction false} PairedReached(a: seq<Json>, c: seq<Json>)
    requires |a| == |c| && forall i :: 0 <= i < |a| ==> RouteReached(a[i]) == RouteReached(c[i])
    ensures Reached(a) == Reached(c)
    decreases |a|
  {
    hide RouteReached;
    if a != [] { PairedReached(a[..|a| - 1], c[..|c| - 1]); }
  }

  lemma PairedMembers(s: Sanitizers, a: seq<Json>, c: seq<Json>, context: Context, r: Route)
    requires |a| == |c|
    requires forall i :: 0 <= i < |a| ==> (r in RouteEmitted(s, a[i], context) <==> r in RouteEmitted(s, c[i], context))
    ensures r in Emitted(s, a, context) <==> r in Emitted(s, c, context)
  {
    hide Emitted, RouteEmitted;
    if r in Emitted(s, a, context) {
      var route := EmittedOrigin(s, a, context, r);
      var i :| 0 <= i < |a| && a[i] == route;
      EmittedMember(s, c, context, c[i], r);
    }
    if r in Emitted(s, c, context) {
      var route := EmittedOrigin(s, c, context, r);
      var i :| 0 <= i < |c| && c[i] == route;
      EmittedMember(s, a, context, a[i], r);
    }
  }

  lemma {:induction false} PairedHandlersReached(a: seq<Json>, c: seq<Json>)
    requires |a| == |c| && forall i :: 0 <= i < |a| ==> HandlerReached(a[i]) == HandlerReached(c[i])
    ensures HandlersReached(a) == HandlersReached(c)
    decreases |a|
  {
    hide HandlerReached;
    if a != [] { PairedHandlersReached(a[..|a| - 1], c[..|c| - 1]); }
  }

  lemma PairedHandlersMembers(s: Sanitizers, a: seq<Json>, c: seq<Json>, context: Context, r: Route)
    requires |a| == |c|
    requires forall i :: 0 <= i < |a| ==> (r in HandlerEmitted(s, a[i], context) <==> r in HandlerEmitted(s, c[i], context))
    ensures r in HandlersEmitted(s, a, context) <==> r in HandlersEmitted(s, c, context)
  {
    hide HandlersEmitted, HandlerEmitted;
    if r in HandlersEmitted(s, a, context) {
      var h := HandlersOrigin(s, a, context, r);
      var i :| 0 <= i < |a| && a[i] == h;
      HandlersMember(s, c, context, c[i], r);
    }
    if r in HandlersEmitted(s, c, context) {
      var h := HandlersOrigin(s, c, context, r);
      var i :| 0 <= i < |c| && c[i] == h;
      HandlersMember(s, a, context, a[i], r);
    }
  }

  // ----- rearranged configurations -----

  lemma PairedDepths(a: seq<Json>, c: seq<Json>, depth: nat)
    requires |a| == |c| && forall i :: 0 <= i < |a| ==> (RouteTooDeep(a[i], depth) <==> RouteTooDeep(c[i], depth))
    ensures TooDeep(a, depth) <==> TooDeep(c, depth)
  {
    hide RouteTooDeep;
    if r :| r in a && RouteTooDeep(r, depth) {
      var i :| 0 <= i < |a| && a[i] == r;
      assert c[i] in c;
    }
    if r :| r in c && RouteTooDeep(r, depth) {
      var i :| 0 <= i < |c| && c[i] == r;
      assert a[i] in a;
    }
  }

  lemma PermutedDepths(a: seq<Json>, b: seq<Json>, depth: nat)
    requires multiset(a) == multiset(b)
    ensures TooDeep(a, depth) <==> TooDeep(b, depth)
  {
    hide RouteTooDeep;
    SameElements(a, b);
  }

  lemma PairedHandlerDepths(x: Json, y: Json, depth: nat)
    requires |Handlers(x)| == |Handlers(y)|
    requires forall i :: 0 <= i < |Handlers(x)| ==> (HandlerTooDeep(Handlers(x)[i], depth) <==> HandlerTooDeep(Handlers(y)[i], depth))
    ensures RouteTooDeep(x, depth) <==> RouteTooDeep(y, depth)
  {
    hide HandlerTooDeep, Handlers;
    if h :| h in Handlers(x) && HandlerTooDeep(h, depth) {
      var i :| 0 <= i < |Handlers(x)| && Handlers(x)[i] == h;
      assert Handlers(y)[i] in Handlers(y);
    }
    if h :| h in Handlers(y) && HandlerTooDeep(h, depth) {
      var i :| 0 <= i < |Handlers(y)| && Handlers(y)[i] == h;
      assert Handlers(x)[i] in Handlers(x);
    }
  }

  /** Rearranged routes are walked alike: same count, same depth verdict, same routes. */
  lemma {:induction false} RearrangedAlike(s: Sanitizers, a: seq<Json>, b: seq<Json>, context: Context, depth: nat, r: Route)
    requires Rearranged(a, b)
    ensures Reached(a) == Reached(b)
    ensures TooDeep(a, depth) <==> TooDeep(b, depth)
    ensures r in Emitted(s, a, context) <==> r in Emitted(s, b, context)
    decreases Weight(a), 0
  {
    var c: seq<Json> :| multiset(c) == multiset(b) && Paired(a, c);
    hide Reached, TooDeep, Emitted, RouteReached, RouteTooDeep, RouteEmitted, RouteRearranged, Weight, RouteWeight, Rearranged;
    forall i | 0 <= i < |a|
      ensures RouteReached(a[i]) == RouteReached(c[i])
      ensures RouteTooDeep(a[i], depth) <==> RouteTooDeep(c[i], depth)
      ensures r in RouteEmitted(s, a[i], context) <==> r in RouteEmitted(s, c[i], context)
    {
      WeightLess(a, i);
      RouteAlike(s, a[i], c[i], context, depth, r);
    }
    PairedReached(a, c);
    PairedDepths(a, c, depth);
    PairedMembers(s, a, c, context, r);
    ReachedPermuted(c, b);
    PermutedDepths(c, b, depth);
    PermutedMembers(s, c, b, context, r);
  }

  lemma {:induction false} RouteAlike(s: Sanitizers, x: Json, y: Json, outer: Context, depth: nat, r: Route)
    requires RouteRearranged(x, y)
    ensures RouteReached(x) == RouteReached(y)
    ensures RouteTooDeep(x, depth) <==> RouteTooDeep(y, depth)
    ensures r in RouteEmitted(s, x, outer) <==> r in RouteEmitted(s, y, outer)
    decreases RouteWeight(x), 1
  {
    if x != y {
      var inner := Enter(s, outer, x);
      SameEnter(s, outer, x, y);
      RouteParts(s, x, outer);
      RouteParts(s, y, outer);
      var hx, hy := Handlers(x), Handlers(y);
      hide Enter, RouteReached, RouteTooDeep, RouteEmitted, HandlersReached, HandlersEmitted, HandlerReached, HandlerEmitted, HandlerTooDeep;
      hide HandlerRearranged, RouteWeight, HandlersWeight, HandlerWeight, Handlers;
      forall i | 0 <= i < |hx|
        ensures HandlerReached(hx[i]) == HandlerReached(hy[i])
        ensures HandlerTooDeep(hx[i], depth) <==> HandlerTooDeep(hy[i], depth)
        ensures r in HandlerEmitted(s, hx[i], inner) <==> r in HandlerEmitted(s, hy[i], inner)
      {
        HandlerWeightLess(hx, i);
        HandlerAlike(s, hx[i], hy[i], inner, depth, r);
      }
      PairedHandlersReached(hx, hy);
      PairedHandlerDepths(x, y, depth);
      PairedHandlersMembers(s, hx, hy, inner, r);
    }
  }

  lemma {:induction false} HandlerAlike(s: Sanitizers, x: Json, y: Json, context: Context, depth: nat, r: Route)
    requires HandlerRearranged(x, y)
    ensures HandlerReached(x) == HandlerReached(y)
    ensures HandlerTooDeep(x, depth) <==> HandlerTooDeep(y, depth)
    ensures r in HandlerEmitted(s, x, context) <==> r in HandlerEmitted(s, y, context)
    decreases HandlerWeight(x), 2
  {
    if x != y {
      SameHandler(s, context, x, y);
      SubrouteWeight(x);
      hide Proxied, IsProxy, IsSubroute, SameBut;
      if Subroutes(x) != [] {
        RearrangedAlike(s, Subroutes(x), Subroutes(y), context, depth + 1, r);
        hide Rearranged, Reached, Emitted, RouteTooDeep;
      }
    }
  }

  lemma PairedAppend(a: seq<Json>, p: seq<Json>, c: seq<Json>, q: seq<Json>)
    requires Paired(a, p) && Paired(c, q)
    ensures Paired(a + c, p + q)
  {
    hide RouteRearranged;
    forall i | 0 <= i < |a + c| ensures RouteRearranged((a + c)[i], (p + q)[i]) {
      if i >= |a| { assert (a + c)[i] == c[i - |a|] && (p + q)[i] == q[i - |a|]; }
    }
  }

  lemma RearrangedAppend(a: seq<Json>, b: seq<Json>, c: seq<Json>, d: seq<Json>)
    requires Rearranged(a, b) && Rearranged(c, d)
    ensures Rearranged(a + c, b + d)
  {
    hide Paired;
    var p: seq<Json> :| multiset(p) == multiset(b) && Paired(a, p);
    var q: seq<Json> :| multiset(q) == multiset(d) && Paired(c, q);
    PairedAppend(a, p, c, q);
    assert multiset(p + q) == multiset(b + d);
  }

  lemma {:induction false} ServersRearranged(f: string -> seq<Json>, g: string -> seq<Json>, names: seq<string>)
    requires forall name :: Rearranged(f(name), g(name))
    ensures Rearranged(FlatMap(f, names), FlatMap(g, names))
  {
    hide Rearranged;
    if names == [] {
      NothingRearranged();
    } else {
      var n := |names| - 1;
      ServersRearranged(f, g, names[..n]);
      RearrangedAppend(FlatMap(f, names[..n]), FlatMap(g, names[..n]), f(names[n]), g(names[n]));
    }
  }

  lemma NothingRearranged()
    ensures Rearranged([], [])
  {
    var c: seq<Json> := [];
    assert multiset(c) == multiset{} && Paired([], c);
  }

  /** The same servers, each with its routes in another order at any level. */
  ghost predicate SameConfig(x: Json, y: Json) {
    && x.Obj? && y.Obj? && Servers(x).Keys == Servers(y).Keys
    && forall name :: Rearranged(ServerRoutes(Servers(x))(name), ServerRoutes(Servers(y))(name))
  }

  lemma RootsRearranged(x: Json, y: Json)
    requires SameConfig(x, y)
    ensures Rearranged(RootRoutes(x), RootRoutes(y))
  {
    hide Rearranged, FlatMap, SortedSet, Servers, ServerRoutes;
    ServersRearranged(ServerRoutes(Servers(x)), ServerRoutes(Servers(y)), SortedSet(Servers(x).Keys));
  }

  lemma ConfigsAlike(s: Sanitizers, x: Json, y: Json)
    requires SameConfig(x, y)
    ensures Accepted(x) <==> Accepted(y)
    ensures forall r :: r in Emitted(s, RootRoutes(x), NoContext) <==> r in Emitted(s, RootRoutes(y), NoContext)
  {
    assert x.Obj? && y.Obj?;
    hide RootRoutes, Reached, TooDeep, Emitted, Rearranged, SameConfig;
    var a, b := RootRoutes(x), RootRoutes(y);
    RootsRearranged(x, y);
    forall r ensures r in Emitted(s, a, NoContext) <==> r in Emitted(s, b, NoContext) { RearrangedAlike(s, a, b, NoContext, 0, r); }
    RearrangedAlike(s, a, b, NoContext, 0, Route([], true, false, [], [], false));
  }

  /** The order of routes matters neither for acceptance nor for the published result. */
  lemma OrderDoesNotMatter(s: Sanitizers, dump: Route -> string, x: Json, y: Json)
    requires Injective(dump) && SameConfig(x, y)
    ensures Sanitized(s, dump, Some(x)) == Sanitized(s, dump, Some(y))
  {
    hide RootRoutes, Emitted, Accepted, SameConfig, Published, Injective;
    ConfigsAlike(s, x, y);
    PublishedIgnoresOrder(dump, Emitted(s, RootRoutes(x), NoContext), Emitted(s, RootRoutes(y), NoContext));
  }

  ghost predicate HasChain(s: Sanitizers, config: Json, r: Route) {
    exists path, proxy :: IsChain(RootRoutes(config), path, proxy) && r == ChainRoute(s, NoContext, path, proxy)
  }

  ghost predicate ChainsPublished(s: Sanitizers, config: Json, published: seq<Route>) {
    && Distinct(published)
    && (forall r :: r in published <==> HasChain(s, config, r))
    && (forall r :: r in published ==> OneHostState(r))
  }

  /** `TooDeep` in terms of chains of subroutes: one ends with a subroute below 32 others. */
  ghost predicate SubrouteAt(routes: seq<Json>, path: seq<Json>, depth: nat)
    decreases |path|
  {
    && path != []
    && path[0] in routes
    && exists h ::
         && h in Handlers(path[0]) && IsSubroute(h)
         && if |path| == 1 then depth == MAX_CADDY_ROUTE_DEPTH else SubrouteAt(Subroutes(h), path[1..], depth + 1)
  }

  lemma ExtendPath(routes: seq<Json>, r: Json, h: Json, rest: seq<Json>, depth: nat)
    requires r in routes && h in Handlers(r) && IsSubroute(h) && SubrouteAt(Subroutes(h), rest, depth + 1)
    ensures SubrouteAt(routes, [r] + rest, depth)
  {
    hide Handlers, Subroutes, IsSubroute;
    var path := [r] + rest;
    assert path[1..] == rest;
  }

  lemma LastPath(routes: seq<Json>, r: Json, h: Json)
    requires r in routes && h in Handlers(r) && IsSubroute(h)
    ensures SubrouteAt(routes, [r], MAX_CADDY_ROUTE_DEPTH)
  {
    hide Handlers, Subroutes, IsSubroute;
  }

  lemma DeepStep(routes: seq<Json>, depth: nat) returns (r: Json, h: Json)
    requires depth <= MAX_CADDY_ROUTE_DEPTH && TooDeep(routes, depth)
    ensures r in routes && h in Handlers(r) && IsSubroute(h)
    ensures depth < MAX_CADDY_ROUTE_DEPTH ==> TooDeep(Subroutes(h), depth + 1)
  {
    r :| r in routes && RouteTooDeep(r, depth);
    h :| h in Handlers(r) && HandlerTooDeep(h, depth);
    hide Handlers, Subroutes, RouteTooDeep, IsSubroute;
  }

  lemma {:induction false} DeepPath(routes: seq<Json>, depth: nat) returns (path: seq<Json>)
    requires depth <= MAX_CADDY_ROUTE_DEPTH && TooDeep(routes, depth)
    ensures SubrouteAt(routes, path, depth)
    decreases MAX_CADDY_ROUTE_DEPTH - depth
  {
    hide TooDeep, Handlers, Subroutes, IsSubroute, SubrouteAt;
    var r, h := DeepStep(routes, depth);
    if depth == MAX_CADDY_ROUTE_DEPTH {
      LastPath(routes, r, h);
      path := [r];
    } else {
      var rest := DeepPath(Subroutes(h), depth + 1);
      ExtendPath(routes, r, h, rest, depth);
      path := [r] + rest;
    }
  }

  lemma PathStep(routes: seq<Json>, path: seq<Json>, depth: nat) returns (h: Json)
    requires SubrouteAt(routes, path, depth)
    ensures path != [] && path[0] in routes && h in Handlers(path[0]) && IsSubroute(h)
    ensures |path| == 1 ==> depth == MAX_CADDY_ROUTE_DEPTH
    ensures |path| > 1 ==> SubrouteAt(Subroutes(h), path[1..], depth + 1)
  {
    hide Handlers, Subroutes, IsSubroute;
    h :| h in Handlers(path[0]) && IsSubroute(h)
      && if |path| == 1 then depth == MAX_CADDY_ROUTE_DEPTH else SubrouteAt(Subroutes(h), path[1..], depth + 1);
  }

  lemma StepDeep(routes: seq<Json>, r: Json, h: Json, depth: nat)
    requires r in routes && h in Handlers(r) && IsSubroute(h) && depth <= MAX_CADDY_ROUTE_DEPTH
    requires depth == MAX_CADDY_ROUTE_DEPTH || TooDeep(Subroutes(h), depth + 1)
    ensures TooDeep(routes, depth)
  {
    HandlerTooDeepIs(h, depth);
    hide HandlerTooDeep, Handlers, Subroutes, IsSubroute;
    assert RouteTooDeep(r, depth);
  }

  lemma HandlerTooDeepIs(h: Json, depth: nat)
    requires depth <= MAX_CADDY_ROUTE_DEPTH
    ensures HandlerTooDeep(h, depth) <==> IsSubroute(h) && (depth == MAX_CADDY_ROUTE_DEPTH || TooDeep(Subroutes(h), depth + 1))
  {
    hide Subroutes, IsSubroute, RouteTooDeep;
  }

  lemma {:induction false} PathDeep(routes: seq<Json>, path: seq<Json>, depth: nat)
    requires depth <= MAX_CADDY_ROUTE_DEPTH && SubrouteAt(routes, path, depth)
    ensures TooDeep(routes, depth)
    decreases |path|
  {
    hide SubrouteAt, TooDeep, Handlers, Subroutes, IsSubroute;
    var h := PathStep(routes, path, depth);
    if |path| > 1 && depth < MAX_CADDY_ROUTE_DEPTH { PathDeep(Subroutes(h), path[1..], depth + 1); }
    StepDeep(routes, path[0], h, depth);
  }

  /**
    An accepted configuration publishes exactly the routes of its chains, each once, and each with
    exactly one host state; a configuration is rejected exactly when a subroute lies at depth 32 or
    more than 5000 routes are reached.
   */
  lemma SanitizedExact(s: Sanitizers, dump: Route -> string, config: Json)
    requires Injective(dump) && config.Obj?
    ensures Sanitized(s, dump, Some(config)).None? <==>
      (exists path :: SubrouteAt(RootRoutes(config), path, 0)) || Reached(RootRoutes(config)) > MAX_CADDY_ROUTES
    ensures Sanitized(s, dump, Some(config)).Some? ==> ChainsPublished(s, config, Sanitized(s, dump, Some(config)).value)
  {
    hide Emitted, RootRoutes, TooDeep, Reached, Published, IsChain, ChainRoute, SubrouteAt, ChainsPublished;
    if TooDeep(RootRoutes(config), 0) { var path := DeepPath(RootRoutes(config), 0); }
    if path :| SubrouteAt(RootRoutes(config), path, 0) { PathDeep(RootRoutes(config), path, 0); }
    PublishedChains(s, dump, config);
  }

  lemma PublishedChains(s: Sanitizers, dump: Route -> string, config: Json)
    requires Injective(dump)
    ensures ChainsPublished(s, config, Published(dump, Emitted(s, RootRoutes(config), NoContext)))
  {
    hide Emitted, RootRoutes, Published, IsChain, ChainRoute, OneHostState, Injective;
    PublishedExact(dump, Emitted(s, RootRoutes(config), NoContext));
    var published := Published(dump, Emitted(s, RootRoutes(config), NoContext));
    forall r ensures r in published <==> HasChain(s, config, r) { EmittedAreChains(s, config, r); }
    forall r | r in published ensures OneHostState(r) { EveryRouteHasOneHostState(s, config, r); }
  }
}

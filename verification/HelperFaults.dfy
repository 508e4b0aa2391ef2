/** What a report reads as, entry by entry, and how far a malformed entry reaches. */
module HelperFaults {
  import opened Ordering
  import opened Collections
  import opened JsonData
  import opened Discovery
  import opened GraphRouting
  import opened HelperParser

  // ----- what is kept of a list of entries -----

  function Parses<T>(f: Json -> Option<T>): Json -> bool { (j: Json) => f(j).Some? }

  function ParsesTo<T(==)>(f: Json -> Option<T>, t: T): Json -> bool { (j: Json) => f(j) == Some(t) }

  ghost predicate AllParse<T>(f: Json -> Option<T>, raw: seq<Json>) { forall j :: j in raw ==> f(j).Some? }

  ghost predicate NoneParses<T>(f: Json -> Option<T>, raw: seq<Json>) { forall j :: j in raw ==> f(j).None? }

  /** The entry parses to `t`, and no earlier one parses to something of the same key. */
  ghost predicate FirstEntry<T, K>(f: Json -> Option<T>, key: T -> K, raw: seq<Json>, i: int, t: T) {
    0 <= i < |raw| && f(raw[i]) == Some(t) && forall j :: 0 <= j < i && f(raw[j]).Some? ==> key(f(raw[j]).value) != key(t)
  }

  /** In order and without repetition: the first entry of every key among those that parse. */
  ghost predicate ReadsFirsts<T(!new), K>(f: Json -> Option<T>, key: T -> K, le: (T, T) -> bool, raw: seq<Json>, out: seq<T>) {
    Sorted(le, out) && UniqueBy(key, out) && forall t :: t in out <==> exists i :: FirstEntry(f, key, raw, i, t)
  }

  /** In order and with repetition: all entries that parse. */
  ghost predicate ReadsAll<T(!new)>(f: Json -> Option<T>, le: (T, T) -> bool, raw: seq<Json>, out: seq<T>) {
    Sorted(le, out) && forall t :: multiset(out)[t] == Count(ParsesTo(f, t), raw)
  }

  lemma FrontEntry<T, K>(f: Json -> Option<T>, key: T -> K, raw: seq<Json>, i: int, t: T)
    requires raw != [] && i < |raw| - 1
    ensures FirstEntry(f, key, raw, i, t) <==> FirstEntry(f, key, raw[..|raw| - 1], i, t)
  {
    var front := raw[..|raw| - 1];
    assert forall j :: 0 <= j <= i ==> front[j] == raw[j];
  }

  lemma EntryKept<T, K>(f: Json -> Option<T>, key: T -> K, raw: seq<Json>, k: K)
    ensures HasKey(key, FilterMap(f, raw), k) <==> exists j :: j in raw && f(j).Some? && key(f(j).value) == k
  {
    FilterMapElements(f, raw);
    hide FilterMap;
  }

  /** The last entry is the first of its key exactly when nothing before it has that key. */
  lemma LastEntry<T, K>(f: Json -> Option<T>, key: T -> K, raw: seq<Json>, t: T)
    requires raw != []
    ensures FirstEntry(f, key, raw, |raw| - 1, t) <==>
      f(raw[|raw| - 1]) == Some(t) && !HasKey(key, FilterMap(f, raw[..|raw| - 1]), key(t))
  {
    var n := |raw| - 1;
    var front := raw[..n];
    EntryKept(f, key, front, key(t));
    hide FilterMap, HasKey;
    if j :| j in front && f(j).Some? && key(f(j).value) == key(t) {
      var i :| 0 <= i < n && front[i] == j;
      assert raw[i] == j;
    } else {
      forall j | 0 <= j < n && f(raw[j]).Some? ensures key(f(raw[j]).value) != key(t) { assert front[j] == raw[j] && front[j] in front; }
    }
  }

  lemma {:induction false} KeptExactly<T, K>(f: Json -> Option<T>, key: T -> K, raw: seq<Json>, t: T)
    ensures t in DistinctBy(key, FilterMap(f, raw)) <==> exists i :: FirstEntry(f, key, raw, i, t)
  {
    if raw != [] {
      var n := |raw| - 1;
      KeptExactly(f, key, raw[..n], t);
      KeptStep(f, key, raw, t);
      LastEntry(f, key, raw, t);
      hide FirstEntry, HasKey, FilterMap, DistinctBy;
      if i :| FirstEntry(f, key, raw[..n], i, t) { EntryInside(f, key, raw[..n], i, t); FrontEntry(f, key, raw, i, t); }
      if i :| FirstEntry(f, key, raw, i, t) {
        EntryInside(f, key, raw, i, t);
        if i < n { FrontEntry(f, key, raw, i, t); }
      }
    }
  }

  lemma EntryInside<T, K>(f: Json -> Option<T>, key: T -> K, raw: seq<Json>, i: int, t: T)
    requires FirstEntry(f, key, raw, i, t)
    ensures 0 <= i < |raw|
  {
  }

  lemma KeptStep<T, K>(f: Json -> Option<T>, key: T -> K, raw: seq<Json>, t: T)
    requires raw != []
    ensures t in DistinctBy(key, FilterMap(f, raw)) <==>
      || t in DistinctBy(key, FilterMap(f, raw[..|raw| - 1]))
      || (f(raw[|raw| - 1]) == Some(t) && !HasKey(key, FilterMap(f, raw[..|raw| - 1]), key(t)))
  {
    var n := |raw| - 1;
    var front := FilterMap(f, raw[..n]);
    if f(raw[n]).Some? {
      var x := f(raw[n]).value;
      assert FilterMap(f, raw) == front + [x];
      assert (front + [x])[..|front|] == front;
      KeysKept(key, front, key(x));
      hide FilterMap, HasKey;
    } else {
      hide DistinctBy, HasKey;
    }
  }

  lemma FirstsRead<T(!new), K>(f: Json -> Option<T>, key: T -> K, le: (T, T) -> bool, raw: seq<Json>)
    requires TotalPreorder(le)
    ensures ReadsFirsts(f, key, le, raw, SortBy(le, DistinctBy(key, FilterMap(f, raw))))
  {
    var kept := DistinctBy(key, FilterMap(f, raw));
    SortBySorted(le, kept);
    SortByElements(le, kept);
    SortedDistinctUnique(key, le, FilterMap(f, raw));
    hide SortBy, DistinctBy, FilterMap, FirstEntry;
    forall t ensures t in kept <==> exists i :: FirstEntry(f, key, raw, i, t) { KeptExactly(f, key, raw, t); }
  }

  lemma {:induction false} KeptCount<T>(f: Json -> Option<T>, raw: seq<Json>, t: T)
    ensures multiset(FilterMap(f, raw))[t] == Count(ParsesTo(f, t), raw)
  {
    if raw != [] { KeptCount(f, raw[..|raw| - 1], t); }
  }

  lemma AllRead<T(!new)>(f: Json -> Option<T>, le: (T, T) -> bool, raw: seq<Json>)
    requires TotalPreorder(le)
    ensures ReadsAll(f, le, raw, SortBy(le, FilterMap(f, raw)))
  {
    SortBySorted(le, FilterMap(f, raw));
    hide SortBy, FilterMap, Count;
    forall t ensures multiset(FilterMap(f, raw))[t] == Count(ParsesTo(f, t), raw) { KeptCount(f, raw, t); }
  }

  /** Something is kept exactly when some entry parses. */
  lemma NothingKept<T, K>(f: Json -> Option<T>, key: T -> K, le: (T, T) -> bool, raw: seq<Json>)
    ensures SortBy(le, FilterMap(f, raw)) == [] <==> NoneParses(f, raw)
    ensures SortBy(le, DistinctBy(key, FilterMap(f, raw))) == [] <==> NoneParses(f, raw)
  {
    FilterMapElements(f, raw);
    var kept := FilterMap(f, raw);
    hide FilterMap, SortBy;
    if kept != [] { assert kept[0] in kept; DistinctSome(key, kept); }
  }

  lemma {:induction false} DistinctSome<T, K>(key: T -> K, s: seq<T>)
    requires s != []
    ensures DistinctBy(key, s) != []
  {
    if |s| > 1 { DistinctSome(key, s[..|s| - 1]); }
  }

  // ----- dropping what does not parse -----

  lemma {:induction false} ParsedAgain<T>(f: Json -> Option<T>, raw: seq<Json>)
    ensures FilterMap(f, Filter(Parses(f), raw)) == FilterMap(f, raw)
    ensures !AnyMalformed(f, Filter(Parses(f), raw))
  {
    if raw != [] {
      var front, last := raw[..|raw| - 1], raw[|raw| - 1];
      ParsedAgain(f, front);
      var kept := Filter(Parses(f), front);
      assert (kept + [last])[..|kept|] == kept && kept + [] == kept;
    }
  }

  lemma MalformedMeans<T>(f: Json -> Option<T>, raw: seq<Json>)
    ensures AnyMalformed(f, raw) <==> !AllParse(f, raw)
  {
  }

  /** The section without the entries of one list that do not parse. */
  function CleanSection<T>(f: Json -> Option<T>, name: string, o: Fields): Fields {
    if name in o && o[name].Arr? then o[name := Arr(Filter(Parses(f), o[name].items))] else o
  }

  function CleanValue<T>(f: Json -> Option<T>, name: string, j: Json): Json {
    if j.Obj? then Obj(CleanSection(f, name, j.fields)) else j
  }

  lemma CleanKeeps<T>(f: Json -> Option<T>, name: string, o: Fields, other: string)
    requires other != name
    ensures Text(CleanSection(f, name, o), other) == Text(o, other)
    ensures List(CleanSection(f, name, o), other) == List(o, other)
  {
  }

  lemma CleanList<T>(f: Json -> Option<T>, name: string, o: Fields)
    ensures name in CleanSection(f, name, o) <==> name in o
    ensures name in o ==> (CleanSection(f, name, o)[name].Arr? <==> o[name].Arr?)
    ensures List(CleanSection(f, name, o), name) == Filter(Parses(f), List(o, name))
  {
  }

  // ----- orders -----

  lemma ServiceLeOrder()
    ensures TotalPreorder(ServiceLe)
  {
    StringLeOrder();
    hide StringLe;
  }

  lemma RouteLeOrder()
    ensures TotalPreorder(RouteLe)
  {
    StringLeOrder();
    hide StringLe, RouteKey;
  }

  lemma ListenerLeOrder()
    ensures TotalPreorder(ListenerLe)
  {
    StringLeOrder();
    forall a, b | StringLe(a, b) && StringLe(b, a) ensures a == b { StringLeAntisymmetric(a, b); }
    hide StringLe;
  }

  lemma KeyedOrders()
    ensures TotalPreorder(InstanceLe) && TotalPreorder(NameLe) && TotalPreorder(ProjectLe)
  {
    KeysLeOrder();
    StringLeOrder();
    hide KeysLe, StringLe;
  }

  // ----- the services -----

  /** A section with a status, and a list where the entries are expected, if there is anything. */
  predicate Readable(o: Fields, name: string) { Text(o, "status").Some? && (name in o ==> o[name].Arr?) }

  /** The declared state stands exactly as long as every entry parses. */
  ghost predicate StateRead<T>(f: Json -> Option<T>, raw: seq<Json>, declared: OptionalState, state: OptionalState) {
    && (AllParse(f, raw) ==> state == declared)
    && (!AllParse(f, raw) ==> state == if NoneParses(f, raw) then MALFORMED else PARTIAL)
  }

  ghost predicate SystemdRead(rules: Rules, o: Fields, r: Systemd) {
    var f, raw := ServiceOf(rules), List(o, "services");
    && ReadsFirsts(f, UnitOf, ServiceLe, raw, r.services)
    && Text(o, "status").Some? && StateRead(f, raw, OptionalStateOf(Text(o, "status").value), r.state)
  }

  /**
    The services are the first entry of every unit among those that parse; the state is the declared one
    exactly as long as all entries parse, else PARTIAL, or MALFORMED when none does.
   */
  lemma SystemdExact(rules: Rules, value: Option<Json>)
    ensures value.None? ==> SystemdOf(rules, value) == NoSystemd
    ensures value.Some? && !(value.value.Obj? && Readable(value.value.fields, "services")) ==> SystemdOf(rules, value) == BadSystemd
    ensures value.Some? && value.value.Obj? && Readable(value.value.fields, "services") ==>
      SystemdRead(rules, value.value.fields, SystemdOf(rules, value))
  {
    hide FilterMap, DistinctBy, SortBy, ServiceOf, ReasonsOf, AnyMalformed, ReadsFirsts, AllParse, NoneParses, OptionalStateOf;
    if value.Some? && value.value.Obj? && Readable(value.value.fields, "services") {
      var f, raw := ServiceOf(rules), List(value.value.fields, "services");
      ServiceLeOrder();
      FirstsRead(f, UnitOf, ServiceLe, raw);
      NothingKept(f, UnitOf, ServiceLe, raw);
      MalformedMeans(f, raw);
    }
  }

  /** Dropping the malformed services changes neither the services nor the reasons and restores the declared state. */
  lemma SystemdIsolated(rules: Rules, o: Fields)
    requires Readable(o, "services")
    ensures var r := SystemdOf(rules, Some(Obj(o)));
      SystemdOf(rules, Some(CleanValue(ServiceOf(rules), "services", Obj(o)))) == r.(state := OptionalStateOf(Text(o, "status").value))
  {
    hide FilterMap, DistinctBy, SortBy, ServiceOf, AnyMalformed, OptionalStateOf, List, Text, CleanSection;
    var f := ServiceOf(rules);
    CleanKeeps(f, "services", o, "status");
    CleanKeeps(f, "services", o, "statusReasons");
    CleanList(f, "services", o);
    ParsedAgain(f, List(o, "services"));
  }

  // ----- the listeners -----

  ghost predicate ListenersRead(rules: Rules, o: Fields, r: Listeners) {
    var f, raw := ListenerOf(rules), List(o, "items");
    && ReadsFirsts(f, ListenerKeyOf, ListenerLe, raw, r.items)
    && Text(o, "status").Some? && StateRead(f, raw, OptionalStateOf(Text(o, "status").value), r.state)
  }

  /** The same for listeners, by their canonical key. */
  lemma ListenersExact(rules: Rules, value: Option<Json>)
    ensures value.None? ==> ListenersOf(rules, value) == NoListeners
    ensures value.Some? && !(value.value.Obj? && Readable(value.value.fields, "items")) ==> ListenersOf(rules, value) == BadListeners
    ensures value.Some? && value.value.Obj? && Readable(value.value.fields, "items") ==>
      ListenersRead(rules, value.value.fields, ListenersOf(rules, value))
  {
    hide FilterMap, DistinctBy, SortBy, ListenerOf, ReasonsOf, AnyMalformed, ReadsFirsts, AllParse, NoneParses, OptionalStateOf, ListenerKey;
    if value.Some? && value.value.Obj? && Readable(value.value.fields, "items") {
      var f, raw := ListenerOf(rules), List(value.value.fields, "items");
      ListenerLeOrder();
      FirstsRead(f, ListenerKeyOf, ListenerLe, raw);
      NothingKept(f, ListenerKeyOf, ListenerLe, raw);
      MalformedMeans(f, raw);
    }
  }

  lemma ListenersIsolated(rules: Rules, o: Fields)
    requires Readable(o, "items")
    ensures var r := ListenersOf(rules, Some(Obj(o)));
      ListenersOf(rules, Some(CleanValue(ListenerOf(rules), "items", Obj(o)))) == r.(state := OptionalStateOf(Text(o, "status").value))
  {
    hide FilterMap, DistinctBy, SortBy, ListenerOf, AnyMalformed, OptionalStateOf, List, Text, CleanSection, ListenerKey;
    var f := ListenerOf(rules);
    CleanKeeps(f, "items", o, "status");
    CleanKeeps(f, "items", o, "statusReasons");
    CleanList(f, "items", o);
    ParsedAgain(f, List(o, "items"));
  }

  // ----- Caddy -----

  ghost predicate SomePartial(rules: Rules, raw: seq<Json>) {
    exists j :: j in raw && InstanceOf(rules)(j).Some? && InstanceOf(rules)(j).value.state == CADDY_PARTIAL
  }

  ghost predicate CaddyRead(rules: Rules, o: Fields, r: Caddy) {
    var f, raw := InstanceOf(rules), List(o, "instances");
    && ReadsAll(f, InstanceLe, raw, r.instances)
    && Text(o, "status").Some?
    && var declared := CaddyStateOf(Text(o, "status").value);
    && (AllParse(f, raw) ==> r.state == if declared == CADDY_DISCOVERED && SomePartial(rules, raw) then CADDY_PARTIAL else declared)
    && (!AllParse(f, raw) ==> r.state == if NoneParses(f, raw) then CADDY_MALFORMED else CADDY_PARTIAL)
  }

  lemma PartialKept(rules: Rules, raw: seq<Json>)
    ensures AnyPartial(SortBy(InstanceLe, FilterMap(InstanceOf(rules), raw))) <==> SomePartial(rules, raw)
  {
    var f := InstanceOf(rules);
    SortByElements(InstanceLe, FilterMap(f, raw));
    FilterMapElements(f, raw);
    hide SortBy, FilterMap, InstanceOf;
    if SomePartial(rules, raw) {
      var j :| j in raw && f(j).Some? && f(j).value.state == CADDY_PARTIAL;
      assert f(j).value in FilterMap(f, raw);
    }
  }

  /** All instances that parse are kept; the state also drops to PARTIAL when an instance is partial. */
  lemma CaddyExact(rules: Rules, value: Option<Json>)
    ensures value.None? ==> CaddyOf(rules, value) == NoCaddy
    ensures value.Some? && !(value.value.Obj? && Readable(value.value.fields, "instances") && "instances" in value.value.fields) ==>
      CaddyOf(rules, value) == BadCaddy
    ensures value.Some? && value.value.Obj? && Readable(value.value.fields, "instances") && "instances" in value.value.fields ==>
      CaddyRead(rules, value.value.fields, CaddyOf(rules, value))
  {
    hide FilterMap, SortBy, InstanceOf, AnyMalformed, ReadsAll, AllParse, NoneParses, SomePartial, AnyPartial, CaddyStateOf;
    if value.Some? && value.value.Obj? && Readable(value.value.fields, "instances") && "instances" in value.value.fields {
      var f, raw := InstanceOf(rules), List(value.value.fields, "instances");
      KeyedOrders();
      AllRead(f, InstanceLe, raw);
      NothingKept(f, InstanceIdOf, InstanceLe, raw);
      MalformedMeans(f, raw);
      PartialKept(rules, raw);
    }
  }

  /** Dropping the malformed instances keeps the others and restores the declared state, up to a partial instance. */
  lemma CaddyIsolated(rules: Rules, o: Fields)
    requires Readable(o, "instances") && "instances" in o
    ensures var r, c := CaddyOf(rules, Some(Obj(o))), CaddyOf(rules, Some(CleanValue(InstanceOf(rules), "instances", Obj(o))));
      && c.instances == r.instances
      && c.state == var declared := CaddyStateOf(Text(o, "status").value);
        if declared == CADDY_DISCOVERED && SomePartial(rules, o["instances"].items) then CADDY_PARTIAL else declared
  {
    hide FilterMap, SortBy, InstanceOf, AnyMalformed, CaddyStateOf, Text, SomePartial, AnyPartial, Filter;
    var f := InstanceOf(rules);
    CleanKeeps(f, "instances", o, "status");
    ParsedAgain(f, o["instances"].items);
    PartialKept(rules, o["instances"].items);
  }

  /** Within an instance, a malformed route drops only itself and lowers a DISCOVERED state to PARTIAL. */
  lemma InstanceExact(rules: Rules, o: Fields)
    requires InstanceOf(rules)(Obj(o)).Some?
    ensures var i, f, raw := InstanceOf(rules)(Obj(o)).value, RouteOf(rules), List(o, "routes");
      && ReadsFirsts(f, RouteKeyOf, RouteLe, raw, i.routes)
      && var declared := if Text(o, "status").Some? then CaddyStateOf(Text(o, "status").value) else CADDY_UNKNOWN;
        i.state == if declared == CADDY_DISCOVERED && !AllParse(f, raw) then CADDY_PARTIAL else declared
  {
    hide FilterMap, DistinctBy, SortBy, RouteOf, AnyMalformed, ReadsFirsts, AllParse, CaddyStateOf, RouteKey;
    RouteLeOrder();
    FirstsRead(RouteOf(rules), RouteKeyOf, RouteLe, List(o, "routes"));
    MalformedMeans(RouteOf(rules), List(o, "routes"));
  }

  // ----- the report -----

  /** A report of this version that claims success. */
  predicate GoodHeader(o: Fields) { Int(o, "schemaVersion") == Some(1) && Bool(o, "ok") == Some(true) }

  ghost predicate ContainersRead(o: Fields, r: Docker) {
    && ReadsAll(ContainerOf, NameLe, List(o, "containers"), r.containers)
    && ReadsFirsts(ProjectOf, ProjectKey, ProjectLe, List(o, "composeProjects"), r.composeProjects)
  }

  /**
    The scan is AVAILABLE exactly when the header is good and every single container parses, and then all
    containers and the first entry of every project are there; no other entry can make it fail.
   */
  lemma AvailableExactly(rules: Rules, root: Option<Json>)
    ensures Parsed(rules, root).state == AVAILABLE <==>
      root.Some? && root.value.Obj? && GoodHeader(root.value.fields) && AllParse(ContainerOf, List(root.value.fields, "containers"))
    ensures Parsed(rules, root).state == AVAILABLE ==> ContainersRead(root.value.fields, Parsed(rules, root))
    ensures Parsed(rules, root).state != AVAILABLE ==> Parsed(rules, root) == Bare(Parsed(rules, root).state)
  {
    hide FilterMap, DistinctBy, SortBy, ContainerOf, ProjectOf, AnyMalformed, AllParse, ReadsFirsts, ReadsAll, SystemdOf, ListenersOf, CaddyOf, Int, Bool, Text;
    if root.Some? && root.value.Obj? {
      var o := root.value.fields;
      MalformedMeans(ContainerOf, List(o, "containers"));
      KeyedOrders();
      AllRead(ContainerOf, NameLe, List(o, "containers"));
      FirstsRead(ProjectOf, ProjectKey, ProjectLe, List(o, "composeProjects"));
    }
  }

  function CleanMember<T>(f: Json -> Option<T>, member: string, name: string, o: Fields): Fields {
    if member in o then o[member := CleanValue(f, name, o[member])] else o
  }

  /** The report without any malformed entry of a section. */
  function CleanReport(rules: Rules, o: Fields): Fields {
    CleanMember(ServiceOf(rules), "systemd", "services",
      CleanMember(ListenerOf(rules), "listeners", "items",
        CleanMember(InstanceOf(rules), "caddy", "instances", CleanSection(ProjectOf, "composeProjects", o))))
  }

  /** The same but for the states of the three sections. */
  predicate SameEntries(a: Docker, b: Docker) {
    && a.state == b.state && a.engineVersion == b.engineVersion
    && a.composeProjects == b.composeProjects && a.containers == b.containers
    && a.caddy.instances == b.caddy.instances
    && a.systemd.services == b.systemd.services && a.systemd.statusReasons == b.systemd.statusReasons
    && a.listeners.items == b.listeners.items && a.listeners.statusReasons == b.listeners.statusReasons
  }

  lemma SystemdSame(rules: Rules, v: Json)
    ensures var r, c := SystemdOf(rules, Some(v)), SystemdOf(rules, Some(CleanValue(ServiceOf(rules), "services", v)));
      c.services == r.services && c.statusReasons == r.statusReasons
  {
    if v.Obj? && Readable(v.fields, "services") {
      SystemdIsolated(rules, v.fields);
      hide SystemdOf;
    } else {
      hide ServiceOf, ReasonsOf, SortBy, DistinctBy, FilterMap, AnyMalformed, Filter;
    }
  }

  lemma ListenersSame(rules: Rules, v: Json)
    ensures var r, c := ListenersOf(rules, Some(v)), ListenersOf(rules, Some(CleanValue(ListenerOf(rules), "items", v)));
      c.items == r.items && c.statusReasons == r.statusReasons
  {
    if v.Obj? && Readable(v.fields, "items") {
      ListenersIsolated(rules, v.fields);
      hide ListenersOf;
    } else {
      hide ListenerOf, ReasonsOf, SortBy, DistinctBy, FilterMap, AnyMalformed, Filter;
    }
  }

  lemma CaddySame(rules: Rules, v: Json)
    ensures CaddyOf(rules, Some(CleanValue(InstanceOf(rules), "instances", v))).instances == CaddyOf(rules, Some(v)).instances
  {
    if v.Obj? && Readable(v.fields, "instances") && "instances" in v.fields {
      CaddyIsolated(rules, v.fields);
      hide CaddyOf;
    } else {
      hide InstanceOf, SortBy, FilterMap, AnyMalformed, Filter;
    }
  }

  lemma CleanMemberKeeps<T>(f: Json -> Option<T>, member: string, name: string, o: Fields, other: string)
    ensures Member(CleanMember(f, member, name, o), other) ==
      if other == member && member in o then Some(CleanValue(f, name, o[member])) else Member(o, other)
  {
    hide CleanValue;
  }

  /** The value that a member of the report becomes. */
  function CleanedMember(rules: Rules, o: Fields, name: string): Option<Json> {
    if name !in o then None
    else if name == "systemd" then Some(CleanValue(ServiceOf(rules), "services", o[name]))
    else if name == "listeners" then Some(CleanValue(ListenerOf(rules), "items", o[name]))
    else if name == "caddy" then Some(CleanValue(InstanceOf(rules), "instances", o[name]))
    else Member(CleanSection(ProjectOf, "composeProjects", o), name)
  }

  lemma CleanMembers(rules: Rules, o: Fields, name: string)
    ensures Member(CleanReport(rules, o), name) == CleanedMember(rules, o, name)
  {
    var first := CleanSection(ProjectOf, "composeProjects", o);
    var second := CleanMember(InstanceOf(rules), "caddy", "instances", first);
    var third := CleanMember(ListenerOf(rules), "listeners", "items", second);
    assert CleanReport(rules, o) == CleanMember(ServiceOf(rules), "systemd", "services", third);
    hide CleanMember, CleanValue, Filter, ProjectOf, InstanceOf, ListenerOf, ServiceOf, CleanReport;
    CleanMemberKeeps(InstanceOf(rules), "caddy", "instances", first, name);
    CleanMemberKeeps(ListenerOf(rules), "listeners", "items", second, name);
    CleanMemberKeeps(ServiceOf(rules), "systemd", "services", third, name);
  }

  lemma ReadsMembers(o: Fields, c: Fields, name: string)
    requires Member(c, name) == Member(o, name)
    ensures Int(c, name) == Int(o, name) && Bool(c, name) == Bool(o, name)
    ensures List(c, name) == List(o, name) && Object(c, name) == Object(o, name)
  {
  }

  /** No malformed entry outside the containers affects anything but the state of its own section. */
  lemma FaultsIsolated(rules: Rules, o: Fields)
    ensures SameEntries(Parsed(rules, Some(Obj(o))), Parsed(rules, Some(Obj(CleanReport(rules, o)))))
  {
    hide FilterMap, DistinctBy, SortBy, ContainerOf, ProjectOf, ServiceOf, ListenerOf, InstanceOf, AnyMalformed, Int, Bool, Text, List,
      Object, SystemdOf, ListenersOf, CaddyOf, CleanReport, CleanValue, CleanSection, Filter;
    var c := CleanReport(rules, o);
    HeaderSame(rules, o);
    SectionsSame(rules, o);
  }

  lemma HeaderSame(rules: Rules, o: Fields)
    ensures var c := CleanReport(rules, o);
      && Int(c, "schemaVersion") == Int(o, "schemaVersion") && Bool(c, "ok") == Bool(o, "ok")
      && Object(c, "error") == Object(o, "error") && Object(c, "engine") == Object(o, "engine")
      && List(c, "containers") == List(o, "containers")
      && FilterMap(ProjectOf, List(c, "composeProjects")) == FilterMap(ProjectOf, List(o, "composeProjects"))
  {
    hide FilterMap, ProjectOf, AnyMalformed, Int, Bool, Object, CleanReport, CleanValue, Filter;
    var c := CleanReport(rules, o);
    CleanMembers(rules, o, "schemaVersion");
    CleanMembers(rules, o, "ok");
    CleanMembers(rules, o, "error");
    CleanMembers(rules, o, "engine");
    CleanMembers(rules, o, "containers");
    CleanMembers(rules, o, "composeProjects");
    ReadsMembers(o, c, "schemaVersion");
    ReadsMembers(o, c, "ok");
    ReadsMembers(o, c, "error");
    ReadsMembers(o, c, "engine");
    ReadsMembers(o, c, "containers");
    ReadsMembers(CleanSection(ProjectOf, "composeProjects", o), c, "composeProjects");
    CleanList(ProjectOf, "composeProjects", o);
    ParsedAgain(ProjectOf, List(o, "composeProjects"));
  }

  lemma SectionsSame(rules: Rules, o: Fields)
    ensures var c := CleanReport(rules, o);
      && CaddyOf(rules, Member(c, "caddy")).instances == CaddyOf(rules, Member(o, "caddy")).instances
      && SystemdOf(rules, Member(c, "systemd")).services == SystemdOf(rules, Member(o, "systemd")).services
      && SystemdOf(rules, Member(c, "systemd")).statusReasons == SystemdOf(rules, Member(o, "systemd")).statusReasons
      && ListenersOf(rules, Member(c, "listeners")).items == ListenersOf(rules, Member(o, "listeners")).items
      && ListenersOf(rules, Member(c, "listeners")).statusReasons == ListenersOf(rules, Member(o, "listeners")).statusReasons
  {
    hide SystemdOf, ListenersOf, CaddyOf, CleanReport, CleanValue, CleanSection;
    CleanMembers(rules, o, "systemd");
    CleanMembers(rules, o, "listeners");
    CleanMembers(rules, o, "caddy");
    if "systemd" in o { SystemdSame(rules, o["systemd"]); }
    if "listeners" in o { ListenersSame(rules, o["listeners"]); }
    if "caddy" in o { CaddySame(rules, o["caddy"]); }
  }
}

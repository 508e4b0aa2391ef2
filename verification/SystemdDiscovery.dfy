/**
  Systemd discovery: the listing of units, their batched show records, and the merge of both.

  The functions specify what the loops compute; command output arrives as lines.
 */
module SystemdDiscovery {
  import opened Ordering
  import opened Collections
  import opened Texts

  const MAX_SYSTEMD_SERVICES := 2048

  datatype Reason = COMMAND_FAILED | TRUNCATED | LIST_ROW_MALFORMED | SHOW_RECORD_MISSING | SHOW_RECORD_MALFORMED

  datatype Unit = Unit(
    unit: string, description: Option<string>, loadState: Option<string>, activeState: Option<string>,
    subState: Option<string>, unitFileState: Option<string>, serviceType: Option<string>, user: Option<string>,
    group: Option<string>, mainPid: Option<nat>, controlGroup: Option<string>)

  /** The text sanitizers. */
  datatype Sanitizers = Sanitizers(
    isUnit: string -> bool, description: string -> Option<string>, token: string -> Option<string>,
    controlGroup: string -> Option<string>)

  const UnitName := (u: Unit) => u.unit

  // ----- the listing -----

  function FirstWord(s: string): string { if s == [] || IsBlank(s[0]) then [] else [s[0]] + FirstWord(s[1..]) }

  lemma {:induction false} FirstWordShort(s: string)
    ensures |FirstWord(s)| <= |s|
    ensures s != [] && !IsBlank(s[0]) ==> FirstWord(s) != []
  {
    if s != [] && !IsBlank(s[0]) { FirstWordShort(s[1..]); }
  }

  /** `split(None, limit)`: words up to a limit, then the rest of the line. */
  function Words(line: string, limit: nat): seq<string>
    decreases limit
  {
    var s := TrimStart(line);
    if s == [] then []
    else if limit == 0 then [s]
    else
      FirstWordShort(s);
      [FirstWord(s)] + Words(s[|FirstWord(s)|..], limit - 1)
  }

  datatype Row = Skipped | BadRow | Loaded(unit: Unit)

  function Listed(s: Sanitizers, words: seq<string>): Unit
    requires |words| >= 4
  {
    Unit(words[0], if |words| == 5 then s.description(words[4]) else None,
      s.token(words[1]), s.token(words[2]), s.token(words[3]), None, None, None, None, None, None)
  }

  /** One line of the listing: blank and unloaded rows are skipped, rows without a unit name or four columns are malformed. */
  function RowOf(s: Sanitizers, line: string): Row {
    var words := Words(line, 4);
    if words == [] then Skipped
    else if !s.isUnit(words[0]) || |words| < 4 then BadRow
    else if words[1] != "loaded" then Skipped
    else Loaded(Listed(s, words))
  }

  function LoadedUnit(s: Sanitizers): string -> Option<Unit> {
    (line: string) => match RowOf(s, line) case Loaded(unit) => Some(unit) case _ => None
  }

  predicate AnyBadRow(s: Sanitizers, lines: seq<string>) { exists line :: line in lines && RowOf(s, line).BadRow? }

  function ListedUnits(s: Sanitizers, lines: seq<string>): seq<Unit> { LastByKey(UnitName, FilterMap(LoadedUnit(s), lines)) }

  function Truncated(units: seq<Unit>): seq<Unit> { if |units| > MAX_SYSTEMD_SERVICES then units[..MAX_SYSTEMD_SERVICES] else units }

  function Flag(present: bool, reason: Reason): set<Reason> { if present then {reason} else {} }

  function ListReasons(s: Sanitizers, lines: seq<string>): set<Reason> {
    Flag(AnyBadRow(s, lines), LIST_ROW_MALFORMED) + Flag(|ListedUnits(s, lines)| > MAX_SYSTEMD_SERVICES, TRUNCATED)
  }

  lemma ListedStep(s: Sanitizers, lines: seq<string>, i: nat)
    requires i < |lines|
    ensures var m := AssociateBy(UnitName, FilterMap(LoadedUnit(s), lines[..i]));
      AssociateBy(UnitName, FilterMap(LoadedUnit(s), lines[..i + 1])) ==
        match RowOf(s, lines[i]) case Loaded(unit) => m[unit.unit := unit] case _ => m
  {
    FilterMapStep(LoadedUnit(s), lines, i);
    var front := FilterMap(LoadedUnit(s), lines[..i]);
    hide RowOf;
    match RowOf(s, lines[i])
    case Loaded(unit) =>
      assert (front + [unit])[..|front|] == front;
    case _ =>
  }

  /** `parse_unit_records`; `reasons` is the set the caller shares. */
  method ParseUnitRecords(s: Sanitizers, lines: seq<string>, reasons: set<Reason>) returns (units: seq<Unit>, noted: set<Reason>)
    ensures units == Truncated(ListedUnits(s, lines))
    ensures noted == reasons + ListReasons(s, lines)
  {
    var byUnit: map<string, Unit> := map[];
    noted := reasons;
    hide RowOf, FilterMap, AssociateBy, AnyBadRow, LoadedUnit, SortedSet;
    NothingListed(s, lines);
    for i := 0 to |lines|
      invariant byUnit == AssociateBy(UnitName, FilterMap(LoadedUnit(s), lines[..i]))
      invariant noted == reasons + Flag(AnyBadRow(s, lines[..i]), LIST_ROW_MALFORMED)
    {
      ListedStep(s, lines, i);
      BadRowStep(s, lines, i);
      match RowOf(s, lines[i])
      case Skipped =>
      case BadRow => noted := noted + {LIST_ROW_MALFORMED};
      case Loaded(unit) => byUnit := byUnit[unit.unit := unit];
    }
    assert lines[..|lines|] == lines;
    units := FilterMap(Lookup(byUnit), SortedSet(byUnit.Keys));
    if |units| > MAX_SYSTEMD_SERVICES {
      noted := noted + {TRUNCATED};
      units := units[..MAX_SYSTEMD_SERVICES];
    }
  }

  lemma NothingListed(s: Sanitizers, lines: seq<string>)
    ensures AssociateBy(UnitName, FilterMap(LoadedUnit(s), lines[..0])) == map[]
    ensures !AnyBadRow(s, lines[..0])
  {
  }

  lemma BadRowStep(s: Sanitizers, lines: seq<string>, i: nat)
    requires i < |lines|
    ensures AnyBadRow(s, lines[..i + 1]) <==> AnyBadRow(s, lines[..i]) || RowOf(s, lines[i]).BadRow?
  {
    hide RowOf;
    assert lines[..i + 1] == lines[..i] + [lines[i]];
  }

  // ----- show records -----

  const PropertyNames := {
    "Id", "Description", "LoadState", "ActiveState", "SubState", "UnitFileState", "MainPID", "ControlGroup", "Type", "User", "Group"}

  type Properties = map<string, string>

  datatype ShowLine = NoSeparator | Unknown | Property(key: string, value: string)

  function BeforeEquals(line: string): string { if line == [] || line[0] == '=' then [] else [line[0]] + BeforeEquals(line[1..]) }

  /** `partition("=")` */
  function LineOf(line: string): ShowLine {
    var key := BeforeEquals(line);
    if '=' !in line || |key| >= |line| then NoSeparator
    else if key !in PropertyNames then Unknown
    else Property(key, line[|key| + 1..])
  }

  /** The non-empty lines between empty ones; there is always a last, possibly empty block. */
  function Blocks(lines: seq<string>): (blocks: seq<seq<string>>)
    ensures blocks != []
  {
    if lines == [] then [[]]
    else
      var blocks, last := Blocks(lines[..|lines| - 1]), lines[|lines| - 1];
      if last == "" then blocks + [[]] else blocks[..|blocks| - 1] + [blocks[|blocks| - 1] + [last]]
  }

  /** The first value of every known property. */
  function PropertiesOf(block: seq<string>): Properties {
    if block == [] then map[]
    else
      var front, line := PropertiesOf(block[..|block| - 1]), LineOf(block[|block| - 1]);
      if line.Property? && line.key !in front then front[line.key := line.value] else front
  }

  /** A line without "=" or a known property given twice. */
  predicate Untidy(block: seq<string>) {
    block != [] &&
    var front, line := block[..|block| - 1], LineOf(block[|block| - 1]);
    Untidy(front) || line.NoSeparator? || (line.Property? && line.key in PropertiesOf(front))
  }

  function Valued(p: Properties, key: string, sanitize: string -> Option<string>): Option<string> {
    if key in p then sanitize(p[key]) else None
  }

  function MainPid(p: Properties): Option<nat> {
    if "MainPID" !in p then None
    else match DigitsValue(p["MainPID"])
      case None => None
      case Some(pid) => if pid > 0 then Some(pid) else None
  }

  /** `systemd_service_from_properties` */
  function UnitFrom(s: Sanitizers, p: Properties): Option<Unit> {
    if "Id" !in p || !s.isUnit(p["Id"]) then None
    else
      Some(Unit(p["Id"], Valued(p, "Description", s.description), Valued(p, "LoadState", s.token), Valued(p, "ActiveState", s.token),
        Valued(p, "SubState", s.token), Valued(p, "UnitFileState", s.token), Valued(p, "Type", s.token), Valued(p, "User", s.token),
        Valued(p, "Group", s.token), MainPid(p), Valued(p, "ControlGroup", s.controlGroup)))
  }

  function UnitOfBlock(s: Sanitizers): seq<string> -> Option<Unit> {
    (block: seq<string>) => if PropertiesOf(block) == map[] then None else UnitFrom(s, PropertiesOf(block))
  }

  predicate BadBlock(s: Sanitizers, block: seq<string>) {
    Untidy(block) || (PropertiesOf(block) != map[] && UnitFrom(s, PropertiesOf(block)).None?)
  }

  predicate AnyBadBlock(s: Sanitizers, blocks: seq<seq<string>>) { exists b :: b in blocks && BadBlock(s, b) }

  function ShownUnits(s: Sanitizers, lines: seq<string>): seq<Unit> {
    LastByKey(UnitName, FilterMap(UnitOfBlock(s), Blocks(lines)))
  }

  /** `parse_systemctl_show`: one record at a time, finished by an empty line or the end. */
  method ParseSystemctlShow(s: Sanitizers, lines: seq<string>, reasons: set<Reason>) returns (units: seq<Unit>, noted: set<Reason>)
    ensures units == ShownUnits(s, lines)
    ensures noted == reasons + Flag(AnyBadBlock(s, Blocks(lines)), SHOW_RECORD_MALFORMED)
  {
    var current: Properties, found: seq<Unit>, bad := map[], [], false;
    NoLines(s, lines);
    hide Blocks, ShowState, UnitFrom, LineOf, AnyBadBlock, LastByKey, FilterMap, UnitOfBlock;
    for i := 0 to |lines|
      invariant ShowState(s, Blocks(lines[..i]), current, found, bad)
    {
      BlocksStep(lines, i);
      var line := lines[i];
      if line == "" {
        FinishBlock(s, Blocks(lines[..i]), current, found, bad);
        found, bad := Finish(s, current, found, bad);
        current := map[];
      } else {
        ExtendBlock(s, Blocks(lines[..i]), current, found, bad, line);
        match LineOf(line)
        case NoSeparator => bad := true;
        case Unknown =>
        case Property(key, value) =>
          if key in current { bad := true; } else { current := current[key := value]; }
      }
    }
    assert lines[..|lines|] == lines;
    ClosedBlock(s, Blocks(lines), current, found, bad);
    found, bad := Finish(s, current, found, bad);
    noted := if bad then reasons + {SHOW_RECORD_MALFORMED} else reasons;
    units := LastByKey(UnitName, found);
  }

  /** `finish` */
  method Finish(s: Sanitizers, current: Properties, found: seq<Unit>, bad: bool) returns (all: seq<Unit>, malformed: bool)
    ensures all == found + UnitsIn(s, current)
    ensures malformed <==> bad || (current != map[] && UnitFrom(s, current).None?)
  {
    all, malformed := found, bad;
    if current != map[] {
      match UnitFrom(s, current)
      case None => malformed := true;
      case Some(unit) => all := all + [unit];
    }
  }

  /** The loop's state after some blocks, the last of which is still open. */
  ghost predicate ShowState(s: Sanitizers, blocks: seq<seq<string>>, current: Properties, found: seq<Unit>, bad: bool) {
    && blocks != []
    && var done, open := blocks[..|blocks| - 1], blocks[|blocks| - 1];
       && found == FilterMap(UnitOfBlock(s), done)
       && current == PropertiesOf(open)
       && (bad <==> AnyBadBlock(s, done) || Untidy(open))
  }

  lemma NoLines(s: Sanitizers, lines: seq<string>)
    ensures ShowState(s, Blocks(lines[..0]), map[], [], false)
  {
  }

  lemma BlocksStep(lines: seq<string>, i: nat)
    requires i < |lines|
    ensures var blocks := Blocks(lines[..i]);
      Blocks(lines[..i + 1]) ==
        if lines[i] == "" then blocks + [[]] else blocks[..|blocks| - 1] + [blocks[|blocks| - 1] + [lines[i]]]
  {
    assert lines[..i + 1][..i] == lines[..i];
  }

  lemma AnyBadAppend(s: Sanitizers, done: seq<seq<string>>, block: seq<string>)
    ensures AnyBadBlock(s, done + [block]) <==> AnyBadBlock(s, done) || BadBlock(s, block)
  {
    hide BadBlock;
    assert block in done + [block];
    if b :| b in done && BadBlock(s, b) { assert b in done + [block]; }
  }

  function UnitsIn(s: Sanitizers, current: Properties): seq<Unit> {
    if current != map[] && UnitFrom(s, current).Some? then [UnitFrom(s, current).value] else []
  }

  /** The units and the verdict once the open block is closed. */
  lemma ClosedBlock(s: Sanitizers, blocks: seq<seq<string>>, current: Properties, found: seq<Unit>, bad: bool)
    requires ShowState(s, blocks, current, found, bad)
    ensures FilterMap(UnitOfBlock(s), blocks) == found + UnitsIn(s, current)
    ensures AnyBadBlock(s, blocks) <==> bad || (current != map[] && UnitFrom(s, current).None?)
  {
    hide UnitFrom, PropertiesOf, Untidy, FilterMap, AnyBadBlock;
    var done, open := blocks[..|blocks| - 1], blocks[|blocks| - 1];
    assert BadBlock(s, open) <==> Untidy(open) || (current != map[] && UnitFrom(s, current).None?);
    assert Kept(UnitOfBlock(s)(open)) == UnitsIn(s, current);
    hide BadBlock, UnitsIn, UnitOfBlock;
    LastKept(UnitOfBlock(s), done, open);
    AnyBadAppend(s, done, open);
    assert blocks == done + [open];
  }

  lemma LastKept<T, U>(f: T -> Option<U>, front: seq<T>, last: T)
    ensures FilterMap(f, front + [last]) == FilterMap(f, front) + Kept(f(last))
  {
    assert (front + [last])[..|front|] == front;
  }

  /** An empty line closes the open block and opens another. */
  lemma FinishBlock(s: Sanitizers, blocks: seq<seq<string>>, current: Properties, found: seq<Unit>, bad: bool)
    requires ShowState(s, blocks, current, found, bad)
    ensures ShowState(s, blocks + [[]], map[], found + UnitsIn(s, current), bad || (current != map[] && UnitFrom(s, current).None?))
  {
    ClosedBlock(s, blocks, current, found, bad);
    assert (blocks + [[]])[..|blocks|] == blocks;
    assert PropertiesOf([]) == map[] && !Untidy([]);
    hide UnitFrom, PropertiesOf, Untidy, FilterMap, AnyBadBlock, UnitsIn;
  }

  /** Any other line extends it. */
  lemma ExtendBlock(s: Sanitizers, blocks: seq<seq<string>>, current: Properties, found: seq<Unit>, bad: bool, line: string)
    requires ShowState(s, blocks, current, found, bad)
    ensures var grown := blocks[..|blocks| - 1] + [blocks[|blocks| - 1] + [line]];
      match LineOf(line)
      case NoSeparator => ShowState(s, grown, current, found, true)
      case Unknown => ShowState(s, grown, current, found, bad)
      case Property(key, value) =>
        if key in current then ShowState(s, grown, current, found, true)
        else ShowState(s, grown, current[key := value], found, bad)
  {
    var done, open := blocks[..|blocks| - 1], blocks[|blocks| - 1];
    var grown := done + [open + [line]];
    assert (open + [line])[..|open|] == open;
    assert grown[..|grown| - 1] == done && grown[|grown| - 1] == open + [line];
    assert PropertiesOf(open + [line]) ==
      if LineOf(line).Property? && LineOf(line).key !in current then current[LineOf(line).key := LineOf(line).value] else current;
    assert Untidy(open + [line]) <==> Untidy(open) || LineOf(line).NoSeparator? || (LineOf(line).Property? && LineOf(line).key in current);
    hide LineOf, PropertiesOf, Untidy, FilterMap, AnyBadBlock;
  }

  // ----- merging -----

  /** `a or b`: an absent or empty text gives way. */
  function Or(a: Option<string>, b: Option<string>): Option<string> { if a.Some? && a.value != "" then a else b }

  /** `merge_systemd_service` */
  function Merge(base: Unit, shown: Unit): Unit {
    if base.unit != shown.unit then base
    else
      Unit(base.unit, Or(shown.description, base.description), Or(shown.loadState, base.loadState),
        Or(shown.activeState, base.activeState), Or(shown.subState, base.subState), Or(shown.unitFileState, base.unitFileState),
        Or(shown.serviceType, base.serviceType), Or(shown.user, base.user), Or(shown.group, base.group),
        if shown.mainPid.Some? && shown.mainPid.value != 0 then shown.mainPid else base.mainPid,
        Or(shown.controlGroup, base.controlGroup))
  }

  function MergeInto(base: map<string, Unit>): Unit -> Option<Unit> {
    (u: Unit) => if u.unit in base then Some(Merge(base[u.unit], u)) else None
  }

  // ----- batches -----

  function Chunks(units: seq<string>, size: nat): seq<seq<string>>
    requires size > 0
    decreases |units|
  {
    if units == [] then []
    else if |units| <= size then [units]
    else [units[..size]] + Chunks(units[size..], size)
  }

  /** What one `systemctl show` run gives back. */
  datatype Shown = TimedOut | TooLarge | Lines(lines: seq<string>)

  function Names(units: seq<Unit>): set<string> { set u | u in units :: u.unit }

  function BatchReasons(s: Sanitizers, batch: seq<string>, shown: Shown): set<Reason> {
    match shown
    case TimedOut => {COMMAND_FAILED}
    case TooLarge => {TRUNCATED}
    case Lines(lines) =>
      Flag(AnyBadBlock(s, Blocks(lines)), SHOW_RECORD_MALFORMED)
        + Flag(!(Elems(batch) <= Names(ShownUnits(s, lines))), SHOW_RECORD_MISSING)
  }

  function BatchUnits(s: Sanitizers, base: map<string, Unit>, shown: Shown): seq<Unit> {
    if shown.Lines? then FilterMap(MergeInto(base), ShownUnits(s, shown.lines)) else []
  }

  function AllReasons(s: Sanitizers, batches: seq<seq<string>>, show: seq<string> -> Shown): set<Reason> {
    if batches == [] then {}
    else
      var last := batches[|batches| - 1];
      AllReasons(s, batches[..|batches| - 1], show) + BatchReasons(s, last, show(last))
  }

  function BatchOf(s: Sanitizers, base: map<string, Unit>, show: seq<string> -> Shown): seq<string> -> seq<Unit> {
    (batch: seq<string>) => BatchUnits(s, base, show(batch))
  }

  // ----- discovery -----

  datatype Listing = NoSystemctl | Interrupted | NotSystemd | Failed | Rows(lines: seq<string>)

  datatype Status = DISCOVERED | PARTIAL | NOT_AVAILABLE | NOT_SYSTEMD | STATUS_COMMAND_FAILED

  datatype Discovery = Discovery(status: Status, reasons: set<Reason>, services: seq<Unit>)

  function BaseOf(s: Sanitizers, lines: seq<string>): map<string, Unit> {
    AssociateBy(UnitName, Truncated(ListedUnits(s, lines)))
  }

  function UnitNames(s: Sanitizers, lines: seq<string>): seq<string> { Map(UnitName, Truncated(ListedUnits(s, lines))) }

  /** `discover_systemd_services`, for any batch size. */
  function Discovered(s: Sanitizers, listing: Listing, show: seq<string> -> Shown, size: nat): Discovery
    requires size > 0
  {
    match listing
    case NoSystemctl => Discovery(NOT_AVAILABLE, {}, [])
    case Interrupted => Discovery(STATUS_COMMAND_FAILED, {COMMAND_FAILED}, [])
    case NotSystemd => Discovery(NOT_SYSTEMD, {}, [])
    case Failed => Discovery(STATUS_COMMAND_FAILED, {COMMAND_FAILED}, [])
    case Rows(lines) =>
      var batches := Chunks(UnitNames(s, lines), size);
      var reasons := ListReasons(s, lines) + AllReasons(s, batches, show);
      Discovery(if reasons == {} then DISCOVERED else PARTIAL, reasons,
        LastByKey(UnitName, FlatMap(BatchOf(s, BaseOf(s, lines), show), batches)))
  }

  method DiscoverSystemdServices(s: Sanitizers, listing: Listing, show: seq<string> -> Shown, size: nat) returns (d: Discovery)
    requires size > 0
    ensures d == Discovered(s, listing, show, size)
  {
    match listing
    case NoSystemctl => d := Discovery(NOT_AVAILABLE, {}, []);
    case Interrupted => d := Discovery(STATUS_COMMAND_FAILED, {COMMAND_FAILED}, []);
    case NotSystemd => d := Discovery(NOT_SYSTEMD, {}, []);
    case Failed => d := Discovery(STATUS_COMMAND_FAILED, {COMMAND_FAILED}, []);
    case Rows(lines) => d := DiscoverRows(s, lines, show, size);
  }

  /** Discovery once the listing succeeded. */
  method DiscoverRows(s: Sanitizers, lines: seq<string>, show: seq<string> -> Shown, size: nat) returns (d: Discovery)
    requires size > 0
    ensures d == Discovered(s, Rows(lines), show, size)
  {
    hide LastByKey, ListedUnits, Chunks, Map, FlatMap, AssociateBy, ListReasons, AllReasons, Truncated, BatchOf;
    var base, reasons := ParseUnitRecords(s, lines, {});
    assert reasons == ListReasons(s, lines);
    var byUnit := AssociateBy(UnitName, base);
    var batches := Chunks(Map(UnitName, base), size);
    var services;
    services, reasons := ShowBatches(s, byUnit, batches, show, reasons);
    d := Discovery(if reasons == {} then DISCOVERED else PARTIAL, reasons, LastByKey(UnitName, services));
  }

  /** The loop over batches: a failed batch only leaves a reason. */
  method ShowBatches(s: Sanitizers, base: map<string, Unit>, batches: seq<seq<string>>, show: seq<string> -> Shown, reasons: set<Reason>)
    returns (services: seq<Unit>, noted: set<Reason>)
    ensures services == FlatMap(BatchOf(s, base, show), batches)
    ensures noted == reasons + AllReasons(s, batches, show)
  {
    services, noted := [], reasons;
    hide FlatMap, ShownUnits, AnyBadBlock, Blocks, FilterMap;
    NothingShown(s, base, batches, show);
    for i := 0 to |batches|
      invariant services == FlatMap(BatchOf(s, base, show), batches[..i])
      invariant noted == reasons + AllReasons(s, batches[..i], show)
    {
      FlatMapStep(BatchOf(s, base, show), batches, i);
      assert batches[..i + 1][..i] == batches[..i];
      match show(batches[i])
      case TimedOut => noted := noted + {COMMAND_FAILED};
      case TooLarge => noted := noted + {TRUNCATED};
      case Lines(lines) =>
        var shown;
        shown, noted := ParseSystemctlShow(s, lines, noted);
        services := services + FilterMap(MergeInto(base), shown);
        if !(Elems(batches[i]) <= Names(shown)) { noted := noted + {SHOW_RECORD_MISSING}; }
    }
    assert batches[..|batches|] == batches;
  }

  lemma NothingShown(s: Sanitizers, base: map<string, Unit>, batches: seq<seq<string>>, show: seq<string> -> Shown)
    ensures FlatMap(BatchOf(s, base, show), batches[..0]) == [] && AllReasons(s, batches[..0], show) == {}
  {
  }
}

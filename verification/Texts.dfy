/** Text building blocks: case, decimal numbers, joining with separators and taking joined text apart. */
module Texts {
  import opened Collections

  predicate IsBlank(c: char) { c == ' ' || '\t' <= c <= '\r' }

  function TrimStart(s: string): string { if s != [] && IsBlank(s[0]) then TrimStart(s[1..]) else s }

  function TrimEnd(s: string): string {
    if s != [] && IsBlank(s[|s| - 1]) then TrimEnd(s[..|s| - 1]) else s
  }

  function Trim(s: string): string { TrimEnd(TrimStart(s)) }

  /** ASCII case folding. */
  function LowerChar(c: char): char { if 'A' <= c <= 'Z' then c + ' ' else c }

  function Lower(s: string): string { if s == [] then [] else [LowerChar(s[0])] + Lower(s[1..]) }

  const DIGITS := "0123456789"

  predicate IsDigit(c: char) { '0' <= c <= '9' }

  function Decimal(n: nat): (s: string)
    ensures s != [] && forall i :: 0 <= i < |s| ==> IsDigit(s[i])
  {
    if n < 10 then [DIGITS[n]] else Decimal(n / 10) + [DIGITS[n % 10]]
  }

  lemma LastDigit(n: nat)
    ensures Decimal(n)[|Decimal(n)| - 1] == DIGITS[n % 10]
    ensures |Decimal(n)| == 1 <==> n < 10
  {
  }

  lemma {:induction false} DecimalInjective(n: nat, m: nat)
    requires Decimal(n) == Decimal(m)
    ensures n == m
  {
    var s, t := Decimal(n), Decimal(m);
    if n >= 10 && m >= 10 {
      assert s[..|s| - 1] == Decimal(n / 10) && t[..|t| - 1] == Decimal(m / 10);
      DecimalInjective(n / 10, m / 10);
    }
    LastDigit(n);
    LastDigit(m);
  }

  /** The first separator splits a text in one way only. */
  lemma FirstSeparator(sep: char, a: string, b: string, x: string, y: string)
    requires a + [sep] + x == b + [sep] + y && sep !in a && sep !in b
    ensures a == b && x == y
  {
    var s, t := a + [sep] + x, b + [sep] + y;
    assert s[|a|] == sep && t[|b|] == sep;
    assert forall i :: 0 <= i < |a| ==> s[i] == a[i] && a[i] in a;
    assert forall i :: 0 <= i < |b| ==> t[i] == b[i] && b[i] in b;
    assert |a| == |b|;
    assert s[..|a|] == a && t[..|b|] == b;
    assert s[|a| + 1..] == x && t[|b| + 1..] == y;
  }

  /** Different numbers in front of a separator make different texts. */
  lemma NumberedTexts(sep: char, i: nat, x: string, j: nat, y: string)
    requires !IsDigit(sep) && Decimal(i) + [sep] + x == Decimal(j) + [sep] + y
    ensures i == j && x == y
  {
    FirstSeparator(sep, Decimal(i), Decimal(j), x, y);
    DecimalInjective(i, j);
  }

  /** `joinToString` */
  function Join(separator: string, parts: seq<string>): string {
    if parts == [] then ""
    else if |parts| == 1 then parts[0]
    else parts[0] + separator + Join(separator, parts[1..])
  }

  ghost predicate AllWithout(sep: char, parts: seq<string>) {
    forall i :: 0 <= i < |parts| ==> sep !in parts[i]
  }

  lemma JoinSplits(sep: char, parts: seq<string>)
    requires |parts| > 1
    ensures Join([sep], parts) == parts[0] + [sep] + Join([sep], parts[1..])
    ensures sep in Join([sep], parts)
  {
    assert Join([sep], parts)[|parts[0]|] == sep;
  }

  /** Text joined from parts without the separator determines the parts. */
  lemma {:induction false} JoinInjective(sep: char, a: seq<string>, b: seq<string>)
    requires a != [] && b != [] && AllWithout(sep, a) && AllWithout(sep, b)
    requires Join([sep], a) == Join([sep], b)
    ensures a == b
  {
    if |a| == 1 && |b| == 1 {
      assert a == [a[0]] && b == [b[0]];
    } else if |a| == 1 {
      JoinSplits(sep, b);
    } else if |b| == 1 {
      JoinSplits(sep, a);
    } else {
      JoinSplits(sep, a);
      JoinSplits(sep, b);
      FirstSeparator(sep, a[0], b[0], Join([sep], a[1..]), Join([sep], b[1..]));
      JoinInjective(sep, a[1..], b[1..]);
      assert a == [a[0]] + a[1..] && b == [b[0]] + b[1..];
    }
  }

  /** An absent value printed in a template reads "null". */
  function OrNull(o: Option<string>): string { if o.Some? then o.value else "null" }

  function OrEmpty(o: Option<string>): string { if o.Some? then o.value else "" }

  /** The digits of a text as a number, if it has some and nothing else. */
  function DigitsValue(s: string): Option<nat> {
    if s == [] || !IsDigit(s[|s| - 1]) then None
    else
      var last := s[|s| - 1] as int - '0' as int;
      if |s| == 1 then Some(last)
      else match DigitsValue(s[..|s| - 1])
        case None => None
        case Some(front) => Some(front * 10 + last)
  }

  const MAX_INT := 0x7FFF_FFFF

  /** `toIntOrNull`: an optional sign, digits, and a 32-bit value. */
  function ToInt(s: string): Option<int> {
    var negative := s != [] && s[0] == '-';
    match DigitsValue(if negative || (s != [] && s[0] == '+') then s[1..] else s)
    case None => None
    case Some(digits) =>
      var n: int := digits;
      if negative && n <= MAX_INT + 1 then Some(-n)
      else if !negative && n <= MAX_INT then Some(n)
      else None
  }
}

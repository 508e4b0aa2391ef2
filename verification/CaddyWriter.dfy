/** A text form of routes that loses nothing, so the injective writer that the Caddy results ask for exists. */
module CaddyWriter {
  import opened Collections
  import opened Texts
  import opened CaddyRoutes
  import opened CaddyChains

  /** A text with its length in front, before more text. */
  function WriteText(s: string, rest: string): string { Decimal(|s|) + ":" + s + rest }

  function WriteTexts(l: seq<string>, rest: string): string {
    if l == [] then "n" + rest else "c" + WriteText(l[0], WriteTexts(l[1..], rest))
  }

  function WriteOptions(l: seq<Option<string>>, rest: string): string {
    if l == [] then "n" + rest
    else if l[0].None? then "u" + WriteOptions(l[1..], rest)
    else "c" + WriteText(l[0].value, WriteOptions(l[1..], rest))
  }

  function WriteFlag(b: bool, rest: string): string { (if b then "t" else "f") + rest }

  const WriteRoute := (r: Route) =>
    WriteTexts(r.hosts, WriteFlag(r.hostless, WriteFlag(r.hostUnresolved,
      WriteTexts(r.paths, WriteOptions(r.upstreams, WriteFlag(r.dynamic, ""))))))

  lemma TextRead(s: string, x: string, t: string, y: string)
    requires WriteText(s, x) == WriteText(t, y)
    ensures s == t && x == y
  {
    assert WriteText(s, x) == Decimal(|s|) + [':'] + (s + x) && WriteText(t, y) == Decimal(|t|) + [':'] + (t + y);
    NumberedTexts(':', |s|, s + x, |t|, t + y);
    assert (s + x)[..|s|] == s && (t + y)[..|t|] == t && (s + x)[|s|..] == x && (t + y)[|t|..] == y;
  }

  lemma TailsRead(c: char, x: string, d: char, y: string)
    requires [c] + x == [d] + y
    ensures c == d && x == y
  {
    assert ([c] + x)[0] == c && ([d] + y)[0] == d && ([c] + x)[1..] == x && ([d] + y)[1..] == y;
  }

  lemma {:induction false} TextsRead(l: seq<string>, x: string, m: seq<string>, y: string)
    requires WriteTexts(l, x) == WriteTexts(m, y)
    ensures l == m && x == y
  {
    hide WriteText;
    var a := if l == [] then x else WriteText(l[0], WriteTexts(l[1..], x));
    var b := if m == [] then y else WriteText(m[0], WriteTexts(m[1..], y));
    TailsRead(if l == [] then 'n' else 'c', a, if m == [] then 'n' else 'c', b);
    if l != [] {
      TextRead(l[0], WriteTexts(l[1..], x), m[0], WriteTexts(m[1..], y));
      TextsRead(l[1..], x, m[1..], y);
      assert l == [l[0]] + l[1..] && m == [m[0]] + m[1..];
    }
  }

  function Head(l: seq<Option<string>>): char { if l == [] then 'n' else if l[0].None? then 'u' else 'c' }

  lemma {:induction false} OptionsRead(l: seq<Option<string>>, x: string, m: seq<Option<string>>, y: string)
    requires WriteOptions(l, x) == WriteOptions(m, y)
    ensures l == m && x == y
  {
    hide WriteText;
    var a := if l == [] then x else if l[0].None? then WriteOptions(l[1..], x) else WriteText(l[0].value, WriteOptions(l[1..], x));
    var b := if m == [] then y else if m[0].None? then WriteOptions(m[1..], y) else WriteText(m[0].value, WriteOptions(m[1..], y));
    TailsRead(Head(l), a, Head(m), b);
    if l != [] {
      if l[0].Some? { TextRead(l[0].value, WriteOptions(l[1..], x), m[0].value, WriteOptions(m[1..], y)); }
      OptionsRead(l[1..], x, m[1..], y);
      assert l == [l[0]] + l[1..] && m == [m[0]] + m[1..];
    }
  }

  lemma FlagRead(b: bool, x: string, c: bool, y: string)
    requires WriteFlag(b, x) == WriteFlag(c, y)
    ensures b == c && x == y
  {
    TailsRead(if b then 't' else 'f', x, if c then 't' else 'f', y);
  }

  /** Different routes have different texts. */
  lemma WriterExists()
    ensures Injective(WriteRoute)
  {
    hide WriteTexts, WriteOptions, WriteFlag;
    forall r, q | WriteRoute(r) == WriteRoute(q) ensures r == q {
      var r5, q5 := WriteFlag(r.dynamic, ""), WriteFlag(q.dynamic, "");
      var r4, q4 := WriteOptions(r.upstreams, r5), WriteOptions(q.upstreams, q5);
      var r3, q3 := WriteTexts(r.paths, r4), WriteTexts(q.paths, q4);
      var r2, q2 := WriteFlag(r.hostUnresolved, r3), WriteFlag(q.hostUnresolved, q3);
      var r1, q1 := WriteFlag(r.hostless, r2), WriteFlag(q.hostless, q2);
      TextsRead(r.hosts, r1, q.hosts, q1);
      FlagRead(r.hostless, r2, q.hostless, q2);
      FlagRead(r.hostUnresolved, r3, q.hostUnresolved, q3);
      TextsRead(r.paths, r4, q.paths, q4);
      OptionsRead(r.upstreams, r5, q.upstreams, q5);
      FlagRead(r.dynamic, "", q.dynamic, "");
    }
  }
}

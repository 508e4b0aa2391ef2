/** Local server identities: one random identifier per normalised connection, kept in one index file. */
module Identities {
  import opened Collections
  import opened Snapshots
  import opened Texts

  const MAX_SERVER_IDENTITIES := 1_000

  datatype SshTarget = SshTarget(host: string, port: nat, username: string, privateKeyPath: string)

  /** `server-identities.json`; `BadFile` stands for every file that does not parse as an index of this version. */
  datatype IdentityFile = NoFile | BadFile | IdentityFile(entries: map<string, string>)

  datatype IdentityError = InvalidIndex | LimitExceeded

  // ----- connection keys -----

  /** The hashed text; the hash itself is taken to be injective. */
  function KeyText(host: string, port: nat, username: string): string {
    host + "\0" + Decimal(port) + "\0" + username
  }

  function ConnectionKey(t: SshTarget): string { KeyText(Lower(Trim(t.host)), t.port, Trim(t.username)) }

  /** The text of a port and a user name, after the first separator of a key. */
  function Tail(port: nat, username: string): string { Decimal(port) + "\0" + username }

  /** The host of the second connection reads on into the port and user name of the first. */
  ghost predicate Nested(h: string, p: nat, u: string, g: string, q: nat, v: string) {
    || (g == h + "\0" + Decimal(p) && u == Tail(q, v))
    || exists z :: NestedBy(h, p, u, g, q, v, z)
  }

  predicate NestedBy(h: string, p: nat, u: string, g: string, q: nat, v: string, z: string) {
    g == h + "\0" + Decimal(p) + "\0" + z && u == z + "\0" + Tail(q, v)
  }

  lemma NoSeparatorInPort(p: nat)
    ensures '\0' !in Decimal(p)
  {
  }

  lemma SeparatorInside(a: string, b: string)
    ensures '\0' in a + "\0" + b
  {
    assert (a + "\0" + b)[|a|] == '\0';
  }

  lemma SameTails(p: nat, u: string, q: nat, v: string)
    requires Tail(p, u) == Tail(q, v)
    ensures p == q && u == v
  {
    assert Tail(p, u) == Decimal(p) + ['\0'] + u && Tail(q, v) == Decimal(q) + ['\0'] + v;
    NumberedTexts('\0', p, u, q, v);
  }

  /** A longer host of the same key starts with the shorter one and a separator. */
  lemma LongerHost(h: string, x: string, g: string, y: string) returns (z: string)
    requires h + "\0" + x == g + "\0" + y && |h| < |g|
    ensures g == h + "\0" + z && x == z + "\0" + y
  {
    var s := h + "\0" + x;
    z := g[|h| + 1..];
    assert s[..|g|] == g && s[..|h|] == h && s[|h|] == '\0';
    assert g == h + "\0" + z;
    assert s == h + "\0" + (z + "\0" + y);
    assert s[|h| + 1..] == x && (h + "\0" + (z + "\0" + y))[|h| + 1..] == z + "\0" + y;
  }

  lemma SameHost(h: string, x: string, g: string, y: string)
    requires h + "\0" + x == g + "\0" + y && |h| == |g|
    ensures h == g && x == y
  {
    var s := h + "\0" + x;
    assert s[..|h|] == h && s[..|g|] == g;
    assert s[|h| + 1..] == x && s[|g| + 1..] == y;
  }

  /** A tail that reads as text, separator and more starts with its port. */
  lemma PortFirst(p: nat, u: string, z: string, y: string) returns (w: string)
    requires Tail(p, u) == z + "\0" + y
    ensures (z == Decimal(p) && u == y) || (z == Decimal(p) + "\0" + w && u == w + "\0" + y)
  {
    var d := Decimal(p);
    NoSeparatorInPort(p);
    w := "";
    if |z| == |d| {
      SameHost(d, u, z, y);
    } else if |z| < |d| {
      var t := LongerHost(z, y, d, u);
      SeparatorInside(z, t);
    } else {
      w := LongerHost(d, u, z, y);
    }
  }

  lemma LongerNests(h: string, p: nat, u: string, g: string, q: nat, v: string)
    requires KeyText(h, p, u) == KeyText(g, q, v) && |h| < |g|
    ensures Nested(h, p, u, g, q, v)
  {
    KeySplit(h, p, u);
    KeySplit(g, q, v);
    var z := LongerHost(h, Tail(p, u), g, Tail(q, v));
    var w := PortFirst(p, u, z, Tail(q, v));
    if z != Decimal(p) {
      assert h + "\0" + (Decimal(p) + "\0" + w) == h + "\0" + Decimal(p) + "\0" + w;
      assert NestedBy(h, p, u, g, q, v, w);
    }
  }

  lemma KeySplit(h: string, p: nat, u: string)
    ensures KeyText(h, p, u) == h + "\0" + Tail(p, u)
  {
  }

  lemma NestedShares(h: string, p: nat, u: string, g: string, q: nat, v: string)
    requires Nested(h, p, u, g, q, v)
    ensures KeyText(h, p, u) == KeyText(g, q, v)
  {
    KeySplit(g, q, v);
    if z :| NestedBy(h, p, u, g, q, v, z) {
      assert h + "\0" + Decimal(p) + "\0" + (z + "\0" + Tail(q, v)) == h + "\0" + Decimal(p) + "\0" + z + "\0" + Tail(q, v);
    }
  }

  /** Two connections share a key exactly when they agree or the host of one reads on into the other's user name. */
  lemma KeysShared(h: string, p: nat, u: string, g: string, q: nat, v: string)
    ensures KeyText(h, p, u) == KeyText(g, q, v) <==>
      (h == g && p == q && u == v) || Nested(h, p, u, g, q, v) || Nested(g, q, v, h, p, u)
  {
    hide Nested;
    if Nested(h, p, u, g, q, v) { NestedShares(h, p, u, g, q, v); }
    if Nested(g, q, v, h, p, u) { NestedShares(g, q, v, h, p, u); }
    if KeyText(h, p, u) == KeyText(g, q, v) {
      if |h| < |g| {
        LongerNests(h, p, u, g, q, v);
      } else if |g| < |h| {
        LongerNests(g, q, v, h, p, u);
      } else {
        KeySplit(h, p, u);
        KeySplit(g, q, v);
        SameHost(h, Tail(p, u), g, Tail(q, v));
        SameTails(p, u, q, v);
      }
    }
  }

  // ----- connections -----

  predicate SameConnection(s: SshTarget, t: SshTarget) {
    Lower(Trim(s.host)) == Lower(Trim(t.host)) && s.port == t.port && Trim(s.username) == Trim(t.username)
  }

  /** The host of the second connection, as normalised, holds the separator and reads on into the first. */
  ghost predicate Confused(s: SshTarget, t: SshTarget) {
    Nested(Lower(Trim(s.host)), s.port, Trim(s.username), Lower(Trim(t.host)), t.port, Trim(t.username))
  }

  /** Confusion takes a separator in a host and one in the other user name. */
  lemma ConfusedHoldNul(s: SshTarget, t: SshTarget)
    requires Confused(s, t)
    ensures '\0' in Lower(Trim(t.host)) && '\0' in Trim(s.username)
  {
    var h, u := Lower(Trim(s.host)), Trim(s.username);
    hide Lower, Trim, Decimal;
    assert (h + "\0")[|h|] == '\0';
    if z :| NestedBy(h, s.port, u, Lower(Trim(t.host)), t.port, Trim(t.username), z) {
      assert u[|z|] == '\0';
    } else {
      assert u[|Decimal(t.port)|] == '\0';
    }
  }

  lemma ConnectionsShare(s: SshTarget, t: SshTarget)
    ensures ConnectionKey(s) == ConnectionKey(t) <==> SameConnection(s, t) || Confused(s, t) || Confused(t, s)
  {
    hide Lower, Trim, Nested, KeyText;
    KeysShared(Lower(Trim(s.host)), s.port, Trim(s.username), Lower(Trim(t.host)), t.port, Trim(t.username));
  }

  /** Two different connections with one key. */
  lemma NulHostsCollide() returns (s: SshTarget, t: SshTarget)
    ensures ConnectionKey(s) == ConnectionKey(t) && !SameConnection(s, t)
  {
    s := SshTarget("a\01\0b", 2, "c", "");
    t := SshTarget("a", 1, "b\02\0c", "");
    Unchanged(s.host, t.username);
    Plain();
    assert NestedBy("a", 1, t.username, s.host, 2, "c", "b");
    hide Lower, Trim, Decimal, KeyText;
    assert Confused(t, s);
    ConnectionsShare(s, t);
  }

  lemma Plain()
    ensures Trim("c") == "c" && Trim("a") == "a" && Lower("a") == "a" && Decimal(1) == "1" && Decimal(2) == "2"
  {
  }

  lemma Unchanged(host: string, user: string)
    requires host == "a\01\0b" && user == "b\02\0c"
    ensures Lower(Trim(host)) == host && Trim(user) == user
  {
    assert host[1..] == "\01\0b" && host[1..][1..] == "1\0b" && host[1..][1..][1..] == "\0b" && host[1..][1..][1..][1..] == "b";
    assert Lower("b") == "b";
    assert Lower("\0b") == "\0b";
    assert Lower("1\0b") == "1\0b";
    assert Lower("\01\0b") == "\01\0b";
  }

  // ----- resolution -----

  function ReadIdentities(f: IdentityFile): Result<map<string, string>, IdentityError> {
    match f
    case NoFile => Success(map[])
    case BadFile => Failure(InvalidIndex)
    case IdentityFile(entries) =>
      if |entries| <= MAX_SERVER_IDENTITIES && forall k :: k in entries ==> IsUuid(entries[k])
      then Success(entries) else Failure(InvalidIndex)
  }

  /** `resolve`: the file afterwards and the answer; `drawn` is the identifier drawn if one is needed. */
  function Resolved(f: IdentityFile, key: string, drawn: string): (IdentityFile, Result<string, IdentityError>) {
    match ReadIdentities(f)
    case Failure(e) => (f, Failure(e))
    case Success(current) =>
      if key in current then (f, Success(current[key]))
      else if |current| >= MAX_SERVER_IDENTITIES then (f, Failure(LimitExceeded))
      else (IdentityFile(current[key := drawn]), Success(drawn))
  }

  class ServerIdentityStore {
    var file: IdentityFile

    constructor (file: IdentityFile)
      ensures this.file == file
    {
      this.file := file;
    }

    method Resolve(target: SshTarget, drawn: string) returns (r: Result<string, IdentityError>)
      modifies this
      ensures (file, r) == Resolved(old(file), ConnectionKey(target), drawn)
    {
      var key := ConnectionKey(target);
      match ReadIdentities(file)
      case Failure(e) => r := Failure(e);
      case Success(current) =>
        if key in current { return Success(current[key]); }
        if |current| >= MAX_SERVER_IDENTITIES { return Failure(LimitExceeded); }
        file := IdentityFile(current[key := drawn]);
        r := Success(drawn);
    }
  }

  // ----- runs of resolutions -----

  datatype Lookup = Lookup(target: SshTarget, drawn: string)

  function FileAfter(f: IdentityFile, run: seq<Lookup>): IdentityFile {
    if run == [] then f
    else
      var last := run[|run| - 1];
      Resolved(FileAfter(f, run[..|run| - 1]), ConnectionKey(last.target), last.drawn).0
  }

  function Answer(f: IdentityFile, run: seq<Lookup>, i: nat): Result<string, IdentityError>
    requires i < |run|
  {
    Resolved(FileAfter(f, run[..i]), ConnectionKey(run[i].target), run[i].drawn).1
  }

  function Known(f: IdentityFile): map<string, string> {
    if ReadIdentities(f).Success? then ReadIdentities(f).value else map[]
  }

  ghost predicate NoneShared(entries: map<string, string>) {
    forall k, l :: k in entries && l in entries && entries[k] == entries[l] ==> k == l
  }

  /** Every drawn identifier is a UUID that is new to the file and to the run. */
  ghost predicate FreshDraws(f: IdentityFile, run: seq<Lookup>) {
    && (forall i :: 0 <= i < |run| ==> IsUuid(run[i].drawn) && run[i].drawn !in Known(f).Values)
    && (forall i, j :: 0 <= i < j < |run| ==> run[i].drawn != run[j].drawn)
  }

  lemma FreshFront(f: IdentityFile, run: seq<Lookup>, n: nat)
    requires FreshDraws(f, run) && n <= |run|
    ensures FreshDraws(f, run[..n])
  {
  }

  /** One resolution keeps every known entry and adds at most the drawn identifier. */
  lemma ResolvedKeeps(f: IdentityFile, key: string, drawn: string)
    requires IsUuid(drawn)
    ensures var after := Known(Resolved(f, key, drawn).0);
      && (forall k :: k in Known(f) ==> k in after && after[k] == Known(f)[k])
      && (forall k :: k in after && k !in Known(f) ==> k == key && after[k] == drawn)
    ensures ReadIdentities(f).Success? <==> ReadIdentities(Resolved(f, key, drawn).0).Success?
    ensures var answer := Resolved(f, key, drawn).1;
      answer.Success? ==>
        var after := Known(Resolved(f, key, drawn).0);
        key in after && after[key] == answer.value
  {
    hide IsUuid;
  }

  lemma {:induction false} RunKeeps(f: IdentityFile, run: seq<Lookup>)
    requires NoneShared(Known(f)) && FreshDraws(f, run)
    ensures NoneShared(Known(FileAfter(f, run)))
    ensures ReadIdentities(f).Success? <==> ReadIdentities(FileAfter(f, run)).Success?
    ensures forall k :: k in Known(FileAfter(f, run)) ==>
      Known(FileAfter(f, run))[k] in Known(f).Values || exists i :: 0 <= i < |run| && Known(FileAfter(f, run))[k] == run[i].drawn
  {
    hide IsUuid, Resolved, ReadIdentities;
    if run != [] {
      var n := |run| - 1;
      FreshFront(f, run, n);
      RunKeeps(f, run[..n]);
      var before := FileAfter(f, run[..n]);
      ResolvedKeeps(before, ConnectionKey(run[n].target), run[n].drawn);
      forall k | k in Known(before) ensures Known(before)[k] != run[n].drawn {
        if Known(before)[k] !in Known(f).Values {
          var i :| 0 <= i < n && Known(before)[k] == run[..n][i].drawn;
        }
      }
    }
  }

  lemma {:induction false} EntriesPersist(f: IdentityFile, run: seq<Lookup>, n: nat, k: string)
    requires n <= |run| && FreshDraws(f, run)
    requires k in Known(FileAfter(f, run[..n]))
    ensures k in Known(FileAfter(f, run))
    ensures Known(FileAfter(f, run))[k] == Known(FileAfter(f, run[..n]))[k]
    decreases |run|
  {
    hide IsUuid, Resolved, ReadIdentities, Known, FileAfter, ConnectionKey;
    if n < |run| {
      var m := |run| - 1;
      FreshFront(f, run, m);
      assert run[..m][..n] == run[..n];
      EntriesPersist(f, run[..m], n, k);
      LastResolution(f, run);
    } else {
      assert run[..n] == run;
    }
  }

  lemma LastResolution(f: IdentityFile, run: seq<Lookup>)
    requires run != [] && IsUuid(run[|run| - 1].drawn)
    ensures var before, after := Known(FileAfter(f, run[..|run| - 1])), Known(FileAfter(f, run));
      forall k :: k in before ==> k in after && after[k] == before[k]
  {
    hide IsUuid, Resolved, ReadIdentities, Known;
    var last := run[|run| - 1];
    ResolvedKeeps(FileAfter(f, run[..|run| - 1]), ConnectionKey(last.target), last.drawn);
  }

  lemma AnswerRecorded(f: IdentityFile, run: seq<Lookup>, i: nat)
    requires FreshDraws(f, run) && i < |run| && Answer(f, run, i).Success?
    ensures var after := Known(FileAfter(f, run[..i + 1]));
      var key := ConnectionKey(run[i].target);
      key in after && after[key] == Answer(f, run, i).value
  {
    hide IsUuid, Resolved, ReadIdentities, Known;
    assert run[..i + 1][..i] == run[..i];
    ResolvedKeeps(FileAfter(f, run[..i]), ConnectionKey(run[i].target), run[i].drawn);
  }

  lemma ResolvedAgain(f: IdentityFile, key: string, drawn: string)
    requires key in Known(f)
    ensures Resolved(f, key, drawn).1 == Success(Known(f)[key])
  {
  }

  /**
    Server identifiers are stable and never shared: once a connection was given an identifier, the
    same connection gets it again, whatever happened since, and no other connection ever gets it.
   */
  lemma IdentitiesStable(f: IdentityFile, run: seq<Lookup>, i: nat, j: nat)
    requires NoneShared(Known(f)) && FreshDraws(f, run)
    requires i < j < |run| && Answer(f, run, i).Success?
    ensures ConnectionKey(run[i].target) == ConnectionKey(run[j].target) ==> Answer(f, run, j) == Answer(f, run, i)
    ensures ConnectionKey(run[i].target) != ConnectionKey(run[j].target) ==> Answer(f, run, j) != Answer(f, run, i)
  {
    hide IsUuid, Resolved, ReadIdentities, Known, ConnectionKey;
    var ki, kj := ConnectionKey(run[i].target), ConnectionKey(run[j].target);
    AnswerRecorded(f, run, i);
    FreshFront(f, run, j);
    assert run[..j][..i + 1] == run[..i + 1];
    EntriesPersist(f, run[..j], i + 1, ki);
    if ki == kj {
      ResolvedAgain(FileAfter(f, run[..j]), ki, run[j].drawn);
    } else if Answer(f, run, j).Success? {
      AnswerRecorded(f, run, j);
      FreshFront(f, run, j + 1);
      RunKeeps(f, run[..j + 1]);
      assert run[..j + 1][..j] == run[..j];
      EntriesPersist(f, run[..j + 1], j, ki);
    }
  }

  /**
    In terms of connections: whoever asks later gets the identifier of an earlier answer exactly when it is
    the same connection, or one that the key confuses with it.
   */
  lemma ConnectionsKeepIdentity(f: IdentityFile, run: seq<Lookup>, i: nat, j: nat)
    requires NoneShared(Known(f)) && FreshDraws(f, run)
    requires i < j < |run| && Answer(f, run, i).Success?
    ensures var s, t := run[i].target, run[j].target;
      Answer(f, run, j) == Answer(f, run, i) <==> SameConnection(s, t) || Confused(s, t) || Confused(t, s)
  {
    hide *;
    IdentitiesStable(f, run, i, j);
    ConnectionsShare(run[i].target, run[j].target);
  }
}

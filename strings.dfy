/**
 * String primitives that the Rust and Python code rely on: prefix and
 * substring tests, trimming (Rust `trim`/`trim_matches`, Python `strip`),
 * Python `str.split(sep)` and `sep.join`, and decimal rendering of integers
 * (Rust `{}` and Python `str()` of an integer).
 */
module Strings {

  predicate StartsWith(s: string, prefix: string) {
    |prefix| <= |s| && s[..|prefix|] == prefix
  }

  /** `sub` occurs in `s` at position `i`. */
  predicate OccursAt(s: string, sub: string, i: nat) {
    i + |sub| <= |s| && s[i..i + |sub|] == sub
  }

  /** Substring test (Rust `str::contains`, Python `in`). */
  predicate Contains(s: string, sub: string) {
    exists i: nat | i <= |s| :: OccursAt(s, sub, i)
  }

  // ---------------------------------------------------------------------------
  // Trimming

  /** The character sets the trimming functions drop. */
  datatype CharClass = RustWhitespace | PyWhitespace | DoubleQuote

  predicate InClass(cls: CharClass, c: char) {
    match cls
    case RustWhitespace => IsRustWhitespace(c)
    case PyWhitespace => IsPySpace(c)
    case DoubleQuote => c == '"'
  }

  /** Drops the longest prefix whose characters all belong to `cls`. */
  function TrimLeft(s: string, cls: CharClass): string
    decreases |s|
  {
    if s != [] && InClass(cls, s[0]) then TrimLeft(s[1..], cls) else s
  }

  /** Drops the longest suffix whose characters all belong to `cls`. */
  function TrimRight(s: string, cls: CharClass): string
    decreases |s|
  {
    if s != [] && InClass(cls, s[|s| - 1]) then TrimRight(s[..|s| - 1], cls) else s
  }

  /** Drops leading and trailing characters that belong to `cls`. */
  function TrimWith(s: string, cls: CharClass): string {
    TrimRight(TrimLeft(s, cls), cls)
  }

  /** `TrimLeft` keeps a suffix, drops only class characters, and stops at one outside the class. */
  lemma {:induction false} TrimLeftFacts(s: string, cls: CharClass)
    ensures var r := TrimLeft(s, cls);
      && |r| <= |s| && r == s[|s| - |r|..]
      && (forall k :: 0 <= k < |s| - |r| ==> InClass(cls, s[k]))
      && (r != [] ==> !InClass(cls, r[0]))
    decreases |s|
  {
    if s != [] && InClass(cls, s[0]) {
      TrimLeftFacts(s[1..], cls);
      var r := TrimLeft(s[1..], cls);
      assert TrimLeft(s, cls) == r;
      forall k | 0 <= k < |s| - |r| ensures InClass(cls, s[k]) {
        if k > 0 {
          assert s[k] == s[1..][k - 1];
        }
      }
    }
  }

  /** `TrimRight` keeps a prefix, drops only class characters, and stops at one outside the class. */
  lemma {:induction false} TrimRightFacts(s: string, cls: CharClass)
    ensures var r := TrimRight(s, cls);
      && |r| <= |s| && r == s[..|r|]
      && (forall k :: |r| <= k < |s| ==> InClass(cls, s[k]))
      && (r != [] ==> !InClass(cls, r[|r| - 1]))
    decreases |s|
  {
    if s != [] && InClass(cls, s[|s| - 1]) {
      var s' := s[..|s| - 1];
      TrimRightFacts(s', cls);
      var r := TrimRight(s', cls);
      assert TrimRight(s, cls) == r;
      assert r == s[..|r|];
      forall k | |r| <= k < |s| ensures InClass(cls, s[k]) {
        if k < |s| - 1 {
          assert s[k] == s'[k];
        }
      }
    }
  }

  /**
   * What trimming promises: the result is no longer than the input and is
   * empty exactly when every character belongs to the class, otherwise it
   * neither starts nor ends with one, and a string that already does
   * neither is returned unchanged.
   */
  lemma TrimWithFacts(s: string, cls: CharClass)
    ensures var r := TrimWith(s, cls);
      && |r| <= |s|
      && (r == [] <==> forall k :: 0 <= k < |s| ==> InClass(cls, s[k]))
      && (r != [] ==> !InClass(cls, r[0]) && !InClass(cls, r[|r| - 1]))
      && (s != [] && !InClass(cls, s[0]) && !InClass(cls, s[|s| - 1]) ==> r == s)
  {
    var l := TrimLeft(s, cls);
    var r := TrimRight(l, cls);
    TrimLeftFacts(s, cls);
    TrimRightFacts(l, cls);
    TrimEmptyIffAllDropped(s, cls);
    if r != [] {
      assert r[0] == l[0];
    }
    if s != [] && !InClass(cls, s[0]) {
      assert l == s;
    }
  }

  lemma TrimEmptyIffAllDropped(s: string, cls: CharClass)
    ensures TrimRight(TrimLeft(s, cls), cls) == [] <==> forall k :: 0 <= k < |s| ==> InClass(cls, s[k])
  {
    var l := TrimLeft(s, cls);
    TrimLeftFacts(s, cls);
    TrimRightFacts(l, cls);
    var a := |s| - |l|;
    if l == [] {
      assert a == |s|;
    } else {
      assert !InClass(cls, l[0]);
      assert l[0] == s[a];
      assert TrimRight(l, cls) != [];
    }
  }

  lemma {:induction false} TrimWithIdempotent(s: string, cls: CharClass)
    ensures TrimWith(TrimWith(s, cls), cls) == TrimWith(s, cls)
  {
    var t := TrimWith(s, cls);
    TrimWithFacts(s, cls);
    TrimWithFacts(t, cls);
  }

  /** Characters Rust's `char::is_whitespace` accepts, restricted to Latin-1. */
  predicate IsRustWhitespace(c: char) {
    c == ' ' || c == '\t' || c == '\n' || c == '\r'
    || c as int == 0x0B || c as int == 0x0C || c as int == 0x85 || c as int == 0xA0
  }

  /** Characters Python's `str.isspace` accepts, restricted to Latin-1. */
  predicate IsPySpace(c: char) {
    c == ' ' || c == '\t' || c == '\n' || c == '\r'
    || (0x0B <= c as int <= 0x0C) || (0x1C <= c as int <= 0x1F)
    || c as int == 0x85 || c as int == 0xA0
  }

  /** Rust `str::trim`. */
  function RustTrim(s: string): string {
    TrimWith(s, RustWhitespace)
  }

  /** Python `str.strip()` without arguments. */
  function PyStrip(s: string): string {
    TrimWith(s, PyWhitespace)
  }

  /** Rust `str::trim_matches('"')`: removes EVERY leading and trailing double quote. */
  function TrimQuotes(s: string): string {
    TrimWith(s, DoubleQuote)
  }

  /** Trimming on the left drops exactly a leading run of droppable characters. */
  lemma {:induction false} TrimLeftOf(p: string, t: string, cls: CharClass)
    requires forall k :: 0 <= k < |p| ==> InClass(cls, p[k])
    requires t != [] ==> !InClass(cls, t[0])
    ensures TrimLeft(p + t, cls) == t
    decreases |p|
  {
    if p != [] {
      assert (p + t)[1..] == p[1..] + t;
      TrimLeftOf(p[1..], t, cls);
    } else {
      assert p + t == t;
    }
  }

  /** Trimming on the right drops exactly a trailing run of droppable characters. */
  lemma {:induction false} TrimRightOf(t: string, p: string, cls: CharClass)
    requires forall k :: 0 <= k < |p| ==> InClass(cls, p[k])
    requires t != [] ==> !InClass(cls, t[|t| - 1])
    ensures TrimRight(t + p, cls) == t
    decreases |p|
  {
    if p != [] {
      assert (t + p)[..|t + p| - 1] == t + p[..|p| - 1];
      TrimRightOf(t, p[..|p| - 1], cls);
    } else {
      assert t + p == t;
    }
  }

  /** `TrimWith` removes a droppable prefix and suffix around a core that does not start or end with one. */
  lemma TrimWithOf(p: string, t: string, q: string, cls: CharClass)
    requires forall k :: 0 <= k < |p| ==> InClass(cls, p[k])
    requires forall k :: 0 <= k < |q| ==> InClass(cls, q[k])
    requires t != [] && !InClass(cls, t[0]) && !InClass(cls, t[|t| - 1])
    ensures TrimWith(p + t + q, cls) == t
  {
    assert TrimWith(p + t + q, cls) == TrimRight(TrimLeft(p + t + q, cls), cls);
    assert (t + q)[0] == t[0];
    TrimLeftOf(p, t + q, cls);
    assert p + t + q == p + (t + q);
    TrimRightOf(t, q, cls);
  }

  // ---------------------------------------------------------------------------
  // Splitting and joining

  /** Python `sep.join(parts)`. */
  function Join(sep: string, parts: seq<string>): string
    decreases |parts|
  {
    if |parts| == 0 then ""
    else if |parts| == 1 then parts[0]
    else parts[0] + sep + Join(sep, parts[1..])
  }

  function FirstIndexOf(s: string, c: char): (i: nat)
    requires c in s
    ensures i < |s| && s[i] == c && c !in s[..i]
  {
    if s[0] == c then 0 else 1 + FirstIndexOf(s[1..], c)
  }

  /** Python `s.split(sep)` for a one-character separator: empty pieces are kept. */
  function Split(s: string, sep: char): (parts: seq<string>)
    ensures |parts| >= 1
    ensures forall k :: 0 <= k < |parts| ==> sep !in parts[k]
    decreases |s|
  {
    if sep !in s then [s]
    else
      var i := FirstIndexOf(s, sep);
      [s[..i]] + Split(s[i + 1..], sep)
  }

  /** Splitting and joining on the same separator gives the string back. */
  lemma {:induction false} JoinSplit(s: string, sep: char)
    ensures Join([sep], Split(s, sep)) == s
    decreases |s|
  {
    if sep in s {
      var i := FirstIndexOf(s, sep);
      var rest := Split(s[i + 1..], sep);
      JoinSplit(s[i + 1..], sep);
      assert Split(s, sep) == [s[..i]] + rest;
      assert s == s[..i] + [sep] + s[i + 1..];
    }
  }

  /** No piece contains the separator. */
  predicate SeparatorFree(parts: seq<string>, sep: char) {
    forall k :: 0 <= k < |parts| ==> sep !in parts[k]
  }

  lemma SliceAround(a: string, c: char, b: string)
    ensures var s := a + [c] + b;
      s[|a|] == c && s[..|a|] == a && s[|a| + 1..] == b
  {
  }

  /** The first piece ends at the first separator. */
  lemma SplitAt(s: string, sep: char, i: nat)
    requires i < |s| && s[i] == sep && sep !in s[..i]
    ensures Split(s, sep) == [s[..i]] + Split(s[i + 1..], sep)
  {
    FirstIndexOfAt(s, sep, i);
  }

  /** Joining separator-free pieces and splitting again gives the pieces back. */
  lemma {:induction false} SplitJoin(parts: seq<string>, sep: char)
    requires |parts| >= 1
    requires SeparatorFree(parts, sep)
    ensures Split(Join([sep], parts), sep) == parts
    decreases |parts|
  {
    if |parts| == 1 {
      assert sep !in parts[0];
    } else {
      var first, rest := parts[0], parts[1..];
      assert sep !in first;
      assert SeparatorFree(rest, sep) by {
        forall k | 0 <= k < |rest|
          ensures sep !in rest[k]
        {
          assert rest[k] == parts[k + 1];
        }
      }
      SplitJoin(rest, sep);
      var tail := Join([sep], rest);
      var s := first + [sep] + tail;
      assert Join([sep], parts) == s;
      var i := |first|;
      SliceAround(first, sep, tail);
      SplitAt(s, sep, i);
      assert parts == [first] + rest;
    }
  }

  /** The first occurrence is the one with none before it. */
  lemma {:induction false} FirstIndexOfAt(s: string, c: char, i: nat)
    requires i < |s| && s[i] == c && c !in s[..i]
    ensures FirstIndexOf(s, c) == i
  {
    if i > 0 {
      assert s[0] == s[..i][0];
      assert s[1..][..i - 1] == s[1..i];
      FirstIndexOfAt(s[1..], c, i - 1);
    }
  }

  // ---------------------------------------------------------------------------
  // Decimal rendering of integers

  predicate IsDigit(c: char) { '0' <= c <= '9' }

  function DigitChar(d: nat): (c: char)
    requires d < 10
    ensures IsDigit(c) && (c as int) - ('0' as int) == d
  {
    ['0', '1', '2', '3', '4', '5', '6', '7', '8', '9'][d]
  }

  /** The value of a string of decimal digits. */
  function DigitsValue(s: string): nat
    requires forall k :: 0 <= k < |s| ==> IsDigit(s[k])
  {
    if s == [] then 0
    else
      assert IsDigit(s[|s| - 1]);
      DigitsValue(s[..|s| - 1]) * 10 + ((s[|s| - 1] as int) - ('0' as int))
  }

  /** Decimal rendering without leading zeros. */
  function NatToString(n: nat): (r: string)
    ensures |r| >= 1
    ensures forall k :: 0 <= k < |r| ==> IsDigit(r[k])
    ensures |r| > 1 ==> r[0] != '0'
  {
    if n < 10 then [DigitChar(n)] else NatToString(n / 10) + [DigitChar(n % 10)]
  }

  /** Reading the rendered digits back gives the number. */
  lemma {:induction false} NatToStringRoundTrip(n: nat)
    ensures DigitsValue(NatToString(n)) == n
  {
    var r := NatToString(n);
    if n >= 10 {
      NatToStringRoundTrip(n / 10);
      assert r[..|r| - 1] == NatToString(n / 10);
    } else {
      assert r[..|r| - 1] == [];
    }
  }

  /** Rust `{}` / Python `str()` of an integer. */
  function IntToString(i: int): (r: string)
    ensures |r| >= 1
    ensures (r[0] == '-') <==> i < 0
    ensures forall k :: 1 <= k < |r| ==> IsDigit(r[k])
  {
    if i < 0 then "-" + NatToString(-i) else NatToString(i)
  }

  /** ASCII lower-casing (Python `str.lower` on ASCII text). */
  function LowerAscii(s: string): (r: string)
    ensures |r| == |s|
    ensures forall k :: 0 <= k < |s| ==> r[k] == if 'A' <= s[k] <= 'Z' then (s[k] as int + 32) as char else s[k]
  {
    if s == [] then []
    else [if 'A' <= s[0] <= 'Z' then (s[0] as int + 32) as char else s[0]] + LowerAscii(s[1..])
  }
}

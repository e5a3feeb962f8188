/** Shared vocabulary: an optional value, character classes of the JavaScript
    string and regular-expression built-ins the site relies on, substring search,
    trimming, and an insertion-ordered set kept as a duplicate-free sequence. */
module Basics {

  datatype Option<T> = None | Some(value: T)

  /** `\d` in a JavaScript regular expression: an ASCII decimal digit. */
  predicate IsDigit(c: char) { '0' <= c <= '9' }

  /** `\w` in a JavaScript regular expression (without the `u` flag). */
  predicate IsWordChar(c: char) {
    ('a' <= c <= 'z') || ('A' <= c <= 'Z') || IsDigit(c) || c == '_'
  }

  /** ASCII case mapping; `toUpperCase` of a `\w` character. */
  function UpperAscii(c: char): (u: char)
    ensures IsWordChar(u) == IsWordChar(c)
    ensures u != '_' || c == '_'
  {
    if 'a' <= c <= 'z' then (c as int - 32) as char else c
  }

  function LowerAscii(c: char): char {
    if 'A' <= c <= 'Z' then (c as int + 32) as char else c
  }

  /** `String.prototype.toLowerCase`, restricted to the ASCII letters. */
  function Lowercase(s: string): (r: string)
    ensures |r| == |s|
    ensures forall i :: 0 <= i < |s| ==> r[i] == LowerAscii(s[i])
  {
    seq(|s|, i requires 0 <= i < |s| => LowerAscii(s[i]))
  }

  /** The characters `String.prototype.trim` removes: WhiteSpace (including
      every space separator) and LineTerminator of ECMAScript. */
  predicate IsJsWhitespace(c: char) {
    c == '\t' || c == '\n' || c == '\U{000B}' || c == '\U{000C}' || c == '\r' || c == ' '
    || c == '\U{00A0}' || c == '\U{1680}' || ('\U{2000}' <= c <= '\U{200A}')
    || c == '\U{2028}' || c == '\U{2029}' || c == '\U{202F}' || c == '\U{205F}'
    || c == '\U{3000}' || c == '\U{FEFF}'
  }

  function TrimStart(s: string): (r: string)
    ensures |r| <= |s| && r == s[|s| - |r|..]
    ensures r == [] || !IsJsWhitespace(r[0])
    ensures forall i :: 0 <= i < |s| - |r| ==> IsJsWhitespace(s[i])
  {
    if s != [] && IsJsWhitespace(s[0]) then TrimStart(s[1..]) else s
  }

  function TrimEnd(s: string): (r: string)
    ensures |r| <= |s| && r == s[..|r|]
    ensures r == [] || !IsJsWhitespace(r[|r| - 1])
    ensures forall i :: |r| <= i < |s| ==> IsJsWhitespace(s[i])
  {
    if s != [] && IsJsWhitespace(s[|s| - 1]) then TrimEnd(s[..|s| - 1]) else s
  }

  /** `String.prototype.trim`: the longest infix with no surrounding whitespace. */
  function Trim(s: string): (r: string)
    ensures r == [] || (!IsJsWhitespace(r[0]) && !IsJsWhitespace(r[|r| - 1]))
    ensures exists k: nat :: OccursAt(s, r, k)
    ensures exists k: nat :: OccursAt(s, r, k) && TrimmedAround(s, k, k + |r|)
  {
    var a := TrimStart(s);
    var r := TrimEnd(a);
    assert OccursAt(s, r, |s| - |a|);
    assert TrimmedAround(s, |s| - |a|, |s| - |a| + |r|);
    r
  }

  /** Everything of `s` outside `[lo, hi)` is whitespace. */
  predicate TrimmedAround(s: string, lo: nat, hi: nat) {
    (forall i :: 0 <= i < lo && i < |s| ==> IsJsWhitespace(s[i]))
    && (forall i :: hi <= i < |s| ==> IsJsWhitespace(s[i]))
  }

  /** True when `t` occurs in `s` at position `i`. */
  predicate OccursAt(s: string, t: string, i: nat) {
    i + |t| <= |s| && s[i..i + |t|] == t
  }

  /** The first position at or after `k` where `t` occurs in `s`. */
  function FindFrom(s: string, t: string, k: nat): (r: Option<nat>)
    requires k <= |s|
    ensures r.Some? ==> k <= r.value && OccursAt(s, t, r.value)
    ensures r.Some? ==> forall j :: k <= j < r.value ==> !OccursAt(s, t, j)
    ensures r.None? ==> forall j :: k <= j <= |s| ==> !OccursAt(s, t, j)
    decreases |s| - k
  {
    if OccursAt(s, t, k) then Some(k)
    else if k == |s| then None
    else FindFrom(s, t, k + 1)
  }

  /** `String.prototype.indexOf`, answering None where JavaScript answers -1. */
  function IndexOf(s: string, t: string): (r: Option<nat>)
    ensures r.Some? ==> OccursAt(s, t, r.value) && forall j :: 0 <= j < r.value ==> !OccursAt(s, t, j)
    ensures r.None? ==> forall j :: 0 <= j <= |s| ==> !OccursAt(s, t, j)
  {
    FindFrom(s, t, 0)
  }

  /** An occurrence inside a prefix is an occurrence in the whole text. */
  lemma OccursInPrefix(s: string, n: nat, t: string, k: nat)
    requires n <= |s| && OccursAt(s[..n], t, k)
    ensures OccursAt(s, t, k) && k + |t| <= n
  {
    assert s[..n][k..k + |t|] == s[k..k + |t|];
  }

  /** `String.prototype.includes`. */
  predicate Contains(s: string, t: string) {
    IndexOf(s, t).Some?
  }

  predicate Distinct<T(==)>(s: seq<T>) {
    forall i, j :: 0 <= i < j < |s| ==> s[i] != s[j]
  }

  /** `Set.prototype.add` on a set represented by its insertion order. */
  function SetAdd<T(==)>(s: seq<T>, x: T): (r: seq<T>)
    ensures Distinct(s) ==> Distinct(r)
    ensures x in r
    ensures r == s || (x !in s && r == s + [x])
  {
    if x in s then s else s + [x]
  }

  function Min(a: int, b: int): int { if a <= b then a else b }

  /** `indexOf` on a sequence that holds `x`: where `x` first occurs. */
  function FirstIndex<T(==)>(s: seq<T>, x: T): (k: nat)
    requires x in s
    ensures k < |s| && s[k] == x && forall j :: 0 <= j < k ==> s[j] != x
  {
    if s[0] == x then 0
    else
      assert x in s[1..];
      1 + FirstIndex(s[1..], x)
  }

  /** Appending after `s` leaves the first occurrences inside `s` where they were. */
  lemma FirstIndexPrefix<T>(s: seq<T>, t: seq<T>, x: T)
    requires x in s
    ensures FirstIndex(s + t, x) == FirstIndex(s, x)
  {
    var k := FirstIndex(s, x);
    assert forall j :: 0 <= j <= k ==> (s + t)[j] == s[j];
  }
}

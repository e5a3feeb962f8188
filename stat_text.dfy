/** Text handling behind the statistics question: the label shown for a stats key,
    the number and suffix read from a stats value such as "50+", integer half-up
    rounding of the scaled numbers, and decimal rendering. */
module StatText {
  import opened Basics

  // ---------------------------------------------------------------- labels

  /** `key.replace(/_/g, ' ')`. */
  function Spaced(key: string): (r: string)
    ensures |r| == |key|
    ensures forall i :: 0 <= i < |r| ==> r[i] == (if key[i] == '_' then ' ' else key[i])
  {
    seq(|key|, i requires 0 <= i < |key| => if key[i] == '_' then ' ' else key[i])
  }

  /** A position where `\b\w` matches: a word character at the start or after a
      non-word character. */
  predicate WordStart(s: string, i: nat)
    requires i < |s|
  {
    IsWordChar(s[i]) && (i == 0 || !IsWordChar(s[i - 1]))
  }

  /** `formatStatLabel`: underscores become spaces, then the first character of
      every word is upper-cased. */
  function FormatStatLabel(key: string): (r: string)
    ensures |r| == |key|
    ensures forall i :: 0 <= i < |r| ==> r[i] != '_'
    ensures forall i :: 0 <= i < |r| ==>
      r[i] == key[i]
      || (key[i] == '_' && r[i] == ' ')
      || ('a' <= key[i] <= 'z' && r[i] == UpperAscii(key[i]) && WordStart(r, i))
    ensures forall i :: 0 <= i < |r| && 'a' <= key[i] <= 'z' && WordStart(r, i) ==> r[i] == UpperAscii(key[i])
    ensures forall i :: 0 <= i < |r| && !WordStart(r, i) ==> r[i] == Spaced(key)[i]
  {
    var spaced := Spaced(key);
    var r := seq(|spaced|, i requires 0 <= i < |spaced| => CapitalizeAt(spaced, i));
    forall i | 0 <= i < |r|
      ensures IsWordChar(r[i]) == IsWordChar(spaced[i])
      ensures WordStart(r, i) == WordStart(spaced, i)
    {
      assert r[i] == CapitalizeAt(spaced, i);
      if i > 0 {
        assert r[i - 1] == CapitalizeAt(spaced, i - 1);
      }
    }
    r
  }

  /** The character `.replace(/\b\w/g, toUpperCase)` leaves at position `i`. */
  function CapitalizeAt(s: string, i: nat): (c: char)
    requires i < |s|
    ensures IsWordChar(c) == IsWordChar(s[i])
    ensures c == (if WordStart(s, i) then UpperAscii(s[i]) else s[i])
  {
    if i == 0 || !IsWordChar(s[i - 1]) then UpperAscii(s[i]) else s[i]
  }

  /** Formatting a formatted label changes nothing. */
  lemma FormatStatLabelIdempotent(key: string)
    ensures FormatStatLabel(FormatStatLabel(key)) == FormatStatLabel(key)
  {
    var r := FormatStatLabel(key);
    var r2 := FormatStatLabel(r);
    assert Spaced(r) == r;
    forall i | 0 <= i < |r|
      ensures r2[i] == r[i]
    {
      if WordStart(r, i) {
        assert r2[i] == UpperAscii(r[i]);
        assert r[i] == UpperAscii(Spaced(key)[i]) by {
          assert IsWordChar(r[i]) == IsWordChar(Spaced(key)[i]);
          assert i == 0 || IsWordChar(r[i - 1]) == IsWordChar(Spaced(key)[i - 1]);
        }
      }
    }
  }

  // ---------------------------------------------------------------- numbers

  predicate AllDigits(s: string) { forall i :: 0 <= i < |s| ==> IsDigit(s[i]) }

  predicate HasDigit(s: string) { exists i :: 0 <= i < |s| && IsDigit(s[i]) }

  /** The longest run of digits at the start of `s`. */
  function LeadingDigits(s: string): (r: string)
    ensures |r| <= |s| && r == s[..|r|] && AllDigits(r)
    ensures |r| == |s| || !IsDigit(s[|r|])
  {
    if s != [] && IsDigit(s[0]) then [s[0]] + LeadingDigits(s[1..]) else []
  }

  /** `statValue.match(/(\d+)/)[0]`: the first run of digits, "" when there is none. */
  function DigitRun(s: string): (r: string)
    ensures AllDigits(r)
    ensures r == [] <==> !HasDigit(s)
    ensures r != [] ==> exists k: nat :: FirstRunAt(s, r, k)
  {
    if s == [] then []
    else if IsDigit(s[0]) then
      var r := LeadingDigits(s);
      assert FirstRunAt(s, r, 0);
      r
    else
      var r := DigitRun(s[1..]);
      assert HasDigit(s[1..]) ==> HasDigit(s);
      assert HasDigit(s) ==> HasDigit(s[1..]) by {
        if HasDigit(s) {
          var i :| 0 <= i < |s| && IsDigit(s[i]);
          assert i > 0 && IsDigit(s[1..][i - 1]);
        }
      }
      if r != [] then
        var k: nat :| FirstRunAt(s[1..], r, k);
        FirstRunShift(s, r, k);
        r
      else r
  }

  /** `r` is the run of digits starting at `k`, the first digit of `s`: no
      digit before it, and it is not followed by another digit. */
  predicate FirstRunAt(s: string, r: string, k: nat) {
    && OccursAt(s, r, k)
    && (forall j :: 0 <= j < k ==> !IsDigit(s[j]))
    && (k + |r| == |s| || !IsDigit(s[k + |r|]))
  }

  lemma FirstRunShift(s: string, r: string, k: nat)
    requires s != [] && !IsDigit(s[0]) && FirstRunAt(s[1..], r, k)
    ensures FirstRunAt(s, r, k + 1)
  {
    assert s[k + 1..k + 1 + |r|] == s[1..][k..k + |r|];
    forall j | 0 <= j < k + 1
      ensures !IsDigit(s[j])
    {
      if j > 0 {
        assert s[j] == s[1..][j - 1];
      }
    }
    if k + 1 + |r| < |s| {
      assert s[k + 1 + |r|] == s[1..][k + |r|];
    }
  }

  /** `statValue.match(/[^\d]+$/)`: the trailing run of non-digits, "" when the
      value ends in a digit or is empty. */
  function TrailingSuffix(s: string): (r: string)
    ensures |r| <= |s| && r == s[|s| - |r|..]
    ensures forall i :: 0 <= i < |r| ==> !IsDigit(r[i])
    ensures |r| == |s| || IsDigit(s[|s| - |r| - 1])
  {
    if s == [] || IsDigit(s[|s| - 1]) then []
    else TrailingSuffix(s[..|s| - 1]) + [s[|s| - 1]]
  }

  function DigitValue(c: char): nat
    requires IsDigit(c)
  {
    c as int - '0' as int
  }

  function DigitChar(d: nat): (c: char)
    requires d < 10
    ensures IsDigit(c) && DigitValue(c) == d
  {
    ('0' as int + d) as char
  }

  /** `parseInt(digits, 10)` of a non-empty run of digits. */
  function DecimalValue(digits: string): nat
    requires AllDigits(digits)
  {
    if digits == [] then 0
    else DecimalValue(digits[..|digits| - 1]) * 10 + DigitValue(digits[|digits| - 1])
  }

  /** `${n}`: the decimal rendering of a natural number. */
  function NatToString(n: nat): (r: string)
    ensures r != [] && AllDigits(r)
    ensures r[0] != '0' || r == "0"
  {
    if n < 10 then [DigitChar(n)]
    else NatToString(n / 10) + [DigitChar(n % 10)]
  }

  /** Rendering then parsing gives the number back. */
  lemma {:induction false} NatToStringRoundTrip(n: nat)
    ensures DecimalValue(NatToString(n)) == n
  {
    if n >= 10 {
      NatToStringRoundTrip(n / 10);
      var s := NatToString(n);
      assert s[..|s| - 1] == NatToString(n / 10);
    }
  }

  /** The number a stats value carries, if it has any digit. */
  function StatNumber(value: string): (r: Option<nat>)
    ensures r.Some? <==> HasDigit(value)
    ensures r.Some? ==> r.value == DecimalValue(DigitRun(value))
  {
    var run := DigitRun(value);
    if run == [] then None else Some(DecimalValue(run))
  }

  // ---------------------------------------------------------------- rounding

  /** `Math.round(n * x)` for x = 0.6, 0.85, 1.2 and 1.4 and a non-negative n,
      in integers: `Math.round` rounds halves up, so the result is the floor of
      n * x + 1/2. */
  function Round60(n: nat): (r: nat)
    ensures -5 < 10 * r - 6 * n <= 5
  {
    (6 * n + 5) / 10
  }

  function Round85(n: nat): (r: nat)
    ensures -10 < 20 * r - 17 * n <= 10
  {
    (17 * n + 10) / 20
  }

  function Round120(n: nat): (r: nat)
    ensures -5 < 10 * r - 12 * n <= 5
  {
    (12 * n + 5) / 10
  }

  function Round140(n: nat): (r: nat)
    ensures -5 < 10 * r - 14 * n <= 5
  {
    (14 * n + 5) / 10
  }

  /** The four numeric variations, in the order they are tried: the two smaller
      ones are raised to at least 1. */
  function Variations(n: nat): (r: seq<nat>)
    ensures |r| == 4
    ensures r[0] == (if Round60(n) < 1 then 1 else Round60(n))
    ensures r[1] == (if Round85(n) < 1 then 1 else Round85(n))
    ensures r[2] == Round120(n) && r[3] == Round140(n)
    ensures r[0] >= 1 && r[1] >= 1
  {
    var a := Round60(n);
    var b := Round85(n);
    [if a < 1 then 1 else a, if b < 1 then 1 else b, Round120(n), Round140(n)]
  }

  /** Each variation rendered and followed by the value's trailing suffix; no
      candidates when the value holds no digit. */
  function Candidates(value: string): (r: seq<string>)
    ensures |r| == 0 || |r| == 4
    ensures |r| == 4 <==> HasDigit(value)
    ensures forall i :: 0 <= i < |r| ==> r[i] == NatToString(Variations(StatNumber(value).value)[i]) + TrailingSuffix(value)
  {
    match StatNumber(value)
    case None => []
    case Some(n) =>
      var v := Variations(n);
      var suffix := TrailingSuffix(value);
      seq(4, i requires 0 <= i < 4 => NatToString(v[i]) + suffix)
  }
}

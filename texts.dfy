/** The few Python `str` operations the engine relies on: substring search, `replace(p, '')`,
  * `strip()`, `lower()` on ASCII, `str(int)`, the `:.2f` format and list repr of strings. */
module Texts {
  import opened Wrappers

  /** `p` is a prefix of `s` (Python's `s.startswith(p)`). */
  predicate StartsWith(s: string, p: string) {
    |p| <= |s| && s[..|p|] == p
  }

  /** `sub` occurs in `s` starting at index `i`. */
  predicate OccursAt(s: string, sub: string, i: int) {
    0 <= i <= |s| - |sub| && s[i..i + |sub|] == sub
  }

  /** Python's `sub in s`. */
  predicate Contains(s: string, sub: string) {
    exists i | 0 <= i <= |s| - |sub| :: OccursAt(s, sub, i)
  }

  /** Python's `s.replace(p, '')`: one left-to-right pass deleting non-overlapping occurrences.
    * An empty pattern leaves the string as it is. */
  function RemoveAll(s: string, p: string): (r: string)
    ensures |r| <= |s|
    decreases |s|
  {
    if |p| == 0 || |s| < |p| then s
    else if s[..|p|] == p then RemoveAll(s[|p|..], p)
    else [s[0]] + RemoveAll(s[1..], p)
  }

  lemma ContainsShift(s: string, p: string)
    requires 0 < |s|
    ensures Contains(s[1..], p) ==> Contains(s, p)
  {
    if Contains(s[1..], p) {
      var i :| 0 <= i <= |s| - 1 - |p| && OccursAt(s[1..], p, i);
      assert s[i + 1..i + 1 + |p|] == s[1..][i..i + |p|];
      assert OccursAt(s, p, i + 1);
    }
  }

  /** Deleting a pattern that does not occur changes nothing. */
  lemma {:induction false} RemoveAllAbsent(s: string, p: string)
    requires !Contains(s, p)
    ensures RemoveAll(s, p) == s
    decreases |s|
  {
    if |p| == 0 || |s| < |p| {
    } else {
      assert s[0..0 + |p|] == s[..|p|];
      assert !OccursAt(s, p, 0);
      ContainsShift(s, p);
      RemoveAllAbsent(s[1..], p);
      assert [s[0]] + s[1..] == s;
    }
  }

  /** Each occurrence found at the front is deleted, so a string holding the pattern gets shorter. */
  lemma {:induction false} RemoveAllShrinks(s: string, p: string)
    requires |p| > 0 && Contains(s, p)
    ensures |RemoveAll(s, p)| < |s|
    decreases |s|
  {
    var i :| 0 <= i <= |s| - |p| && OccursAt(s, p, i);
    if s[..|p|] == p {
    } else {
      assert i > 0;
      assert s[1..][i - 1..i - 1 + |p|] == s[i..i + |p|];
      assert OccursAt(s[1..], p, i - 1);
      RemoveAllShrinks(s[1..], p);
    }
  }

  /** Python's `str.isspace()` for one character. */
  predicate IsSpace(c: char) {
    var n := c as int;
    (9 <= n <= 13) || (28 <= n <= 32) || n == 0x85 || n == 0xA0 || n == 0x1680
    || (0x2000 <= n <= 0x200A) || n == 0x2028 || n == 0x2029 || n == 0x202F || n == 0x205F
    || n == 0x3000
  }

  /** The number of whitespace characters at the start of `s`. */
  function LeadingSpaces(s: string): (n: nat)
    ensures n <= |s| && (n < |s| ==> !IsSpace(s[n]))
    ensures forall i :: 0 <= i < n ==> IsSpace(s[i])
  {
    if |s| > 0 && IsSpace(s[0]) then 1 + LeadingSpaces(s[1..]) else 0
  }

  /** The length of `s` without the whitespace at its end. */
  function TrailingStart(s: string): (n: nat)
    ensures n <= |s| && (n > 0 ==> !IsSpace(s[n - 1]))
    ensures forall i :: n <= i < |s| ==> IsSpace(s[i])
  {
    if |s| > 0 && IsSpace(s[|s| - 1]) then TrailingStart(s[..|s| - 1]) else |s|
  }

  function StripLeft(s: string): (r: string)
    ensures |r| <= |s| && r == s[|s| - |r|..]
    ensures |r| > 0 ==> !IsSpace(r[0])
    ensures forall i :: 0 <= i < |s| - |r| ==> IsSpace(s[i])
  {
    s[LeadingSpaces(s)..]
  }

  function StripRight(s: string): (r: string)
    ensures |r| <= |s| && r == s[..|r|]
    ensures |r| > 0 ==> !IsSpace(r[|r| - 1])
    ensures forall i :: |r| <= i < |s| ==> IsSpace(s[i])
  {
    s[..TrailingStart(s)]
  }

  /** Python's `s.strip()`. */
  function Strip(s: string): string {
    StripRight(StripLeft(s))
  }

  /** `strip()` returns the infix of `s` left after removing the whitespace at both ends:
    * no whitespace remains at either end and everything removed was whitespace. */
  lemma {:induction false} StripSpec(s: string)
    ensures var r := Strip(s); var a := |s| - |StripLeft(s)|;
      0 <= a <= |s| - |r| && r == s[a..a + |r|]
      && (forall i :: 0 <= i < a ==> IsSpace(s[i]))
      && (forall i :: a + |r| <= i < |s| ==> IsSpace(s[i]))
      && (|r| > 0 ==> !IsSpace(r[0]) && !IsSpace(r[|r| - 1]))
  {
    var l := StripLeft(s);
    var r := StripRight(l);
    var a := |s| - |l|;
    assert Strip(s) == r;
    StripTail(s, a, l, r);
    assert forall i :: 0 <= i < a ==> IsSpace(s[i]);
    assert |r| > 0 ==> r[0] == l[0];
  }

  /** What `StripRight` removes from the tail `l` of `s` sits at the end of `s`. */
  lemma {:induction false} StripTail(s: string, a: nat, l: string, r: string)
    requires a <= |s| && l == s[a..] && r == StripRight(l)
    ensures a + |r| <= |s| && r == s[a..a + |r|]
    ensures forall i :: a + |r| <= i < |s| ==> IsSpace(s[i])
    ensures |r| > 0 ==> r[0] == s[a]
  {
    assert r == s[a..][..|r|];
    assert s[a..][..|r|] == s[a..a + |r|];
    forall i | a + |r| <= i < |s|
      ensures IsSpace(s[i])
    {
      assert s[i] == l[i - a];
    }
  }

  /** `strip()` is idempotent. */
  lemma StripIdempotent(s: string)
    ensures Strip(Strip(s)) == Strip(s)
  {
    var r := Strip(s);
    StripSpec(s);
    if |r| > 0 {
      assert StripLeft(r) == r;
      assert StripRight(r) == r;
    }
  }

  /** ASCII-only `str.lower()`. */
  function LowerAscii(s: string): (r: string)
    ensures |r| == |s|
    ensures forall i :: 0 <= i < |s| ==> ('A' <= s[i] <= 'Z' <==> r[i] != s[i])
  {
    if |s| == 0 then []
    else
      var c := s[0];
      [if 'A' <= c <= 'Z' then (c as int + 32) as char else c] + LowerAscii(s[1..])
  }

  function DigitChar(d: nat): char
    requires d < 10
  {
    ('0' as int + d) as char
  }

  predicate IsDigit(c: char) {
    '0' <= c <= '9'
  }

  /** Python's `str(n)` for a non-negative integer. */
  function NatToString(n: nat): (r: string)
    ensures |r| > 0 && forall i :: 0 <= i < |r| ==> IsDigit(r[i])
  {
    if n < 10 then [DigitChar(n)] else NatToString(n / 10) + [DigitChar(n % 10)]
  }

  function DigitValue(c: char): nat
    requires IsDigit(c)
  {
    c as int - '0' as int
  }

  /** Reads a string of decimal digits back as a number. */
  function ParseNat(s: string): nat
    requires forall i :: 0 <= i < |s| ==> IsDigit(s[i])
  {
    if |s| == 0 then 0 else ParseNat(s[..|s| - 1]) * 10 + DigitValue(s[|s| - 1])
  }

  /** `str(n)` round-trips through decimal parsing. */
  lemma {:induction false} NatToStringRoundTrip(n: nat)
    ensures ParseNat(NatToString(n)) == n
  {
    if n >= 10 {
      var s := NatToString(n);
      assert s[..|s| - 1] == NatToString(n / 10);
      NatToStringRoundTrip(n / 10);
    }
  }

  /** Round half to even, as Python's formatting does, for a non-negative real. */
  function RoundHalfEven(x: real): (n: int)
    requires x >= 0.0
    ensures n >= 0 && -0.5 <= n as real - x <= 0.5
  {
    var f := x.Floor;
    var frac := x - f as real;
    if frac > 0.5 then f + 1
    else if frac < 0.5 then f
    else if f % 2 == 0 then f else f + 1
  }

  /** Two decimal digits of `n % 100`. */
  function Cents(n: nat): string {
    var m := n % 100;
    [DigitChar(m / 10), DigitChar(m % 10)]
  }

  /** `f"{x:.2f}"`: the sign of `x` (kept when the rounded value is 0), the integral part, a point,
    * and two rounded decimals. */
  function Fixed2(x: real): string {
    var n: nat := RoundHalfEven(if x < 0.0 then -x * 100.0 else x * 100.0);
    (if x < 0.0 then "-" else "") + Hundredths(n)
  }

  /** `n` hundredths written with two decimals. */
  function Hundredths(n: nat): string {
    NatToString(n / 100) + "." + Cents(n)
  }

  /** The value a `:.2f` rendering denotes. */
  function Fixed2Value(x: real): (v: real) {
    var n := RoundHalfEven(if x < 0.0 then -x * 100.0 else x * 100.0);
    if x < 0.0 then -(n as real / 100.0) else n as real / 100.0
  }

  /** Reads back an unsigned `:.2f` rendering: integral digits, a point, two decimals. */
  function ParseUnsigned(body: string): Option<real> {
    if |body| < 4 || body[|body| - 3] != '.' then None
    else
      var whole := body[..|body| - 3];
      var cents := body[|body| - 2..];
      if (forall i :: 0 <= i < |whole| ==> IsDigit(whole[i])) && IsDigit(cents[0]) && IsDigit(cents[1]) then
        Some((ParseNat(whole) * 100 + ParseNat(cents)) as real / 100.0)
      else None
  }

  /** Reads back what `Fixed2` wrote: an optional minus sign, then the unsigned rendering. */
  function ParseFixed2(s: string): Option<real> {
    if |s| > 0 && s[0] == '-' then
      match ParseUnsigned(s[1..])
      case Some(v) => Some(-v)
      case None => None
    else ParseUnsigned(s)
  }

  lemma CentsValue(n: nat)
    ensures ParseNat(Cents(n)) == n % 100
  {
    var m := n % 100;
    var c := Cents(n);
    assert c[..1] == [DigitChar(m / 10)];
    assert c[..1][..0] == [];
    assert ParseNat(c[..1]) == m / 10;
    assert ParseNat(c) == m / 10 * 10 + m % 10;
  }

  lemma ParseUnsignedRendered(n: nat)
    ensures ParseUnsigned(NatToString(n / 100) + "." + Cents(n)) == Some(n as real / 100.0)
  {
    var whole := NatToString(n / 100);
    var body := whole + "." + Cents(n);
    assert |body| >= 4 && body[|body| - 3] == '.';
    assert body[..|body| - 3] == whole;
    assert body[|body| - 2..] == Cents(n);
    assert IsDigit(Cents(n)[0]) && IsDigit(Cents(n)[1]);
    NatToStringRoundTrip(n / 100);
    CentsValue(n);
    assert ParseNat(whole) * 100 + ParseNat(Cents(n)) == n;
  }

  /** The `:.2f` rendering parses back to the value it denotes, which is within half a cent of `x`. */
  lemma Fixed2RoundTrip(x: real)
    ensures ParseFixed2(Fixed2(x)) == Some(Fixed2Value(x))
    ensures -0.005 <= Fixed2Value(x) - x <= 0.005
  {
    var n: nat := RoundHalfEven(if x < 0.0 then -x * 100.0 else x * 100.0);
    var body := NatToString(n / 100) + "." + Cents(n);
    ParseUnsignedRendered(n);
    if x < 0.0 {
      assert Fixed2(x) == "-" + body;
      assert Fixed2(x)[1..] == body;
    } else {
      assert Fixed2(x) == body;
      assert body[0] == NatToString(n / 100)[0];
    }
  }

  // ---------------------------------------------------------------------------------------------
  // float() of a string

  /** The index of the first character of `s` in `cs`. */
  function IndexOfAny(s: string, cs: set<char>): (r: Option<nat>)
    ensures r.Some? ==> r.value < |s| && s[r.value] in cs && forall i :: 0 <= i < r.value ==> s[i] !in cs
    ensures r.None? ==> forall i :: 0 <= i < |s| ==> s[i] !in cs
  {
    if |s| == 0 then None
    else if s[0] in cs then Some(0)
    else match IndexOfAny(s[1..], cs)
      case None => None
      case Some(k) => Some(k + 1)
  }

  predicate AllDigits(s: string) {
    forall i :: 0 <= i < |s| ==> IsDigit(s[i])
  }

  function Pow10(n: nat): (p: nat)
    ensures p > 0
  {
    if n == 0 then 1 else 10 * Pow10(n - 1)
  }

  /** `m * 10**e`. */
  function Scale10(m: real, e: int): real {
    if e >= 0 then m * Pow10(e) as real else m / Pow10(-e) as real
  }

  /** Digits with at most one point and at least one digit: `12`, `12.5`, `.5`, `12.`. */
  function ParseMantissa(t: string): Option<real> {
    match IndexOfAny(t, {'.'})
    case None => if |t| > 0 && AllDigits(t) then Some(ParseNat(t) as real) else None
    case Some(k) =>
      var whole, frac := t[..k], t[k + 1..];
      if |whole| + |frac| > 0 && AllDigits(whole) && AllDigits(frac) then
        Some(ParseNat(whole) as real + ParseNat(frac) as real / Pow10(|frac|) as real)
      else None
  }

  /** An exponent: an optional sign and at least one digit. */
  function ParseExponent(t: string): Option<int> {
    if |t| > 1 && (t[0] == '+' || t[0] == '-') && AllDigits(t[1..]) then
      Some(if t[0] == '-' then -(ParseNat(t[1..]) as int) else ParseNat(t[1..]))
    else if |t| > 0 && AllDigits(t) then Some(ParseNat(t))
    else None
  }

  /** A mantissa, then optionally `e` or `E` and an exponent. */
  function ParseUnsignedFloat(t: string): Option<real> {
    match IndexOfAny(t, {'e', 'E'})
    case None => ParseMantissa(t)
    case Some(k) =>
      match (ParseMantissa(t[..k]), ParseExponent(t[k + 1..]))
      case (Some(m), Some(e)) => Some(Scale10(m, e))
      case _ => None
  }

  /** Python's `float(s)` on the decimal spellings: surrounding whitespace, an optional sign, and an
    * unsigned decimal with an optional exponent. None is the `ValueError`. */
  function ParseFloat(s: string): Option<real> {
    var t := Strip(s);
    if |t| > 0 && (t[0] == '+' || t[0] == '-') then
      match ParseUnsignedFloat(t[1..])
      case Some(v) => Some(if t[0] == '-' then -v else v)
      case None => None
    else ParseUnsignedFloat(t)
  }

  /** A string without whitespace at its ends is its own strip. */
  lemma StripUnchanged(s: string)
    requires |s| > 0 && !IsSpace(s[0]) && !IsSpace(s[|s| - 1])
    ensures Strip(s) == s
  {
  }

  /** A run of digits holds no point, no exponent marker and no sign. */
  lemma DigitsPlain(s: string)
    requires AllDigits(s)
    ensures IndexOfAny(s, {'.'}).None? && IndexOfAny(s, {'e', 'E'}).None?
    ensures |s| > 0 ==> !IsSpace(s[0]) && !IsSpace(s[|s| - 1]) && s[0] != '+' && s[0] != '-'
  {
  }

  /** The digits of `str(n)` read back as `n`. */
  lemma ParseUnsignedNat(n: nat)
    ensures var d := NatToString(n); ParseUnsignedFloat(d) == Some(n as real) && IsDigit(d[0]) && IsDigit(d[|d| - 1])
  {
    DigitsPlain(NatToString(n));
    NatToStringRoundTrip(n);
  }

  /** `str(n)` reads back as the float `n`, and with a minus sign as its negation. */
  lemma ParseFloatNat(n: nat)
    ensures ParseFloat(NatToString(n)) == Some(n as real)
    ensures ParseFloat("-" + NatToString(n)) == Some(-(n as real))
  {
    ParseUnsignedNat(n);
    ParseFloatSigned(NatToString(n), n as real);
  }

  /** A body that starts and ends with a digit reads the same with or without a leading minus,
    * up to the sign. */
  lemma ParseFloatSigned(body: string, v: real)
    requires |body| > 0 && IsDigit(body[0]) && IsDigit(body[|body| - 1])
    requires ParseUnsignedFloat(body) == Some(v)
    ensures ParseFloat(body) == Some(v)
    ensures ParseFloat("-" + body) == Some(-v)
  {
    StripUnchanged(body);
    var s := "-" + body;
    assert s[|s| - 1] == body[|body| - 1];
    StripUnchanged(s);
    assert s[1..] == body;
  }

  /** Python's `repr` of a string, for identifiers without quotes or escapes. */
  function Quote(s: string): string {
    "'" + s + "'"
  }

  function JoinQuoted(items: seq<string>): (r: string)
    ensures |items| > 0 ==> |r| >= 2
  {
    if |items| == 0 then ""
    else if |items| == 1 then Quote(items[0])
    else Quote(items[0]) + ", " + JoinQuoted(items[1..])
  }

  /** Python's `repr` of a list of strings: `['a', 'b']`. */
  function ListRepr(items: seq<string>): (r: string)
    ensures StartsWith(r, "[") && r[|r| - 1] == ']'
    ensures |items| == 0 <==> r == "[]"
  {
    var r := "[" + JoinQuoted(items) + "]";
    assert r[..1] == "[";
    r
  }
}

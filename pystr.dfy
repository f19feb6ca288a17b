/**
 * The few Python string built-ins the core relies on: `str.isspace`, `str.strip`,
 * `str.lower`, `str.isupper`, `int(str)` and `str(int)`.
 *
 * `IsSpace` covers every character Python treats as whitespace. Case mapping and
 * case testing cover the ASCII letters only, and `int(str)` accepts ASCII digits only.
 */
module PyStr {
  import opened Wrappers

  /** Python's `str.isspace` for one character, listed by code point. */
  predicate IsSpace(c: char) {
    var n := c as int;
    (9 <= n <= 13) || (28 <= n <= 32) || n == 0x85 || n == 0xA0 || n == 0x1680
    || (0x2000 <= n <= 0x200A) || n == 0x2028 || n == 0x2029 || n == 0x202F
    || n == 0x205F || n == 0x3000
  }

  predicate AllSpace(s: string) {
    forall i :: 0 <= i < |s| ==> IsSpace(s[i])
  }

  /** A string with no whitespace at either end. */
  predicate Trimmed(s: string) {
    s == [] || (!IsSpace(s[0]) && !IsSpace(s[|s| - 1]))
  }

  /** The length of the run of whitespace that starts `s`. */
  function LeadingSpaces(s: string): (n: nat)
    ensures n <= |s|
    ensures AllSpace(s[..n])
    ensures n < |s| ==> !IsSpace(s[n])
  {
    if |s| == 0 || !IsSpace(s[0]) then 0
    else
      var m := LeadingSpaces(s[1..]);
      assert s[1..][..m] == s[1..m + 1];
      1 + m
  }

  /** The length of the run of whitespace that ends `s`. */
  function TrailingSpaces(s: string): (n: nat)
    ensures n <= |s|
    ensures AllSpace(s[|s| - n..])
    ensures n < |s| ==> !IsSpace(s[|s| - 1 - n])
  {
    if |s| == 0 || !IsSpace(s[|s| - 1]) then 0
    else
      var m := TrailingSpaces(s[..|s| - 1]);
      assert s[..|s| - 1][|s| - 1 - m..] == s[|s| - 1 - m..|s| - 1];
      1 + m
  }

  /**
   * Python's `s.strip()`: `s` with the whitespace removed from both ends. The result
   * is the infix of `s` starting after the leading whitespace, and only whitespace
   * follows it.
   */
  function Strip(s: string): (r: string)
    ensures Trimmed(r)
    ensures var i := LeadingSpaces(s); i + |r| <= |s| && r == s[i..i + |r|] && AllSpace(s[i + |r|..])
  {
    var i := LeadingSpaces(s);
    var t := s[i..];
    var j := TrailingSpaces(t);
    assert t[..|t| - j] == s[i..i + |t| - j];
    assert t[|t| - j..] == s[i + |t| - j..];
    t[..|t| - j]
  }

  /** Stripping a string padded with whitespace on both sides gives back the string. */
  lemma {:induction false} StripPadded(a: string, t: string, b: string)
    requires AllSpace(a) && AllSpace(b) && Trimmed(t)
    ensures Strip(a + t + b) == t
  {
    var s := a + t + b;
    assert s == a + (t + b);
    if t == [] {
      assert t + b == b;
      LeadingOfPadded(a, b);
      assert s[|s|..] == [];
    } else {
      LeadingOfPadded(a, t + b);
      assert s[|a|..] == t + b;
      TrailingOfPadded(t, b);
      assert (t + b)[..|t|] == t;
    }
  }

  lemma {:induction false} LeadingOfPadded(a: string, u: string)
    requires AllSpace(a)
    requires u == [] || !IsSpace(u[0]) || AllSpace(u)
    ensures u == [] || !IsSpace(u[0]) ==> LeadingSpaces(a + u) == |a|
    ensures AllSpace(u) ==> LeadingSpaces(a + u) == |a + u|
  {
    if a == [] {
      assert a + u == u;
      if AllSpace(u) && u != [] {
        AllSpaceLeading(u);
      }
    } else {
      assert (a + u)[1..] == a[1..] + u;
      LeadingOfPadded(a[1..], u);
    }
  }

  lemma {:induction false} TrailingOfPadded(u: string, b: string)
    requires AllSpace(b)
    requires u == [] || !IsSpace(u[|u| - 1])
    ensures TrailingSpaces(u + b) == |b|
  {
    if b == [] {
      assert u + b == u;
    } else {
      var w := u + b;
      assert w[..|w| - 1] == u + b[..|b| - 1];
      TrailingOfPadded(u, b[..|b| - 1]);
    }
  }

  lemma {:induction false} AllSpaceLeading(u: string)
    requires AllSpace(u)
    ensures LeadingSpaces(u) == |u|
  {
    if u != [] {
      assert AllSpace(u[1..]);
      AllSpaceLeading(u[1..]);
    }
  }

  /** Stripping is idempotent. */
  lemma StripIdempotent(s: string)
    ensures Strip(Strip(s)) == Strip(s)
  {
    StripPadded([], Strip(s), []);
    assert [] + Strip(s) + [] == Strip(s);
  }

  predicate IsAsciiUpper(c: char) { 'A' <= c <= 'Z' }
  predicate IsAsciiLower(c: char) { 'a' <= c <= 'z' }

  /** `str.lower` on one character: ASCII capitals map to their small letters. */
  function LowerChar(c: char): (d: char)
    ensures !IsAsciiUpper(d)
    ensures IsAsciiUpper(c) ==> d as int == c as int + 32
    ensures !IsAsciiUpper(c) ==> d == c
  {
    if IsAsciiUpper(c) then (c as int + 32) as char else c
  }

  /** Python's `s.lower()`: the same length, each character lowered in place. */
  function Lower(s: string): (r: string)
    ensures |r| == |s|
    ensures forall i :: 0 <= i < |s| ==> r[i] == LowerChar(s[i])
  {
    seq(|s|, i requires 0 <= i < |s| => LowerChar(s[i]))
  }

  /** Lowering is idempotent, and leaves a string without capitals unchanged. */
  lemma LowerIdempotent(s: string)
    ensures Lower(Lower(s)) == Lower(s)
    ensures (forall i :: 0 <= i < |s| ==> !IsAsciiUpper(s[i])) ==> Lower(s) == s
  {
  }

  /** Lowering never turns a character into whitespace or out of it. */
  lemma LowerKeepsSpaces(s: string)
    ensures forall i :: 0 <= i < |s| ==> (IsSpace(Lower(s)[i]) <==> IsSpace(s[i]))
  {
  }

  /** Python's `s.isupper()`: some cased character, and no cased character is small. */
  predicate IsUpper(s: string) {
    (exists i :: 0 <= i < |s| && IsAsciiUpper(s[i])) && forall i :: 0 <= i < |s| ==> !IsAsciiLower(s[i])
  }

  predicate IsDigit(c: char) { '0' <= c <= '9' }

  function DigitValue(c: char): (d: nat)
    requires IsDigit(c)
    ensures d < 10
  {
    c as int - '0' as int
  }

  function DigitChar(d: nat): (c: char)
    requires d < 10
    ensures IsDigit(c) && DigitValue(c) == d
  {
    ('0' as int + d) as char
  }

  /**
   * The digit part that `int()` accepts in base 10: digits, with single underscores
   * allowed between two digits.
   */
  predicate IsDigitGroup(d: string) {
    && |d| > 0
    && IsDigit(d[0]) && IsDigit(d[|d| - 1])
    && (forall i :: 0 <= i < |d| ==> IsDigit(d[i]) || d[i] == '_')
    && (forall i :: 0 <= i < |d| - 1 ==> d[i] == '_' ==> d[i + 1] != '_')
  }

  /** The number written by the digits of `d`, underscores skipped. */
  function GroupValue(d: string): nat
    requires forall i :: 0 <= i < |d| ==> IsDigit(d[i]) || d[i] == '_'
  {
    if d == [] then 0
    else
      var last := d[|d| - 1];
      if last == '_' then GroupValue(d[..|d| - 1])
      else 10 * GroupValue(d[..|d| - 1]) + DigitValue(last)
  }

  /**
   * Python's `int(s)` for a string `s`: surrounding whitespace, an optional sign, and a
   * digit group; `None` stands for the `ValueError` it raises on anything else.
   */
  function ParseInt(s: string): (r: Option<int>)
    ensures r.Some? ==> exists i :: 0 <= i < |s| && IsDigit(s[i])
  {
    var t := Strip(s);
    assert ParseSigned(t).Some? ==> IsDigit(s[LeadingSpaces(s) + |t| - 1]) by {
      var i := LeadingSpaces(s);
      if ParseSigned(t).Some? {
        assert t == s[i..i + |t|];
        assert t[|t| - 1] == s[i + |t| - 1];
      }
    }
    ParseSigned(t)
  }

  /** `int()` on text already stripped: an optional sign followed by a digit group. */
  function ParseSigned(t: string): (r: Option<int>)
    ensures r.Some? ==> |t| > 0 && IsDigit(t[|t| - 1])
  {
    var negative := |t| > 0 && t[0] == '-';
    var digits := if |t| > 0 && (t[0] == '-' || t[0] == '+') then t[1..] else t;
    if IsDigitGroup(digits) then
      Some(if negative then -(GroupValue(digits) as int) else GroupValue(digits) as int)
    else None
  }

  /** Python's `str(n)` for a natural number: its decimal digits, no leading zeros. */
  function NatToString(n: nat): (s: string)
    ensures |s| > 0 && IsDigit(s[0]) && IsDigit(s[|s| - 1])
    ensures forall i :: 0 <= i < |s| ==> IsDigit(s[i])
    ensures |s| > 1 ==> s[0] != '0'
  {
    if n < 10 then [DigitChar(n)] else NatToString(n / 10) + [DigitChar(n % 10)]
  }

  /** Python's `str(n)` for an integer. */
  function IntToString(n: int): (s: string)
    ensures |s| > 0 && !IsSpace(s[0]) && IsDigit(s[|s| - 1])
    ensures (n < 0) <==> s[0] == '-'
  {
    if n < 0 then "-" + NatToString(-n) else NatToString(n)
  }

  /** Reading back the digits of a natural number gives the number. */
  lemma {:induction false} GroupValueOfNatToString(n: nat)
    ensures IsDigitGroup(NatToString(n))
    ensures GroupValue(NatToString(n)) == n
  {
    var s := NatToString(n);
    if n >= 10 {
      GroupValueOfNatToString(n / 10);
      assert s[..|s| - 1] == NatToString(n / 10);
    }
  }

  /** `int(str(n)) == n` for every integer `n`. */
  lemma ParseIntOfIntToString(n: int)
    ensures ParseInt(IntToString(n)) == Some(n)
  {
    if n < 0 {
      ParseIntOfNegative(n);
    } else {
      ParseIntOfNatural(n);
    }
  }

  lemma ParseIntOfNegative(n: int)
    requires n < 0
    ensures ParseInt(IntToString(n)) == Some(n)
  {
    var d := NatToString(-n);
    assert IntToString(n) == "-" + d;
    assert IsDigitGroup(d) && GroupValue(d) == -n by {
      GroupValueOfNatToString(-n);
    }
    ParseIntOfNegatedGroup(d);
  }

  lemma ParseIntOfNatural(n: nat)
    ensures ParseInt(IntToString(n)) == Some(n)
  {
    GroupValueOfNatToString(n);
    ParseIntOfGroup(NatToString(n));
  }

  lemma ParseIntOfGroup(d: string)
    requires IsDigitGroup(d)
    ensures ParseInt(d) == Some(GroupValue(d) as int)
  {
    assert Trimmed(d);
    StripTrimmed(d);
    assert ParseSigned(d) == Some(GroupValue(d) as int) by {
      assert d[0] != '-' && d[0] != '+';
    }
  }

  lemma ParseIntOfNegatedGroup(d: string)
    requires IsDigitGroup(d)
    ensures ParseInt("-" + d) == Some(-(GroupValue(d) as int))
  {
    var s := "-" + d;
    StripTrimmed(s);
    assert ParseSigned(s) == Some(-(GroupValue(d) as int)) by {
      assert s[1..] == d;
    }
  }

  lemma StripTrimmed(s: string)
    requires Trimmed(s)
    ensures Strip(s) == s
  {
    StripPadded([], s, []);
    assert [] + s + [] == s;
  }

  /** `int()` refuses text with no digit at all, such as `"abc"` or `""`. */
  lemma ParseIntNeedsDigit(s: string)
    requires forall i :: 0 <= i < |s| ==> !IsDigit(s[i])
    ensures ParseInt(s) == None
  {
  }
  /** The index of the first character of `s` in `cs`, or `|s|` when there is none. */
  function Find(s: string, cs: set<char>): (k: nat)
    ensures k <= |s|
    ensures forall j :: 0 <= j < k ==> s[j] !in cs
    ensures k < |s| ==> s[k] in cs
  {
    if s == [] then 0
    else if s[0] in cs then 0
    else 1 + Find(s[1..], cs)
  }

  /** `s` with one leading sign removed. */
  function Unsigned(s: string): (u: string)
    ensures u == s || (|s| > 0 && (s[0] == '+' || s[0] == '-') && u == s[1..])
  {
    if |s| > 0 && (s[0] == '+' || s[0] == '-') then s[1..] else s
  }

  /**
   * The mantissa of a decimal float literal: digit groups before and after an optional
   * point, at least one of them present.
   */
  predicate IsMantissa(m: string) {
    var k := Find(m, {'.'});
    if k == |m| then IsDigitGroup(m)
    else
      var whole, fraction := m[..k], m[k + 1..];
      (whole == [] || IsDigitGroup(whole)) && (fraction == [] || IsDigitGroup(fraction))
      && (whole != [] || fraction != [])
  }

  /**
   * Text that Python's `float(s)` accepts: surrounding whitespace, an optional sign, then
   * `inf`, `infinity` or `nan` in any case, or a mantissa with an optional exponent.
   */
  predicate IsFloatText(s: string) {
    var u := Unsigned(Strip(s));
    || Lower(u) in {"inf", "infinity", "nan"}
    || var k := Find(u, {'e', 'E'});
       IsMantissa(u[..k]) && (k == |u| || IsDigitGroup(Unsigned(u[k + 1..])))
  }

  /** Every text `int()` accepts is accepted by `float()` too. */
  lemma IntTextIsFloatText(s: string)
    requires ParseInt(s).Some?
    ensures IsFloatText(s)
  {
    var u := Unsigned(Strip(s));
    assert IsDigitGroup(u);
    DigitGroupIsMantissa(u);
    assert u[..|u|] == u;
  }

  lemma DigitGroupIsMantissa(u: string)
    requires IsDigitGroup(u)
    ensures Find(u, {'e', 'E'}) == |u| && IsMantissa(u)
  {
    assert Find(u, {'.'}) == |u|;
  }

  /** Text with no digit and no point is not a mantissa. */
  lemma NoDigitNoMantissa(m: string)
    requires forall j :: 0 <= j < |m| ==> !IsDigit(m[j]) && m[j] != '.'
    ensures !IsMantissa(m)
  {
    assert Find(m, {'.'}) == |m|;
  }

  /** A letter-only word other than `inf`, `infinity` or `nan` is not a float. */
  lemma WordIsNotFloat(s: string)
    requires forall i :: 0 <= i < |s| ==> IsAsciiLower(s[i])
    requires s !in {"inf", "infinity", "nan"}
    ensures !IsFloatText(s)
  {
    assert Trimmed(s);
    StripTrimmed(s);
    assert Unsigned(s) == s;
    LowerIdempotent(s);
    var k := Find(s, {'e', 'E'});
    NoDigitNoMantissa(s[..k]);
  }
}

/** The Option datatype that stands for JavaScript's `null`/`undefined` results. */
module Wrappers {

  datatype Option<+T> = None | Some(value: T) {

    /** The value, or `default` when absent (JavaScript's `x ?? default`). */
    function GetOr(default: T): T {
      match this
      case Some(v) => v
      case None => default
    }
  }
}

/**
 * The pieces of JavaScript's string library that the dashboard relies on:
 * the `\s` character class, ASCII case mapping, `trim`, `includes`,
 * `String(n)` for natural numbers and `padStart`.
 */
module Text {

  /** JavaScript's `\s`: the WhiteSpace and LineTerminator code points. `trim` strips the same set. */
  predicate IsSpace(c: char) {
    || c == ' ' || c == '\t' || c == '\n' || c == '\U{B}' || c == '\U{C}' || c == '\r'
    || c == '\U{A0}' || c == '\U{1680}' || ('\U{2000}' <= c <= '\U{200A}')
    || c == '\U{2028}' || c == '\U{2029}' || c == '\U{202F}' || c == '\U{205F}'
    || c == '\U{3000}' || c == '\U{FEFF}'
  }

  predicate IsUpper(c: char) { 'A' <= c <= 'Z' }
  predicate IsLower(c: char) { 'a' <= c <= 'z' }
  predicate IsDigit(c: char) { '0' <= c <= '9' }
  predicate IsLetter(c: char) { IsUpper(c) || IsLower(c) }

  function LowerChar(c: char): char {
    if IsUpper(c) then (c as int + 32) as char else c
  }

  function UpperChar(c: char): char {
    if IsLower(c) then (c as int - 32) as char else c
  }

  /** `toLowerCase`, restricted to ASCII letters: no upper-case letter is left, each one becomes its lower-case partner, and every other character stays. */
  function ToLower(s: string): (r: string)
    ensures |r| == |s|
    ensures forall i | 0 <= i < |s| :: !IsUpper(r[i])
    ensures forall i | 0 <= i < |s| :: IsUpper(s[i]) ==> IsLower(r[i]) && UpperChar(r[i]) == s[i]
    ensures forall i | 0 <= i < |s| :: !IsUpper(s[i]) ==> r[i] == s[i]
  {
    seq(|s|, i requires 0 <= i < |s| => LowerChar(s[i]))
  }

  /** `toUpperCase`, restricted to ASCII letters: no lower-case letter is left, each one becomes its upper-case partner, and every other character stays. */
  function ToUpper(s: string): (r: string)
    ensures |r| == |s|
    ensures forall i | 0 <= i < |s| :: !IsLower(r[i])
    ensures forall i | 0 <= i < |s| :: IsLower(s[i]) ==> IsUpper(r[i]) && LowerChar(r[i]) == s[i]
    ensures forall i | 0 <= i < |s| :: !IsLower(s[i]) ==> r[i] == s[i]
  {
    seq(|s|, i requires 0 <= i < |s| => UpperChar(s[i]))
  }

  lemma ToLowerIdempotent(s: string)
    ensures ToLower(ToLower(s)) == ToLower(s)
  {
    assert forall i | 0 <= i < |s| :: ToLower(ToLower(s))[i] == ToLower(s)[i];
  }

  /** Lower-casing after upper-casing is lower-casing: the letters' case does not matter. */
  lemma LowerOfUpper(s: string)
    ensures ToLower(ToUpper(s)) == ToLower(s)
  {
    assert forall i | 0 <= i < |s| :: ToLower(ToUpper(s))[i] == ToLower(s)[i];
  }

  /** `q` occurs in `s` starting at index `i`. */
  predicate OccursAt(s: string, q: string, i: int) {
    0 <= i <= |s| - |q| && s[i..i + |q|] == q
  }

  /** `s.includes(q)`, searched from the left: the empty query is found everywhere, and a query longer than the string nowhere. */
  predicate Contains(s: string, q: string): (found: bool)
    ensures q == [] ==> found
    ensures found ==> |q| <= |s|
  {
    q <= s || (|s| > 0 && Contains(s[1..], q))
  }

  lemma {:induction false} ContainsAt(s: string, q: string)
    ensures Contains(s, q) <==> exists i :: OccursAt(s, q, i)
  {
    if q <= s {
      assert OccursAt(s, q, 0);
    } else if |s| > 0 {
      ContainsAt(s[1..], q);
      forall i | 0 <= i
        ensures OccursAt(s[1..], q, i) <==> OccursAt(s, q, i + 1)
      {
        if i <= |s| - 1 - |q| {
          assert s[1..][i..i + |q|] == s[i + 1..i + 1 + |q|];
        }
      }
      if exists i :: OccursAt(s, q, i) {
        var i :| OccursAt(s, q, i);
        assert i != 0 && OccursAt(s[1..], q, i - 1);
      }
    } else {
      assert forall i :: !OccursAt(s, q, i);
    }
  }

  /** The code points `trim` removes from the front. */
  function TrimStart(s: string): (r: string)
    ensures |r| <= |s| && r == s[|s| - |r|..]
    ensures r == [] || !IsSpace(r[0])
    ensures forall i :: 0 <= i < |s| - |r| ==> IsSpace(s[i])
  {
    if |s| > 0 && IsSpace(s[0]) then TrimStart(s[1..]) else s
  }

  function TrimEnd(s: string): (r: string)
    ensures |r| <= |s| && r == s[..|r|]
    ensures r == [] || !IsSpace(r[|r| - 1])
    ensures forall i :: |r| <= i < |s| ==> IsSpace(s[i])
  {
    if |s| > 0 && IsSpace(s[|s| - 1]) then TrimEnd(s[..|s| - 1]) else s
  }

  /** `s` neither starts nor ends with `\s`. */
  predicate Trimmed(s: string) {
    s == [] || (!IsSpace(s[0]) && !IsSpace(s[|s| - 1]))
  }

  /** `s.trim()`: what it keeps is no longer than `s` and neither starts nor ends with `\s`. */
  function Trim(s: string): (r: string)
    ensures |r| <= |s|
    ensures Trimmed(r)
  {
    var t := TrimStart(s);
    var e := TrimEnd(t);
    assert e != [] ==> e[0] == t[0];
    e
  }

  /** Every code point of `s[a..b]` is `\s`. */
  predicate AllSpace(s: string, a: int, b: int)
    requires 0 <= a <= b <= |s|
  {
    forall k :: a <= k < b ==> IsSpace(s[k])
  }

  /** `trim` keeps a contiguous stretch of `s` and drops only `\s` around it. */
  lemma TrimSlice(s: string)
    ensures exists i, j :: 0 <= i <= j <= |s| && Trim(s) == s[i..j] && AllSpace(s, 0, i) && AllSpace(s, j, |s|)
  {
    var t := TrimStart(s);
    var e := TrimEnd(t);
    var i := |s| - |t|;
    var j := i + |e|;
    assert Trim(s) == s[i..j] by {
      assert t == s[i..];
      assert e == t[..|e|];
    }
    assert AllSpace(s, 0, i);
    assert AllSpace(s, j, |s|) by {
      forall k | j <= k < |s|
        ensures IsSpace(s[k])
      {
        assert s[k] == t[k - i];
      }
    }
  }

  /** `trim` gives the empty string exactly when `s` is all `\s`, which is how `if (s.trim())` tests for a blank entry. */
  lemma TrimBlank(s: string)
    ensures Trim(s) == [] <==> AllSpace(s, 0, |s|)
  {
    TrimSlice(s);
    var i, j :| 0 <= i <= j <= |s| && Trim(s) == s[i..j] && AllSpace(s, 0, i) && AllSpace(s, j, |s|);
    if Trim(s) == [] {
      assert i == j;
      assert AllSpace(s, 0, |s|) by {
        forall k | 0 <= k < |s|
          ensures IsSpace(s[k])
        {
          if k >= j {
            assert AllSpace(s, j, |s|);
          }
        }
      }
    } else {
      assert s[i] == Trim(s)[0];
    }
  }

  function DigitChar(d: nat): char
    requires d < 10
  {
    ('0' as int + d) as char
  }

  function DigitValue(c: char): nat
    requires IsDigit(c)
  {
    c as int - '0' as int
  }

  /** `String(n)` for a natural number: its decimal digits, no leading zero. */
  function Decimal(n: nat): (r: string)
    ensures |r| > 0 && forall i :: 0 <= i < |r| ==> IsDigit(r[i])
  {
    if n < 10 then [DigitChar(n)] else Decimal(n / 10) + [DigitChar(n % 10)]
  }

  /** The value of a string of decimal digits, leading zeros allowed. */
  function ParseDecimal(s: string): nat
    requires forall i :: 0 <= i < |s| ==> IsDigit(s[i])
  {
    if s == [] then 0 else ParseDecimal(s[..|s| - 1]) * 10 + DigitValue(s[|s| - 1])
  }

  lemma {:induction false} ParseDecimalOfDecimal(n: nat)
    ensures ParseDecimal(Decimal(n)) == n
  {
    if n >= 10 {
      var s := Decimal(n);
      assert s[..|s| - 1] == Decimal(n / 10);
      ParseDecimalOfDecimal(n / 10);
    }
  }

  lemma {:induction false} ParseDecimalLeadingZero(s: string)
    requires forall i :: 0 <= i < |s| ==> IsDigit(s[i])
    ensures ParseDecimal(['0'] + s) == ParseDecimal(s)
  {
    if s != [] {
      assert (['0'] + s)[..|s|] == ['0'] + s[..|s| - 1];
      ParseDecimalLeadingZero(s[..|s| - 1]);
    }
  }

  /** `r` is `s` with copies of `c` in front of it. */
  predicate PaddedFrom(r: string, s: string, c: char) {
    |r| >= |s| && r[|r| - |s|..] == s && forall i | 0 <= i < |r| - |s| :: r[i] == c
  }

  /** `s.padStart(width, c)` for a single character `c`: prepend `c` until the width is reached. */
  function PadStart(s: string, width: nat, c: char): string
    decreases width - |s|
  {
    if |s| >= width then s else PadStart([c] + s, width, c)
  }

  /** `padStart` keeps `s` at the end and fills the front with copies of `c` up to `width`, never cutting `s`. */
  lemma {:induction false} PadStartShape(s: string, width: nat, c: char)
    ensures var r := PadStart(s, width, c);
      |r| == (if |s| >= width then |s| else width) && PaddedFrom(r, s, c)
    decreases width - |s|
  {
    if |s| < width {
      PadStartShape([c] + s, width, c);
      var r := PadStart(s, width, c);
      var k := |r| - |s|;
      assert r[k - 1..] == [c] + s;
      assert r[k..] == r[k - 1..][1..];
    }
  }

  /** Padding digits with zeros keeps them digits, reaches the width, and keeps their value. */
  lemma {:induction false} PaddedDigits(s: string, width: nat)
    requires forall i :: 0 <= i < |s| ==> IsDigit(s[i])
    ensures var p := PadStart(s, width, '0');
      && |p| >= width && |p| >= |s|
      && (forall i :: 0 <= i < |p| ==> IsDigit(p[i]))
      && ParseDecimal(p) == ParseDecimal(s)
    decreases width - |s|
  {
    if |s| < width {
      ParseDecimalLeadingZero(s);
      PaddedDigits(['0'] + s, width);
    }
  }

  /** Zero-padding a decimal numeral neither loses nor changes its value, and the width is at least the requested one. */
  lemma PaddedDecimal(n: nat, width: nat)
    ensures var p := PadStart(Decimal(n), width, '0');
      && |p| >= width && |p| >= |Decimal(n)|
      && (forall i :: 0 <= i < |p| ==> IsDigit(p[i]))
      && ParseDecimal(p) == n
  {
    ParseDecimalOfDecimal(n);
    PaddedDigits(Decimal(n), width);
  }

  // ---------------------------------------------------------------------
  // UTF-16: what `length`, indexing and a non-unicode regex count
  // ---------------------------------------------------------------------

  predicate IsHighSurrogate(x: int) { 0xD800 <= x < 0xDC00 }
  predicate IsLowSurrogate(x: int) { 0xDC00 <= x < 0xE000 }

  /** The UTF-16 code units of one code point: itself below U+10000, a high and a low surrogate above. */
  function CodeUnits(c: char): (u: seq<int>)
    ensures |u| == (if c as int < 0x10000 then 1 else 2)
    ensures |u| == 1 ==> u[0] == c as int && !IsHighSurrogate(u[0]) && !IsLowSurrogate(u[0])
    ensures |u| == 2 ==> IsHighSurrogate(u[0]) && IsLowSurrogate(u[1])
  {
    if c as int < 0x10000 then [c as int]
    else
      var v := c as int - 0x10000;
      [0xD800 + v / 0x400, 0xDC00 + v % 0x400]
  }

  /** The code units JavaScript stores for `s`; `s.length` is their number. */
  function Utf16(s: string): (u: seq<int>)
    ensures |s| <= |u| <= 2 * |s|
  {
    if s == [] then [] else CodeUnits(s[0]) + Utf16(s[1..])
  }

  /** `s.length`: the number of UTF-16 code units, two for each code point above U+FFFF. */
  function Utf16Length(s: string): (n: nat)
    ensures |s| <= n <= 2 * |s|
  {
    if s == [] then 0 else (if s[0] as int < 0x10000 then 1 else 2) + Utf16Length(s[1..])
  }

  /** `length` counts exactly the code units the string is stored as. */
  lemma {:induction false} Utf16LengthCounts(s: string)
    ensures Utf16Length(s) == |Utf16(s)|
  {
    if s != [] {
      Utf16LengthCounts(s[1..]);
    }
  }

  /** Reads code units back into code points: a surrogate pair is one code point. */
  function FromUtf16(u: seq<int>): string
    requires UnitsInRange(u)
  {
    if u == [] then []
    else if |u| >= 2 && IsHighSurrogate(u[0]) && IsLowSurrogate(u[1]) then
      [(0x10000 + (u[0] - 0xD800) * 0x400 + (u[1] - 0xDC00)) as char] + FromUtf16(u[2..])
    else if IsHighSurrogate(u[0]) || IsLowSurrogate(u[0]) then
      ['\U{FFFD}'] + FromUtf16(u[1..])
    else
      [u[0] as char] + FromUtf16(u[1..])
  }

  /** Every code unit is below 0x10000. */
  predicate UnitsInRange(u: seq<int>) {
    forall k | 0 <= k < |u| :: 0 <= u[k] < 0x10000
  }

  lemma {:induction false} Utf16InRange(s: string)
    ensures UnitsInRange(Utf16(s))
  {
    if s != [] {
      Utf16InRange(s[1..]);
      assert Utf16(s) == CodeUnits(s[0]) + Utf16(s[1..]);
    }
  }

  /** Encoding and decoding round-trip: no code point is lost or split. */
  lemma {:induction false} Utf16RoundTrip(s: string)
    ensures UnitsInRange(Utf16(s)) && FromUtf16(Utf16(s)) == s
  {
    Utf16InRange(s);
    if s != [] {
      Utf16InRange(s[1..]);
      var c := CodeUnits(s[0]);
      var rest := Utf16(s[1..]);
      Utf16RoundTrip(s[1..]);
      if |c| == 2 {
        assert (c + rest)[2..] == rest;
        var v := s[0] as int - 0x10000;
        assert 0x10000 + (c[0] - 0xD800) * 0x400 + (c[1] - 0xDC00) == s[0] as int;
      } else {
        assert (c + rest)[1..] == rest;
      }
    }
  }

  /** Below U+10000 a code point is one unit, so length counts code points there. */
  lemma {:induction false} Utf16OfBmp(s: string)
    requires forall i | 0 <= i < |s| :: s[i] as int < 0x10000
    ensures Utf16Length(s) == |s|
  {
    if s != [] {
      Utf16OfBmp(s[1..]);
    }
  }
}

/**
 * The small part of JavaScript's built-in behaviour that the components rely on:
 * optional values and the `||` fallback, String.prototype.trim, ASCII case mapping,
 * String.prototype.startsWith and substring, the UTF-16 code units behind
 * charCodeAt and the default Array sort, and the ToInt32 conversion behind `<<`.
 */
module Js {

  datatype Option<+T> = None | Some(value: T)

  /** `!!s` for a string that may be undefined: present and non-empty. */
  predicate Truthy(s: Option<string>) {
    s.Some? && |s.value| > 0
  }

  /** `a || b` for two optional strings. */
  function Or(a: Option<string>, b: Option<string>): Option<string> {
    if Truthy(a) then a else b
  }

  /** `a || d` where the fallback `d` is a string literal. */
  function OrElse(a: Option<string>, d: string): string {
    if Truthy(a) then a.value else d
  }

  // ---------------------------------------------------------------------------
  // Whitespace and trim

  /** ECMAScript WhiteSpace and LineTerminator code points: what `trim` removes and `\s` matches. */
  predicate IsSpace(c: char) {
    || c == '\t' || c == '\n' || c == '\U{0B}' || c == '\U{0C}' || c == '\r' || c == ' '
    || c == '\U{A0}' || c == '\U{1680}' || ('\U{2000}' <= c <= '\U{200A}')
    || c == '\U{2028}' || c == '\U{2029}' || c == '\U{202F}' || c == '\U{205F}'
    || c == '\U{3000}' || c == '\U{FEFF}'
  }

  function TrimStart(s: string): string {
    if s != [] && IsSpace(s[0]) then TrimStart(s[1..]) else s
  }

  function TrimEnd(s: string): string {
    if s != [] && IsSpace(s[|s| - 1]) then TrimEnd(s[..|s| - 1]) else s
  }

  function Trim(s: string): string {
    TrimEnd(TrimStart(s))
  }

  lemma {:induction false} TrimStartEmpty(s: string)
    ensures TrimStart(s) == [] <==> forall i :: 0 <= i < |s| ==> IsSpace(s[i])
  {
    if s != [] && IsSpace(s[0]) {
      TrimStartEmpty(s[1..]);
      assert forall i :: 1 <= i < |s| ==> s[i] == s[1..][i - 1];
    }
  }

  lemma {:induction false} TrimEndEmpty(s: string)
    ensures TrimEnd(s) == [] <==> forall i :: 0 <= i < |s| ==> IsSpace(s[i])
  {
    if s != [] && IsSpace(s[|s| - 1]) {
      TrimEndEmpty(s[..|s| - 1]);
      assert forall i :: 0 <= i < |s| - 1 ==> s[i] == s[..|s| - 1][i];
    }
  }

  /** The trimmed text is empty exactly when every character is whitespace. */
  lemma TrimEmptyIffAllSpace(s: string)
    ensures |Trim(s)| == 0 <==> forall i :: 0 <= i < |s| ==> IsSpace(s[i])
  {
    TrimStartEmpty(s);
    TrimEndEmpty(TrimStart(s));
    if TrimStart(s) != [] {
      // TrimStart stops at a non-space character
      TrimStartStops(s);
    }
  }

  lemma {:induction false} TrimStartStops(s: string)
    requires TrimStart(s) != []
    ensures !IsSpace(TrimStart(s)[0])
    ensures exists i :: 0 <= i < |s| && !IsSpace(s[i])
  {
    if s != [] && IsSpace(s[0]) {
      TrimStartStops(s[1..]);
      var i :| 0 <= i < |s[1..]| && !IsSpace(s[1..][i]);
      assert s[i + 1] == s[1..][i];
    } else {
      assert !IsSpace(s[0]);
    }
  }

  // ---------------------------------------------------------------------------
  // ASCII case mapping

  function UpperChar(c: char): char {
    if 'a' <= c <= 'z' then (c as int - 32) as char else c
  }

  function LowerChar(c: char): char {
    if 'A' <= c <= 'Z' then (c as int + 32) as char else c
  }

  /** String.prototype.toLowerCase, on the ASCII letters. */
  function ToLower(s: string): (r: string)
    ensures |r| == |s|
    ensures forall i :: 0 <= i < |s| ==> r[i] == LowerChar(s[i])
  {
    seq(|s|, i requires 0 <= i < |s| => LowerChar(s[i]))
  }

  /** String.prototype.toUpperCase, on the ASCII letters. */
  function ToUpper(s: string): (r: string)
    ensures |r| == |s|
    ensures forall i :: 0 <= i < |s| ==> r[i] == UpperChar(s[i])
  {
    seq(|s|, i requires 0 <= i < |s| => UpperChar(s[i]))
  }

  /** Lower-casing is idempotent, so looking up a lower-cased key twice changes nothing. */
  lemma ToLowerIdempotent(s: string)
    ensures ToLower(ToLower(s)) == ToLower(s)
  {
    assert forall i :: 0 <= i < |s| ==> LowerChar(LowerChar(s[i])) == LowerChar(s[i]);
  }

  // ---------------------------------------------------------------------------
  // Prefixes and substrings

  predicate StartsWith(s: string, prefix: string) {
    |prefix| <= |s| && s[..|prefix|] == prefix
  }

  function Clamp(i: int, len: nat): (r: nat)
    ensures r <= len
  {
    if i < 0 then 0 else if i > len then len else i
  }

  /** String.prototype.substring(a, b): both ends clamped to [0, |s|], then swapped if out of order. */
  function Substring(s: string, a: int, b: int): (r: string)
    ensures 0 <= a <= b <= |s| ==> r == s[a..b]
    ensures |r| <= |s|
  {
    var x, y := Clamp(a, |s|), Clamp(b, |s|);
    if x <= y then s[x..y] else s[y..x]
  }

  /** String.prototype.substring(a) with one argument: from a to the end. */
  function SubstringFrom(s: string, a: int): (r: string)
    ensures 0 <= a <= |s| ==> r == s[a..]
  {
    s[Clamp(a, |s|)..]
  }

  // ---------------------------------------------------------------------------
  // UTF-16 code units

  /** The UTF-16 code units of one Unicode scalar value. */
  function Units(c: char): (u: seq<int>)
    ensures 1 <= |u| <= 2
    ensures forall k :: 0 <= k < |u| ==> 0 <= u[k] < 0x1_0000
  {
    var v := c as int;
    if v < 0x1_0000 then [v]
    else [0xD800 + (v - 0x1_0000) / 0x400, 0xDC00 + (v - 0x1_0000) % 0x400]
  }

  /** The code units a JavaScript string holds for `s`: what charCodeAt and `.length` see. */
  function Utf16(s: string): (u: seq<int>)
    ensures |s| <= |u|
    ensures forall k :: 0 <= k < |u| ==> 0 <= u[k] < 0x1_0000
  {
    if s == [] then [] else Units(s[0]) + Utf16(s[1..])
  }

  lemma UnitsInjective(c: char, d: char, rest1: seq<int>, rest2: seq<int>)
    requires Units(c) + rest1 == Units(d) + rest2
    ensures c == d && rest1 == rest2
  {
    var u, w := Units(c) + rest1, Units(d) + rest2;
    assert u[0] == w[0];
    if c as int < 0x1_0000 {
      assert !(0xD800 <= u[0] < 0xDC00);
      assert d as int < 0x1_0000;
      assert rest1 == u[1..] == w[1..] == rest2;
    } else {
      assert 0xD800 <= u[0] < 0xDC00;
      assert d as int >= 0x1_0000;
      assert u[1] == w[1];
      assert rest1 == u[2..] == w[2..] == rest2;
    }
  }

  /** Different strings have different code units, so comparing code units decides string equality. */
  lemma {:induction false} Utf16Injective(a: string, b: string)
    requires Utf16(a) == Utf16(b)
    ensures a == b
  {
    if a == [] || b == [] {
      assert |Utf16(a)| == 0 || |Utf16(b)| == 0;
    } else {
      UnitsInjective(a[0], b[0], Utf16(a[1..]), Utf16(b[1..]));
      Utf16Injective(a[1..], b[1..]);
      assert a == [a[0]] + a[1..];
      assert b == [b[0]] + b[1..];
    }
  }

  /** The `<` on strings: lexicographic order of their code units. */
  predicate UnitsLess(x: seq<int>, y: seq<int>) {
    if x == [] then y != []
    else if y == [] then false
    else x[0] < y[0] || (x[0] == y[0] && UnitsLess(x[1..], y[1..]))
  }

  lemma {:induction false} UnitsLessAsymmetric(x: seq<int>, y: seq<int>)
    ensures !(UnitsLess(x, y) && UnitsLess(y, x))
  {
    if x != [] && y != [] && x[0] == y[0] {
      UnitsLessAsymmetric(x[1..], y[1..]);
    }
  }

  lemma {:induction false} UnitsLessTotal(x: seq<int>, y: seq<int>)
    requires x != y
    ensures UnitsLess(x, y) || UnitsLess(y, x)
  {
    if x != [] && y != [] && x[0] == y[0] {
      assert x == [x[0]] + x[1..] && y == [y[0]] + y[1..];
      UnitsLessTotal(x[1..], y[1..]);
    }
  }

  // ---------------------------------------------------------------------------
  // 32-bit integers

  const TwoTo32: int := 0x1_0000_0000
  const TwoTo31: int := 0x8000_0000

  /** ToInt32: the signed 32-bit integer congruent to x modulo 2^32. */
  function ToInt32(x: int): (r: int)
    ensures -TwoTo31 <= r < TwoTo31
    ensures (x - r) % TwoTo32 == 0
  {
    (x + TwoTo31) % TwoTo32 - TwoTo31
  }

  /** `x << n` on a number: ToInt32(x) shifted left, the result taken back to 32 bits. */
  function ShiftLeft(x: int, n: nat): (r: int)
    requires n < 32
    ensures -TwoTo31 <= r < TwoTo31
  {
    ToInt32(ToInt32(x) * Pow2(n))
  }

  function Pow2(n: nat): (r: nat)
    ensures r >= 1
  {
    if n == 0 then 1 else 2 * Pow2(n - 1)
  }

  /** The `%` operator on numbers, which truncates towards zero (the result takes the dividend's sign). */
  function Rem(a: int, b: int): (r: int)
    requires b > 0
    ensures -b < r < b
    ensures a >= 0 ==> r >= 0
    ensures a <= 0 ==> r <= 0
  {
    if a >= 0 then a % b else -((-a) % b)
  }

  function Abs(x: int): nat {
    if x < 0 then -x else x
  }
}

/** The JavaScript built-ins the core relies on, with their ECMAScript semantics
    restricted to the argument kinds the core passes them. */
module Js {
  import opened Wrappers

  /** Truthiness of a value of type `string | null`: `null` and `""` are falsy. */
  predicate Truthy(s: Option<string>) {
    s.Some? && s.value != ""
  }

  function Min(a: int, b: int): int { if a <= b then a else b }
  function Max(a: int, b: int): int { if a <= b then b else a }

  /** `ToIntegerOrInfinity` followed by clamping into `[0, len]`, as `substring` does. */
  function ClampIndex(k: int, len: nat): (r: nat)
    ensures r <= len
    ensures 0 <= k <= len ==> r == k
  {
    if k < 0 then 0 else if k > len then len else k
  }

  /** `String.prototype.substring(start, end)`: both indices are clamped into
      `[0, |s|]`, and they are swapped when `start > end`. */
  function Substring(s: string, start: int, end: int): (r: string)
    ensures |r| == Max(ClampIndex(start, |s|), ClampIndex(end, |s|)) - Min(ClampIndex(start, |s|), ClampIndex(end, |s|))
    ensures forall i :: 0 <= i < |r| ==> r[i] == s[Min(ClampIndex(start, |s|), ClampIndex(end, |s|)) + i]
  {
    var a, b := ClampIndex(start, |s|), ClampIndex(end, |s|);
    if a <= b then s[a..b] else s[b..a]
  }

  /** `String.prototype.substring(start)`: the end defaults to the length. */
  function SubstringFrom(s: string, start: int): (r: string)
    ensures r == s[ClampIndex(start, |s|)..]
  {
    Substring(s, start, |s|)
  }

  /** How `Array.prototype.slice` turns a relative index into a position:
      a negative index counts back from the end, and the result is clamped into `[0, len]`. */
  function RelativeIndex(k: int, len: nat): (r: nat)
    ensures r <= len
    ensures 0 <= k ==> r == Min(k, len)
    ensures k < 0 ==> r == Max(len + k, 0)
  {
    if k < 0 then (if len + k < 0 then 0 else len + k) else if k > len then len else k
  }

  /** `Array.prototype.slice(start, end)` on integer arguments. */
  function Slice<T>(s: seq<T>, start: int, end: int): (r: seq<T>)
    ensures r <= s[RelativeIndex(start, |s|)..]
    ensures |r| == Max(RelativeIndex(end, |s|) - RelativeIndex(start, |s|), 0)
  {
    var from, to := RelativeIndex(start, |s|), RelativeIndex(end, |s|);
    if from < to then s[from..to] else []
  }

  /** The characters `String.prototype.trim` removes: ECMAScript's WhiteSpace
      (TAB, VT, FF, ZWNBSP and every Unicode "Space_Separator") and LineTerminator
      (LF, CR, LS, PS). */
  predicate IsWhiteSpace(c: char) {
    || c == '\t' || c == '\U{000B}' || c == '\U{000C}' || c == ' ' || c == '\U{00A0}' || c == '\U{FEFF}'
    || c == '\U{1680}' || ('\U{2000}' <= c <= '\U{200A}') || c == '\U{202F}' || c == '\U{205F}' || c == '\U{3000}'
    || c == '\n' || c == '\r' || c == '\U{2028}' || c == '\U{2029}'
  }

  /** Every character of `s` is white space (true of the empty string). */
  predicate IsBlank(s: string) {
    forall i :: 0 <= i < |s| ==> IsWhiteSpace(s[i])
  }

  /** `s` without its leading white space: a suffix of `s`, what was removed is
      white space, and what is left does not start with white space. */
  function TrimStart(s: string): (r: string)
    ensures |r| <= |s| && r == s[|s| - |r|..]
    ensures IsBlank(s[..|s| - |r|])
    ensures r != [] ==> !IsWhiteSpace(r[0])
  {
    if s != [] && IsWhiteSpace(s[0]) then
      var r := TrimStart(s[1..]);
      assert s[..|s| - |r|] == [s[0]] + s[1..][..|s| - 1 - |r|];
      r
    else s
  }

  /** `s` without its trailing white space: a prefix of `s`, what was removed is
      white space, and what is left does not end with white space. */
  function TrimEnd(s: string): (r: string)
    ensures |r| <= |s| && r == s[..|r|]
    ensures IsBlank(s[|r|..])
    ensures r != [] ==> !IsWhiteSpace(r[|r| - 1])
  {
    if s != [] && IsWhiteSpace(s[|s| - 1]) then
      var r := TrimEnd(s[..|s| - 1]);
      assert forall i :: 0 <= i < |s| - 1 - |r| ==> s[|r|..][i] == s[..|s| - 1][|r|..][i];
      r
    else s
  }

  /** `String.prototype.trim`: white space removed from both ends. */
  function Trim(s: string): string {
    TrimEnd(TrimStart(s))
  }

  /** `s.trim()` is the empty string exactly when `s` consists of white space only. */
  lemma TrimEmptyIffBlank(s: string)
    ensures Trim(s) == [] <==> IsBlank(s)
  {
    var t := TrimStart(s);
    if Trim(s) == [] {
      assert IsBlank(t[0..]);
      assert s[..|s| - |t|] == s;
    }
  }

  /** The digit characters `Number.prototype.toString(radix)` writes, lower-case. */
  const Digits := "0123456789abcdefghijklmnopqrstuvwxyz"

  /** The value of a digit character, as `parseInt` reads it. */
  function DigitValue(c: char): nat {
    if '0' <= c <= '9' then c as nat - '0' as nat
    else if 'a' <= c <= 'z' then c as nat - 'a' as nat + 10
    else 0
  }

  /** Euclidean division by a radix: quotient and remainder, and progress. */
  lemma DivModRadix(n: nat, radix: nat)
    requires 2 <= radix
    ensures n == (n / radix) * radix + n % radix && n % radix < radix
    ensures n >= radix ==> n / radix < n
  {
  }

  /** `n.toString(radix)` for a non-negative integer `n`: no sign, no leading zeros. */
  function ToStringRadix(n: nat, radix: nat): (r: string)
    requires 2 <= radix <= 36
    ensures r != []
    decreases n
  {
    if n < radix then [Digits[n]]
    else
      DivModRadix(n, radix);
      ToStringRadix(n / radix, radix) + [Digits[n % radix]]
  }

  /** `parseInt(s, radix)` on a string made of digits of that radix. */
  function ParseRadix(s: string, radix: nat): nat {
    if s == [] then 0 else ParseRadix(s[..|s| - 1], radix) * radix + DigitValue(s[|s| - 1])
  }

  lemma DigitValueOfDigit(d: nat)
    requires d < |Digits|
    ensures DigitValue(Digits[d]) == d
  {
  }

  /** Appending a digit multiplies by the radix and adds the digit. */
  lemma ParseRadixSnoc(s: string, c: char, radix: nat)
    ensures ParseRadix(s + [c], radix) == ParseRadix(s, radix) * radix + DigitValue(c)
  {
    assert (s + [c])[..|s|] == s;
  }

  /** Reading back what `toString(radix)` wrote gives the number again. */
  lemma {:induction false} ParseToStringRadix(n: nat, radix: nat)
    requires 2 <= radix <= 36
    ensures ParseRadix(ToStringRadix(n, radix), radix) == n
    decreases n
  {
    if n < radix {
      DigitValueOfDigit(n);
      assert ToStringRadix(n, radix) == [] + [Digits[n]];
      ParseRadixSnoc([], Digits[n], radix);
    } else {
      var q, d := n / radix, n % radix;
      assert q < n && d < radix && n == q * radix + d by { DivModRadix(n, radix); }
      var prefix := ToStringRadix(q, radix);
      assert ToStringRadix(n, radix) == prefix + [Digits[d]];
      ParseRadixSnoc(prefix, Digits[d], radix);
      ParseToStringRadix(q, radix);
      DigitValueOfDigit(d);
      Recombine(ParseRadix(prefix, radix), q, radix, d, n);
    }
  }

  lemma Recombine(p: nat, q: nat, radix: nat, d: nat, n: nat)
    requires p == q && n == q * radix + d
    ensures p * radix + d == n
  {
  }

  /** Different numbers are written differently. */
  lemma ToStringRadixInjective(m: nat, n: nat, radix: nat)
    requires 2 <= radix <= 36
    requires ToStringRadix(m, radix) == ToStringRadix(n, radix)
    ensures m == n
  {
    ParseToStringRadix(m, radix);
    ParseToStringRadix(n, radix);
  }
}

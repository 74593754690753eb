/** Base-16 text: the digits Rust's `{:x}` formatting writes, zero padding to a width, and the
    value a hex string denotes. */
module Hex {

  /** 16^k. */
  function Pow16(k: nat): (r: nat)
    ensures r >= 1
  {
    if k == 0 then 1 else 16 * Pow16(k - 1)
  }

  /** Dropping the last digit of a k-digit number leaves a (k-1)-digit one. */
  lemma Pow16Div(n: nat, k: nat)
    requires 1 <= k && n < Pow16(k)
    ensures n / 16 < Pow16(k - 1)
  {
  }

  lemma {:induction false} Pow16Add(a: nat, b: nat)
    ensures Pow16(a + b) == Pow16(a) * Pow16(b)
  {
    if b > 0 {
      Pow16Add(a, b - 1);
    }
  }

  /** A digit as `{:x}` writes it: `0`-`9` and lower-case `a`-`f`. */
  predicate IsLowerHexDigit(c: char) {
    '0' <= c <= '9' || 'a' <= c <= 'f'
  }

  /** A digit a hex reader accepts, of either case. */
  predicate IsHexDigit(c: char) {
    IsLowerHexDigit(c) || 'A' <= c <= 'F'
  }

  predicate AllLowerHex(s: string) {
    forall i :: 0 <= i < |s| ==> IsLowerHexDigit(s[i])
  }

  predicate AllHex(s: string) {
    forall i :: 0 <= i < |s| ==> IsHexDigit(s[i])
  }

  function DigitValue(c: char): (d: nat)
    requires IsHexDigit(c)
    ensures d < 16
  {
    if '0' <= c <= '9' then c as int - '0' as int
    else if 'a' <= c <= 'f' then c as int - 'a' as int + 10
    else c as int - 'A' as int + 10
  }

  /** The lower-case digit for `d`; reading it back gives `d`. */
  function Digit(d: nat): (c: char)
    requires d < 16
    ensures IsLowerHexDigit(c) && DigitValue(c) == d
  {
    if d < 10 then ('0' as int + d) as char else ('a' as int + d - 10) as char
  }

  /** The number a string of hex digits denotes, most significant digit first. */
  function Value(s: string): nat
    requires AllHex(s)
  {
    if s == [] then 0 else 16 * Value(s[..|s| - 1]) + DigitValue(s[|s| - 1])
  }

  /** `{:x}` of `n`: its digits without leading zeros (`"0"` for zero). */
  function Minimal(n: nat): (s: string)
    ensures 1 <= |s| && AllLowerHex(s)
    ensures |s| > 1 ==> s[0] != '0'
  {
    if n < 16 then [Digit(n)] else Minimal(n / 16) + [Digit(n % 16)]
  }

  function Zeros(k: nat): (s: string)
    ensures |s| == k && forall i :: 0 <= i < k ==> s[i] == '0'
  {
    seq(k, _ => '0')
  }

  /** The `0` flag with a width: `s` left-filled with zeros up to `width` characters. */
  function PadZeros(s: string, width: nat): (r: string)
    ensures |r| == if |s| < width then width else |s|
    ensures r[|r| - |s|..] == s
    ensures forall i :: 0 <= i < |r| - |s| ==> r[i] == '0'
  {
    if |s| < width then Zeros(width - |s|) + s else s
  }

  /** Reference rendering: exactly `k` digits, digit `k - 1` the least significant. */
  function Fixed(n: nat, k: nat): (s: string)
    ensures |s| == k && AllLowerHex(s)
  {
    if k == 0 then [] else Fixed(n / 16, k - 1) + [Digit(n % 16)]
  }

  lemma {:induction false} FixedZero(k: nat)
    ensures Fixed(0, k) == Zeros(k)
  {
    if k > 0 {
      FixedZero(k - 1);
      assert Zeros(k) == Zeros(k - 1) + ['0'];
    }
  }

  /** A number below 16^k needs at most k digits. */
  lemma {:induction false} MinimalLength(n: nat, k: nat)
    requires 1 <= k && n < Pow16(k)
    ensures |Minimal(n)| <= k
  {
    if n >= 16 {
      Pow16Div(n, k);
      MinimalLength(n / 16, k - 1);
    }
  }

  lemma PadZerosSnoc(s: string, c: char, width: nat)
    requires |s| < width
    ensures PadZeros(s + [c], width) == PadZeros(s, width - 1) + [c]
  {
  }

  /** Zero-padding the minimal digits of `n` to width k is the k-digit rendering of `n`. */
  lemma {:induction false} PadMinimalIsFixed(n: nat, k: nat)
    requires 1 <= k && n < Pow16(k)
    ensures PadZeros(Minimal(n), k) == Fixed(n, k)
  {
    if n < 16 {
      var d := Digit(n);
      assert Minimal(n) == [d];
      assert Fixed(n, k) == Fixed(0, k - 1) + [d];
      FixedZero(k - 1);
    } else {
      var m := Minimal(n / 16);
      var d := Digit(n % 16);
      assert Minimal(n) == m + [d];
      assert Fixed(n, k) == Fixed(n / 16, k - 1) + [d];
      Pow16Div(n, k);
      MinimalLength(n / 16, k - 1);
      PadMinimalIsFixed(n / 16, k - 1);
      PadZerosSnoc(m, d, k);
    }
  }

  /** Reading the k-digit rendering of `n` back gives `n`, for every `n` below 16^k. */
  lemma {:induction false} ValueFixed(n: nat, k: nat)
    requires n < Pow16(k)
    ensures Value(Fixed(n, k)) == n
  {
    if k > 0 {
      var s := Fixed(n, k);
      assert s[..|s| - 1] == Fixed(n / 16, k - 1);
      Pow16Div(n, k);
      ValueFixed(n / 16, k - 1);
    }
  }
}

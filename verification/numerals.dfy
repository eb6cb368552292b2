/**
 * Decimal integers as text: Python's `str(n)` for integers, `int(token)` on a
 * whitespace-free token, and the `{i:04d}` format used for frame file names.
 */
module Numerals {
  import opened Wrappers

  predicate IsDigit(c: char) {
    '0' <= c <= '9'
  }

  predicate AllDigits(s: string) {
    forall k :: 0 <= k < |s| ==> IsDigit(s[k])
  }

  function DigitChar(d: nat): (c: char)
    requires d < 10
    ensures IsDigit(c)
  {
    ('0' as int + d) as char
  }

  function DigitValue(c: char): (d: nat)
    requires IsDigit(c)
    ensures d < 10 && DigitChar(d) == c
  {
    c as int - '0' as int
  }

  function Pow10(w: nat): (p: nat)
    ensures p >= 1
  {
    if w == 0 then 1 else 10 * Pow10(w - 1)
  }

  /** Python's `str(n)` for a natural number: decimal digits, no leading zero. */
  function ShowNat(n: nat): (s: string)
    ensures |s| >= 1 && AllDigits(s)
    ensures s[0] == '0' <==> n == 0
    ensures n == 0 ==> s == "0"
  {
    if n < 10 then [DigitChar(n)] else ShowNat(n / 10) + [DigitChar(n % 10)]
  }

  /** Python's `str(i)` for any integer. */
  function ShowInt(i: int): (s: string)
    ensures |s| >= 1
    ensures s[0] == '-' <==> i < 0
  {
    if i < 0 then "-" + ShowNat(-i) else ShowNat(i)
  }

  /** The value of a string of decimal digits, leading zeros allowed. */
  function DigitsValue(s: string): nat
    requires AllDigits(s)
  {
    if |s| == 0 then 0 else 10 * DigitsValue(s[..|s| - 1]) + DigitValue(s[|s| - 1])
  }

  /**
   * Python's `int(token)` for a token that holds no whitespace: an optional
   * sign followed by at least one ASCII digit; anything else is a ValueError,
   * here `None`.
   */
  function ParseInt(tok: string): (r: Option<int>)
    ensures r.Some? <==>
              (|tok| > 0 && AllDigits(tok)) ||
              (|tok| > 1 && (tok[0] == '+' || tok[0] == '-') && AllDigits(tok[1..]))
  {
    if |tok| > 1 && (tok[0] == '+' || tok[0] == '-') && AllDigits(tok[1..]) then
      var v: int := DigitsValue(tok[1..]);
      Some(if tok[0] == '-' then -v else v)
    else if |tok| > 0 && AllDigits(tok) then
      Some(DigitsValue(tok))
    else
      None
  }

  /** Reading back the text of a natural number gives the number. */
  lemma {:induction false} DigitsValueOfShowNat(n: nat)
    ensures DigitsValue(ShowNat(n)) == n
  {
    if n >= 10 {
      var s := ShowNat(n);
      assert s[..|s| - 1] == ShowNat(n / 10);
      DigitsValueOfShowNat(n / 10);
    }
  }

  /** `int(str(i)) == i` for every integer. */
  lemma ParseShowInt(i: int)
    ensures ParseInt(ShowInt(i)) == Some(i)
  {
    if i < 0 {
      var s := ShowInt(i);
      assert s[1..] == ShowNat(-i);
      DigitsValueOfShowNat(-i);
    } else {
      DigitsValueOfShowNat(i);
    }
  }

  /** The `w` lowest decimal digits of `n`, most significant first. */
  function FixedDigits(n: nat, w: nat): (s: string)
    ensures |s| == w && AllDigits(s)
  {
    if w == 0 then [] else FixedDigits(n / 10, w - 1) + [DigitChar(n % 10)]
  }

  /** Left padding with '0' up to width `w`, as the `0w` format specification does. */
  function ZeroPad(s: string, w: nat): (r: string)
    ensures |r| == if |s| < w then w else |s|
  {
    if |s| < w then seq(w - |s|, _ => '0') + s else s
  }

  /** Python's `f'{n:0{w}d}'` for a natural number. */
  function FormatPadded(n: nat, w: nat): string {
    ZeroPad(ShowNat(n), w)
  }

  lemma {:induction false} ShowNatLength(n: nat, w: nat)
    requires w >= 1 && n < Pow10(w)
    ensures |ShowNat(n)| <= w
  {
    if n >= 10 {
      ShowNatLength(n / 10, w - 1);
    }
  }

  lemma {:induction false} FixedDigitsOfZero(w: nat)
    ensures FixedDigits(0, w) == seq(w, _ => '0')
  {
    if w > 0 {
      FixedDigitsOfZero(w - 1);
    }
  }

  /** Below `10^w`, the padded format is exactly the `w` low digits. */
  lemma {:induction false} FormatPaddedIsFixed(n: nat, w: nat)
    requires w >= 1 && n < Pow10(w)
    ensures FormatPadded(n, w) == FixedDigits(n, w)
  {
    if n < 10 {
      FixedDigitsOfZero(w - 1);
      assert n / 10 == 0 && n % 10 == n;
    } else {
      var head := ShowNat(n / 10);
      ShowNatLength(n / 10, w - 1);
      FormatPaddedIsFixed(n / 10, w - 1);
      assert ShowNat(n) == head + [DigitChar(n % 10)];
      if |head| < w - 1 {
        assert seq(w - |head| - 1, _ => '0') + head + [DigitChar(n % 10)]
            == (seq(w - 1 - |head|, _ => '0') + head) + [DigitChar(n % 10)];
      }
    }
  }
}

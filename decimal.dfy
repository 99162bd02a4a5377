/** Base-ten rendering of unsigned integers, as Rust's `{}` format writes a
    `u64` or `usize`, and the parser that reads such a rendering back. */
module Decimal {

  import opened Options

  predicate IsDigit(c: char) {
    '0' <= c <= '9'
  }

  predicate AllDigits(s: string) {
    forall i :: 0 <= i < |s| ==> IsDigit(s[i])
  }

  function DigitChar(d: nat): (c: char)
    requires d < 10
    ensures IsDigit(c)
  {
    (48 + d) as char
  }

  function DigitValue(c: char): (d: nat)
    requires IsDigit(c)
    ensures d < 10 && DigitChar(d) == c
  {
    c as int - 48
  }

  /** `n` in base ten, most significant digit first, with no leading zero. */
  function Format(n: nat): (s: string)
    ensures |s| >= 1 && AllDigits(s)
    ensures s[0] == '0' ==> n == 0
  {
    if n < 10 then [DigitChar(n)] else Format(n / 10) + [DigitChar(n % 10)]
  }

  /** The value of a non-empty string of decimal digits, or None when the
      string is empty or holds anything but digits. */
  function Parse(s: string): (r: Option<nat>)
    ensures r.Some? <==> |s| >= 1 && AllDigits(s)
  {
    if |s| == 0 || !IsDigit(s[|s| - 1]) then None
    else if |s| == 1 then Some(DigitValue(s[0]))
    else match Parse(s[..|s| - 1])
      case None => None
      case Some(v) => Some(10 * v + DigitValue(s[|s| - 1]))
  }

  /** Reading back what Format writes gives the number that was written. */
  lemma {:induction false} ParseFormat(n: nat)
    ensures Parse(Format(n)) == Some(n)
  {
    if n >= 10 {
      var s := Format(n);
      assert s[..|s| - 1] == Format(n / 10);
      ParseFormat(n / 10);
    }
  }

  /** Conversely, a digit string without a leading zero is exactly what
      Format writes for its value: the rendering is canonical. */
  lemma {:induction false} FormatParse(s: string, n: nat)
    requires Parse(s) == Some(n)
    requires |s| == 1 || s[0] != '0'
    ensures Format(n) == s
  {
    if |s| > 1 {
      var p := s[..|s| - 1];
      var v := Parse(p).value;
      assert p[0] == s[0];
      FormatParse(p, v);
      assert n == 10 * v + DigitValue(s[|s| - 1]);
      assert n / 10 == v && n % 10 == DigitValue(s[|s| - 1]);
      assert s == p + [s[|s| - 1]];
    }
  }
}

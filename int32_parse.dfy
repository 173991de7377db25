/**
 * `int.TryParse(s, out v)` with the default integer style: leading white space,
 * an optional `+` or `-`, one or more decimal digits, trailing white space and
 * then only NUL characters; the value must fit a 32-bit signed integer.
 */
module Int32Parse {
  import opened Common
  import opened Text

  const Int32Min: int := -0x8000_0000
  const Int32Max: int := 0x7FFF_FFFF

  /** The white space the number parser skips: space and U+0009 to U+000D. */
  predicate IsWhite(c: char) {
    c == ' ' || '\t' <= c <= '\r'
  }

  function DropWhite(s: string): (r: string)
    ensures |r| <= |s|
  {
    if |s| > 0 && IsWhite(s[0]) then DropWhite(s[1..]) else s
  }

  lemma {:induction false} DropWhiteSuffix(s: string)
    ensures DropWhite(s) == s[|s| - |DropWhite(s)|..]
    ensures |DropWhite(s)| > 0 ==> !IsWhite(DropWhite(s)[0])
  {
    if |s| > 0 && IsWhite(s[0]) {
      DropWhiteSuffix(s[1..]);
    }
  }

  /** Number of leading decimal digits of `s`. */
  function DigitRun(s: string): (n: nat)
    ensures n <= |s|
  {
    if |s| > 0 && IsDigit(s[0]) then 1 + DigitRun(s[1..]) else 0
  }

  lemma {:induction false} DigitRunDigits(s: string)
    ensures AllDigits(s[..DigitRun(s)])
    ensures DigitRun(s) < |s| ==> !IsDigit(s[DigitRun(s)])
  {
    if |s| > 0 && IsDigit(s[0]) {
      DigitRunDigits(s[1..]);
      assert s[..DigitRun(s)] == [s[0]] + s[1..][..DigitRun(s[1..])];
    }
  }

  predicate AllDigits(s: string) {
    forall i :: 0 <= i < |s| ==> IsDigit(s[i])
  }

  function Pow10(k: nat): (r: nat)
    ensures r >= 1
  {
    if k == 0 then 1 else 10 * Pow10(k - 1)
  }

  /** The base-10 value of a digit string, most significant digit first. */
  function DigitsValue(s: string): (v: nat)
    requires AllDigits(s)
    ensures v < Pow10(|s|)
  {
    if |s| == 0 then 0 else 10 * DigitsValue(s[..|s| - 1]) + DigitValue(s[|s| - 1])
  }

  /** What may follow the digits: white space, then nothing but NUL characters. */
  predicate TrailingAccepted(t: string) {
    var u := DropWhite(t);
    forall i :: 0 <= i < |u| ==> u[i] == '\0'
  }

  function TryParse(s: string): (r: Option<int>)
    ensures r.Some? ==> Int32Min <= r.value <= Int32Max
  {
    var t := DropWhite(s);
    var signed := |t| > 0 && (t[0] == '-' || t[0] == '+');
    var u := if signed then t[1..] else t;
    var n := DigitRun(u);
    if n == 0 || !TrailingAccepted(u[n..]) then None
    else
      DigitRunDigits(u);
      var magnitude: int := DigitsValue(u[..n]);
      var v: int := if signed && t[0] == '-' then -magnitude else magnitude;
      if Int32Min <= v <= Int32Max then Some(v) else None
  }

  /** A plain digit string parses to its base-10 value when that value fits. */
  lemma TryParseDigits(s: string)
    requires |s| > 0 && AllDigits(s) && DigitsValue(s) <= Int32Max
    ensures TryParse(s) == Some(DigitsValue(s))
  {
    assert !IsWhite(s[0]) && DropWhite(s) == s;
    AllDigitsRun(s);
    assert s[..|s|] == s;
  }

  lemma {:induction false} AllDigitsRun(s: string)
    requires AllDigits(s)
    ensures DigitRun(s) == |s|
  {
    if |s| > 0 {
      assert AllDigits(s[1..]);
      AllDigitsRun(s[1..]);
    }
  }
}

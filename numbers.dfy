/**
 * parseFloat, as the intent parser applies it to the value the language
 * model extracts, and toFixed(2) for the non-negative amounts it prints.
 */
module Numbers {
  import opened Wrappers
  import opened Text

  predicate IsDigit(c: char) {
    '0' <= c <= '9'
  }

  predicate AllDigits(d: string) {
    forall i :: 0 <= i < |d| ==> IsDigit(d[i])
  }

  function DigitValue(c: char): nat
    requires IsDigit(c)
  {
    c as int - '0' as int
  }

  function DigitChar(d: nat): (c: char)
    requires d < 10
    ensures IsDigit(c) && DigitValue(c) == d
  {
    ('0' as int + d) as char
  }

  /** The length of the run of decimal digits that starts `s`. */
  function DigitRun(s: string): (n: nat)
    ensures n <= |s|
    ensures AllDigits(s[..n])
    ensures n == |s| || !IsDigit(s[n])
  {
    if s != [] && IsDigit(s[0]) then
      var k := DigitRun(s[1..]);
      assert s[..k + 1] == [s[0]] + s[1..][..k];
      1 + k
    else 0
  }

  /** The number that a string of decimal digits denotes. */
  function DigitsValue(d: string): nat
    requires AllDigits(d)
  {
    if d == [] then 0 else DigitsValue(d[..|d| - 1]) * 10 + DigitValue(d[|d| - 1])
  }

  function Pow10(k: nat): (r: nat)
    ensures r >= 1
  {
    if k == 0 then 1 else 10 * Pow10(k - 1)
  }

  /** The value of a decimal literal with `k` digits after the point. */
  function DecimalValue(whole: nat, frac: nat, k: nat): real {
    whole as real + frac as real / Pow10(k) as real
  }

  /** The longest prefix of `t` that reads as digits, an optional point and
      further digits (at least one digit in all); none gives NaN. */
  function ParseUnsigned(t: string): Option<real> {
    var n := DigitRun(t);
    if n < |t| && t[n] == '.' then
      var rest := t[n + 1..];
      var m := DigitRun(rest);
      if n == 0 && m == 0 then None
      else Some(DecimalValue(DigitsValue(t[..n]), DigitsValue(rest[..m]), m))
    else if n == 0 then None
    else Some(DigitsValue(t[..n]) as real)
  }

  /** parseFloat: leading white space is skipped, then an optional sign and
      the longest prefix that is a decimal literal; None stands for NaN. */
  function ParseFloat(s: string): (r: Option<real>)
    ensures TrimStart(s) == [] ==> r.None?
    ensures TrimStart(s) != [] && !IsDigit(TrimStart(s)[0]) && TrimStart(s)[0] !in "+-." ==> r.None?
    ensures TrimStart(s) != [] && TrimStart(s)[0] == '-' ==> (r.Some? <==> ParseUnsigned(TrimStart(s)[1..]).Some?)
    ensures TrimStart(s) != [] && TrimStart(s)[0] == '-' && r.Some? ==> r.value == -ParseUnsigned(TrimStart(s)[1..]).value
  {
    var t := TrimStart(s);
    if t != [] && t[0] == '-' then
      match ParseUnsigned(t[1..])
      case None => None
      case Some(v) => Some(-v)
    else if t != [] && t[0] == '+' then ParseUnsigned(t[1..])
    else ParseUnsigned(t)
  }

  /** The decimal digits of a natural number, without leading zeros. */
  function ShowNat(n: nat): (r: string)
    ensures |r| >= 1 && AllDigits(r)
  {
    if n < 10 then [DigitChar(n)] else ShowNat(n / 10) + [DigitChar(n % 10)]
  }

  /** toFixed(2) of cents / 100 for a non-negative number of cents. */
  function Fixed2(cents: nat): (r: string)
    ensures |r| >= 4 && IsDigit(r[0])
  {
    ShowNat(cents / 100) + "." + [DigitChar(cents / 10 % 10), DigitChar(cents % 10)]
  }

  lemma {:induction false} ShowNatValue(n: nat)
    ensures DigitsValue(ShowNat(n)) == n
  {
    if n >= 10 {
      var d := ShowNat(n);
      assert d[..|d| - 1] == ShowNat(n / 10);
      ShowNatValue(n / 10);
    }
  }

  /** A digit run followed by a non-digit is read up to that non-digit. */
  lemma {:induction false} DigitRunOfDigits(d: string, rest: string)
    requires AllDigits(d)
    requires rest == [] || !IsDigit(rest[0])
    ensures DigitRun(d + rest) == |d|
    decreases |d|
  {
    if d != [] {
      assert (d + rest)[1..] == d[1..] + rest;
      DigitRunOfDigits(d[1..], rest);
    } else {
      assert d + rest == rest;
    }
  }

  /** digits, a point and digits read as the decimal number they denote. */
  lemma ParseUnsignedDecimal(w: string, f: string)
    requires |w| >= 1 && AllDigits(w) && AllDigits(f)
    ensures ParseUnsigned(w + "." + f) == Some(DecimalValue(DigitsValue(w), DigitsValue(f), |f|))
  {
    var s := w + "." + f;
    var tail := "." + f;
    assert s == w + tail;
    DigitRunOfDigits(w, tail);
    var n := DigitRun(s);
    assert n == |w|;
    assert s[..n] == w;
    assert s[n] == '.';
    var rest := s[n + 1..];
    assert rest == f;
    DigitRunOfDigits(f, []);
    assert f + [] == f;
    var m := DigitRun(rest);
    assert m == |f|;
    assert rest[..m] == f;
  }

  lemma TwoDigits(cents: nat)
    ensures DigitsValue([DigitChar(cents / 10 % 10), DigitChar(cents % 10)]) == cents % 100
  {
    var a, b := DigitChar(cents / 10 % 10), DigitChar(cents % 10);
    var f := [a, b];
    assert f[..1] == [a];
    assert [a][..0] == [];
    assert DigitsValue([a]) == cents / 10 % 10;
    assert DigitsValue(f) == DigitsValue([a]) * 10 + cents % 10;
  }

  lemma CentsSplit(cents: nat)
    ensures DecimalValue(cents / 100, cents % 100, 2) == cents as real / 100.0
  {
    assert Pow10(2) == 100;
    var q, m := cents / 100, cents % 100;
    assert cents == 100 * q + m;
  }

  /** parseFloat reads back what toFixed(2) writes. */
  lemma ParseFixed2(cents: nat)
    ensures ParseFloat(Fixed2(cents)) == Some(cents as real / 100.0)
  {
    ParseFloatOfDigit(Fixed2(cents));
    Fixed2Unsigned(cents);
  }

  /** Text that starts with a digit is read without sign or leading blanks. */
  lemma ParseFloatOfDigit(s: string)
    requires s != [] && IsDigit(s[0])
    ensures ParseFloat(s) == ParseUnsigned(s)
  {
    assert TrimStart(s) == s;
  }

  lemma Fixed2Unsigned(cents: nat)
    ensures ParseUnsigned(Fixed2(cents)) == Some(cents as real / 100.0)
  {
    Fixed2Digits(cents);
    CentsSplit(cents);
  }

  lemma Fixed2Digits(cents: nat)
    ensures ParseUnsigned(Fixed2(cents)) == Some(DecimalValue(cents / 100, cents % 100, 2))
  {
    var w := ShowNat(cents / 100);
    var f := [DigitChar(cents / 10 % 10), DigitChar(cents % 10)];
    ParseUnsignedDecimal(w, f);
    ShowNatValue(cents / 100);
    TwoDigits(cents);
  }

  /** parseFloat stops at a decimal comma: "20,50" reads as 20. */
  lemma ParseStopsAtComma(n: nat, tail: string)
    ensures ParseFloat(ShowNat(n) + "," + tail) == Some(n as real)
  {
    var w := ShowNat(n);
    var s := w + "," + tail;
    assert s == w + ("," + tail);
    assert TrimStart(s) == s;
    DigitRunOfDigits(w, "," + tail);
    assert s[..|w|] == w;
    ShowNatValue(n);
  }
}

/**
 * Money as integer cents. Every amount the statement patterns accept has exactly two decimals,
 * so `parseFloat`, `toFixed(2)` and the en-US currency format are modelled exactly on cents.
 */
module Money {
  import opened Text

  function Abs(x: int): nat {
    if x < 0 then -x else x
  }

  /** Two decimal digits with a leading zero, as `toFixed(2)` prints the cents. */
  function Pad2(n: nat): (r: string)
    requires n < 100
    ensures |r| == 2 && AllDigits(r) && DigitsValue(r) == n
  {
    var r := [DigitChar(n / 10), DigitChar(n % 10)];
    assert r[..1] == [DigitChar(n / 10)];
    assert [DigitChar(n / 10)][..0] == [];
    assert DigitsValue(r[..1]) == n / 10;
    r
  }

  /** Three decimal digits with leading zeros, one thousands group. */
  function Pad3(n: nat): (r: string)
    requires n < 1000
    ensures |r| == 3 && AllDigits(r) && DigitsValue(r) == n
  {
    var r := [DigitChar(n / 100)] + Pad2(n % 100);
    DigitsValueAppend([DigitChar(n / 100)], Pad2(n % 100));
    r
  }

  /** `(cents / 100).toFixed(2)` in JavaScript: optional minus, whole units, a point and two digits. */
  function ToFixed2(cents: int): string {
    (if cents < 0 then "-" else "") + DecimalString(Abs(cents) / 100) + "." + Pad2(Abs(cents) % 100)
  }

  /** Whole units with a comma between thousands groups, as the en-US number format writes them. */
  function Grouped(n: nat): (r: string)
    ensures |r| >= 1 && IsDigit(r[0])
    ensures forall i :: 0 <= i < |r| ==> IsDigit(r[i]) || r[i] == ','
  {
    if n < 1000 then DecimalString(n) else Grouped(n / 1000) + "," + Pad3(n % 1000)
  }

  /** `Intl.NumberFormat('en-US', {style: 'currency', currency: 'USD'})` of a non-negative amount. */
  function Usd(cents: nat): string {
    "$" + Grouped(cents / 100) + "." + Pad2(cents % 100)
  }

  /** `s.replace(/,/g, '')`. */
  function StripCommas(s: string): (r: string)
    ensures forall i :: 0 <= i < |r| ==> r[i] != ','
    ensures |r| <= |s|
  {
    if s == [] then [] else (if s[0] == ',' then [] else [s[0]]) + StripCommas(s[1..])
  }

  lemma {:induction false} StripCommasAppend(a: string, b: string)
    ensures StripCommas(a + b) == StripCommas(a) + StripCommas(b)
    decreases |a|
  {
    if a == [] {
      assert a + b == b;
    } else {
      assert (a + b)[1..] == a[1..] + b;
      StripCommasAppend(a[1..], b);
    }
  }

  lemma {:induction false} StripCommasKeepsDigits(s: string)
    requires AllDigits(s)
    ensures StripCommas(s) == s
    decreases |s|
  {
    if s != [] {
      StripCommasKeepsDigits(s[1..]);
      assert s == [s[0]] + s[1..];
    }
  }

  /**
   * The cents denoted by an amount token `[\d,]+\.\d{2}` split at its point: `parseFloat` of the
   * token with its commas removed, times 100. An integer part made only of commas counts as zero,
   * as `parseFloat(".12")` does.
   */
  function TokenCents(intPart: string, frac: string): nat {
    DigitsValue(StripCommas(intPart)) * 100 + DigitsValue(frac)
  }

  /** Removing the commas from a grouped number and reading the digits gives the number back. */
  lemma {:induction false} GroupedValue(n: nat)
    ensures DigitsValue(StripCommas(Grouped(n))) == n
  {
    if n < 1000 {
      StripCommasKeepsDigits(DecimalString(n));
      DecimalRoundTrip(n);
    } else {
      var g := Grouped(n / 1000);
      var p := Pad3(n % 1000);
      var sg := StripCommas(g);
      StripCommasAppend(g + ",", p);
      StripCommasAppend(g, ",");
      assert StripCommas(",") == [];
      assert StripCommas(g + ",") == sg;
      StripCommasKeepsDigits(p);
      assert StripCommas(Grouped(n)) == sg + p;
      GroupedValue(n / 1000);
      DigitsValueAppend(sg, p);
      assert Pow10(|p|) == 1000;
      assert DigitsValue(sg + p) == (n / 1000) * 1000 + n % 1000;
    }
  }

  /** The digits before and after the point of a formatted amount denote the amount again. */
  lemma UsdTokenValue(cents: nat)
    ensures TokenCents(Grouped(cents / 100), Pad2(cents % 100)) == cents
  {
    GroupedValue(cents / 100);
  }

  lemma ToFixed2TokenValue(cents: int)
    ensures TokenCents(DecimalString(Abs(cents) / 100), Pad2(Abs(cents) % 100)) == Abs(cents)
  {
    StripCommasKeepsDigits(DecimalString(Abs(cents) / 100));
    DecimalRoundTrip(Abs(cents) / 100);
  }

  /** `toFixed(2)` and the currency format write the same two decimals, and a minus only for negative amounts. */
  lemma ToFixed2Sign(cents: int)
    ensures |ToFixed2(cents)| >= 4
    ensures ToFixed2(cents)[0] == '-' <==> cents < 0
    ensures ToFixed2(cents)[|ToFixed2(cents)| - 2..] == Pad2(Abs(cents) % 100)
  {
    var d := DecimalString(Abs(cents) / 100);
    assert IsDigit(d[0]);
  }

  /** `'$' + x.toFixed(2)`: the sign, if any, comes after the dollar sign. */
  function DollarFixed(cents: int): (r: string)
    ensures |r| >= 5 && r[0] == '$'
  {
    ToFixed2Sign(cents);
    "$" + ToFixed2(cents)
  }

  /**
   * A negative amount is written `$-` and its magnitude, such as `$-20.00`; the digits read back
   * as the magnitude.
   */
  lemma DollarFixedSign(cents: int)
    ensures DollarFixed(cents)[1] == '-' <==> cents < 0
    ensures var r := DollarFixed(cents); var u := if cents < 0 then r[2..] else r[1..];
      |u| >= 4 && u[|u| - 3] == '.' && TokenCents(u[..|u| - 3], u[|u| - 2..]) == Abs(cents)
  {
    ToFixed2Sign(cents);
    ToFixed2TokenValue(cents);
    var d, p := DecimalString(Abs(cents) / 100), Pad2(Abs(cents) % 100);
    var u := d + "." + p;
    assert u[..|u| - 3] == d && u[|u| - 2..] == p;
    var r := DollarFixed(cents);
    if cents < 0 {
      assert r == "$-" + u;
      assert r[2..] == u;
    } else {
      assert r == "$" + u;
      assert r[1..] == u;
      assert IsDigit(d[0]);
    }
  }

  lemma DollarFixedZero()
    ensures DollarFixed(0) == "$0.00"
  {
    assert DecimalString(0) == "0";
    assert Pad2(0) == "00";
  }
}

/** Java's numeric conversions written out over Dafny's unbounded int and real:
    the (int) cast of a double, int division, Integer.toString and the "%.2f" format. */
module Numbers {

  /** The Java cast (int) d: truncation toward zero (not Floor, which differs for negatives). */
  function Trunc(x: real): (r: int)
    ensures x >= 0.0 ==> 0 <= r && r as real <= x < r as real + 1.0
    ensures x < 0.0 ==> r <= 0 && r as real - 1.0 < x <= r as real
  {
    if x >= 0.0 then x.Floor else -((-x).Floor)
  }

  lemma MulNonPositive(x: int, y: int)
    requires x <= 0 && y > 0
    ensures x * y <= 0
  {
  }

  /** Dafny's division of a non-negative dividend by a positive divisor. */
  lemma DivBounds(a: int, b: int)
    requires a >= 0 && b > 0
    ensures 0 <= a / b && b * (a / b) <= a < b * (a / b) + b
  {
    var q, r := a / b, a % b;
    assert q * b + r == a && 0 <= r < b;
    if q < 0 {
      MulNonPositive(q + 1, b);
      assert false;
    }
  }

  /** Java int division a / b, which truncates toward zero. */
  function JavaDiv(a: int, b: int): (q: int)
    requires b > 0
    ensures a >= 0 ==> 0 <= q && b * q <= a < b * q + b
    ensures a < 0 ==> q <= 0 && b * q - b < a <= b * q
  {
    if a >= 0 then
      DivBounds(a, b);
      a / b
    else
      DivBounds(-a, b);
      -((-a) / b)
  }

  function DigitChar(d: int): (c: char)
    requires 0 <= d < 10
    ensures '0' <= c <= '9'
  {
    (48 + d) as char
  }

  predicate IsDigits(s: string) {
    forall i :: 0 <= i < |s| ==> '0' <= s[i] <= '9'
  }

  /** Integer.toString of a non-negative value: decimal digits, no leading zero. */
  function NatToString(n: nat): (s: string)
    ensures |s| >= 1 && IsDigits(s)
    ensures s[0] == '0' ==> n == 0
    decreases n
  {
    if n < 10 then [DigitChar(n)] else NatToString(n / 10) + [DigitChar(n % 10)]
  }

  /** Integer.toString: a minus sign before the digits of a negative value. */
  function IntToString(i: int): (s: string)
    ensures |s| >= 1
    ensures s[0] == '-' <==> i < 0
    ensures i >= 0 ==> s == NatToString(i)
    ensures i < 0 ==> s[1..] == NatToString(-i)
  {
    if i < 0 then "-" + NatToString(-i) else NatToString(i)
  }

  /** Integer.parseInt restricted to digit strings: the reading-back partner of NatToString. */
  function ParseDigits(s: string): nat
    requires IsDigits(s)
  {
    if s == [] then 0 else 10 * ParseDigits(s[..|s| - 1]) + (s[|s| - 1] as int - 48)
  }

  /** Printing a number and reading it back gives the number. */
  lemma {:induction false} ParseNatToString(n: nat)
    ensures ParseDigits(NatToString(n)) == n
    decreases n
  {
    var s := NatToString(n);
    if n >= 10 {
      ParseNatToString(n / 10);
      assert s[..|s| - 1] == NatToString(n / 10);
    }
  }

  /** The value x * 100 rounded half up, as java.util.Formatter rounds for "%.2f". */
  function HundredthsHalfUp(x: real): (n: nat)
    requires x >= 0.0
    ensures n as real - 0.5 <= x * 100.0 < n as real + 0.5
  {
    (x * 100.0 + 0.5).Floor
  }

  /** The two decimals of a fraction 0 <= f < 100. */
  function Decimals(f: nat): (s: string)
    requires f < 100
    ensures |s| == 2 && IsDigits(s) && ParseDigits(s) == f
  {
    var s := [DigitChar(f / 10), DigitChar(f % 10)];
    assert s[..1] == [DigitChar(f / 10)] && s[..1][..0] == [];
    assert ParseDigits(s[..1]) == f / 10;
    s
  }

  /** A two-digit number prints as its two decimals. */
  lemma TwoDigitText(n: nat)
    requires 10 <= n < 100
    ensures NatToString(n) == Decimals(n)
  {
    assert NatToString(n / 10) == [DigitChar(n / 10)];
  }

  /** The pieces of a "%.2f" text: the whole part before the dot, the decimals after it. */
  lemma Fixed2Pieces(whole: string, decimals: string)
    requires |whole| >= 1 && |decimals| == 2
    ensures var s := whole + "." + decimals;
            |s| >= 4 && s[|s| - 3] == '.' && s[..|s| - 3] == whole && s[|s| - 2..] == decimals && s[0] == whole[0]
  {
  }

  /** String.format("%.2f", x) for x >= 0: integer part, a dot, two decimals. */
  function Fixed2NonNegative(x: real): (s: string)
    requires x >= 0.0
    ensures |s| >= 4 && s[|s| - 3] == '.'
    ensures IsDigits(s[..|s| - 3]) && IsDigits(s[|s| - 2..])
    ensures 100 * ParseDigits(s[..|s| - 3]) + ParseDigits(s[|s| - 2..]) == HundredthsHalfUp(x)
    ensures s[0] == '0' ==> |s| == 4
  {
    var n := HundredthsHalfUp(x);
    var whole := NatToString(n / 100);
    var decimals := Decimals(n % 100);
    Fixed2Pieces(whole, decimals);
    ParseNatToString(n / 100);
    assert n / 100 == 0 ==> |whole| == 1;
    whole + "." + decimals
  }

  /** String.format("%.2f", x): the magnitude rounded half up, with a minus sign for a
      negative x (Java prints "-0.00" for a small negative value). */
  function FormatFixed2(x: real): (s: string)
    ensures |s| >= 4 && s[|s| - 3] == '.'
    ensures s[0] == '-' <==> x < 0.0
    ensures var d := if x < 0.0 then s[1..] else s;
            && |d| >= 4 && IsDigits(d[..|d| - 3]) && IsDigits(d[|d| - 2..])
            && 100 * ParseDigits(d[..|d| - 3]) + ParseDigits(d[|d| - 2..]) == HundredthsHalfUp(if x < 0.0 then -x else x)
            && (d[0] == '0' ==> |d| == 4)
  {
    if x < 0.0 then
      var magnitude := Fixed2NonNegative(-x);
      assert ("-" + magnitude)[1..] == magnitude;
      "-" + magnitude
    else
      Fixed2NonNegative(x)
  }
}

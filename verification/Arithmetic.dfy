// Powers of two, and Math.round and toFixed on exact reals. Each lemma states one fact about a product or a quotient.
module Arithmetic {

  function Pow2(n: nat): (p: nat)
    ensures p > 0
  {
    if n == 0 then 1 else 2 * Pow2(n - 1)
  }

  // Floor division.
  function DivBy(x: nat, d: nat): (q: nat)
    requires d > 0
  {
    x / d
  }

  lemma Ratio(x: real, y: real)
    requires y > 0.0
    ensures x / y * y == x && x * y / y == x
  {
  }

  lemma Distribute(x: real, y: real, z: real)
    ensures x * (y + z) == x * y + x * z && x * (y - z) == x * y - x * z
  {
  }

  lemma PositiveProduct(d: real, e: real)
    requires d > 0.0 && e > 0.0
    ensures d * e > 0.0
  {
  }

  lemma LessOfScaled(a: real, b: real, scale: real)
    requires scale > 0.0 && scale * a < scale * b
    ensures a < b
  {
    if b < a {
      PositiveProduct(scale, a - b);
      Distribute(scale, a, b);
    }
  }

  lemma AtMostOfScaled(a: real, b: real, scale: real)
    requires scale > 0.0 && scale * a <= scale * b
    ensures a <= b
  {
    if b < a {
      PositiveProduct(scale, a - b);
      Distribute(scale, a, b);
    }
  }

  // n is the nearest integer to x * scale, so n / scale is within half a unit of x.
  lemma Nearest(x: real, scale: real, n: real)
    requires scale > 0.0 && scale * x - 0.5 < n <= scale * x + 0.5
    ensures x - 0.5 / scale < n / scale <= x + 0.5 / scale
  {
    var half := 0.5 / scale;
    Ratio(0.5, scale);
    Ratio(n, scale);
    Distribute(scale, x, half);
    LessOfScaled(x - half, n / scale, scale);
    AtMostOfScaled(n / scale, x + half, scale);
  }

  // Math.round(x * scale)
  function Units(x: real, scale: int): (n: int)
    ensures scale as real * x - 0.5 < n as real <= scale as real * x + 0.5
  {
    (scale as real * x + 0.5).Floor
  }

  // Math.round(x * scale) / scale
  function RoundTo(x: real, scale: int): (r: real)
    requires scale > 0
    ensures x - 0.5 / scale as real < r <= x + 0.5 / scale as real
  {
    Nearest(x, scale as real, Units(x, scale) as real);
    Units(x, scale) as real / scale as real
  }

  // Number(x.toFixed(digits)) for scale = 10 ** digits: the magnitude is rounded and the sign put back.
  function ToFixed(x: real, scale: int): (r: real)
    requires scale > 0
    ensures x - 0.5 / scale as real <= r <= x + 0.5 / scale as real
  {
    if x < 0.0 then -RoundTo(-x, scale) else RoundTo(x, scale)
  }

  lemma NonNegativeProduct(x: real, y: real)
    requires x >= 0.0 && y >= 0.0
    ensures x * y >= 0.0
  {
  }

  lemma NonNegativeQuotient(x: real, y: real)
    requires x >= 0.0 && y > 0.0
    ensures x / y >= 0.0
  {
  }

  lemma RoundNonNegative(x: real, scale: int)
    requires x >= 0.0 && scale > 0
    ensures RoundTo(x, scale) >= 0.0
  {
    NonNegativeProduct(scale as real, x);
    NonNegativeQuotient(Units(x, scale) as real, scale as real);
  }

  // Rounding does not pass a whole number.
  lemma RoundAtMost(x: real, most: int, scale: int)
    requires x <= most as real && scale > 0
    ensures RoundTo(x, scale) <= most as real
  {
    var s := scale as real;
    NonNegativeProduct(s, most as real - x);
    Distribute(s, most as real, x);
    WholeProduct(scale, most);
    assert Units(x, scale) <= scale * most;
    Ratio(Units(x, scale) as real, s);
    AtMostOfScaled(RoundTo(x, scale), most as real, s);
  }

  lemma WholeProduct(m: int, n: int)
    ensures m as real * n as real == (m * n) as real
  {
  }

  lemma WholeUnits(x: int, scale: int)
    ensures Units(x as real, scale) == scale * x
  {
    WholeProduct(scale, x);
  }

  lemma Cancels(x: real, y: real)
    requires y > 0.0
    ensures y * x / y == x
  {
  }

  // A whole number is not moved by rounding.
  lemma RoundWhole(x: int, scale: int)
    requires scale > 0
    ensures RoundTo(x as real, scale) == x as real
  {
    WholeUnits(x, scale);
    WholeProduct(scale, x);
    Cancels(x as real, scale as real);
  }

  function Scaled(x: real, scale: int): real { x * scale as real }

  predicate IsCount(x: real, n: int) { x == n as real }

  ghost predicate Whole(x: real) { exists n :: IsCount(x, n) }

  lemma RoundToCounts(x: real, scale: int)
    requires scale > 0
    ensures Scaled(RoundTo(x, scale), scale) == Units(x, scale) as real
  {
    Ratio(Units(x, scale) as real, scale as real);
  }

  lemma ScaledOpposite(x: real, scale: int)
    ensures Scaled(-x, scale) == -Scaled(x, scale)
  {
  }

  // A rounded figure has the digits asked for, and with the bound of its contract that makes it the only one.
  lemma RoundedIsWhole(x: real, scale: int)
    requires scale > 0
    ensures Whole(Scaled(RoundTo(x, scale), scale)) && Whole(Scaled(ToFixed(x, scale), scale))
  {
    RoundToCounts(x, scale);
    assert IsCount(Scaled(RoundTo(x, scale), scale), Units(x, scale));
    if x < 0.0 {
      RoundToCounts(-x, scale);
      ScaledOpposite(RoundTo(-x, scale), scale);
      assert IsCount(Scaled(ToFixed(x, scale), scale), -Units(-x, scale));
    }
  }

  // toFixed treats both signs alike, and rounds what is not negative as RoundTo does.
  lemma FixedMirrors(x: real, scale: int)
    requires scale > 0
    ensures x != 0.0 ==> ToFixed(-x, scale) == -ToFixed(x, scale)
    ensures x >= 0.0 ==> ToFixed(x, scale) == RoundTo(x, scale)
  {
  }

  lemma PowersOfTwo(n: nat)
    ensures Pow2(0) == 1 && Pow2(n + 1) == Pow2(n) + Pow2(n)
  {
  }
}

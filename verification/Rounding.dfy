// Python's int() and round() on exact reals.
module Rounding {

  // int(): towards zero.
  function Truncate(x: real): int { if x >= 0.0 then x.Floor else -((-x).Floor) }

  // round(): to the nearest integer, ties to even.
  function Round(x: real): int {
    var f := x.Floor;
    var d := x - f as real;
    if d < 0.5 || (d == 0.5 && f % 2 == 0) then f else f + 1
  }

  // round(x, k), with scale = 10^k
  function RoundTo(x: real, scale: nat): real
    requires scale > 0
  {
    Over(Round(Times(x, scale)), scale)
  }

  function Times(x: real, scale: nat): real { x * scale as real }

  function Over(n: int, scale: nat): real
    requires scale > 0
  {
    n as real / scale as real
  }

  lemma RoundMonotone(x: real, y: real)
    requires x <= y
    ensures Round(x) <= Round(y)
  {
    assert x.Floor <= y.Floor;
  }

  lemma RoundToMonotone(x: real, y: real, scale: nat)
    requires scale > 0 && x <= y
    ensures RoundTo(x, scale) <= RoundTo(y, scale)
  {
    TimesMonotone(x, y, scale);
    RoundMonotone(Times(x, scale), Times(y, scale));
    OverMonotone(Round(Times(x, scale)), Round(Times(y, scale)), scale);
  }

  lemma TimesMonotone(x: real, y: real, scale: nat)
    requires scale > 0 && x <= y
    ensures Times(x, scale) <= Times(y, scale)
  {}

  lemma OverMonotone(m: int, n: int, scale: nat)
    requires scale > 0 && m <= n
    ensures Over(m, scale) <= Over(n, scale)
  {}

  lemma TruncateMonotone(x: real, y: real)
    requires 0.0 <= x <= y
    ensures Truncate(x) <= Truncate(y)
  {}

  lemma RoundWhole(n: int)
    ensures Round(n as real) == n
  {}

  lemma TimesWhole(n: int, scale: nat)
    ensures Times(n as real, scale) == (n * scale) as real
  {}

  lemma OverMultiple(n: int, scale: nat)
    requires scale > 0
    ensures Over(n * scale, scale) == n as real
  {
    assert (n * scale) as real == n as real * scale as real;
  }

  // Whole numbers are left alone.
  lemma RoundToWhole(n: int, scale: nat)
    requires scale > 0
    ensures RoundTo(n as real, scale) == n as real
  {
    TimesWhole(n, scale);
    RoundWhole(n * scale);
    OverMultiple(n, scale);
  }

  // The nearest integer, the even one when two are equally near.
  lemma RoundIsNearest(x: real)
    ensures var d := Round(x) as real - x; -0.5 <= d <= 0.5 && (d == 0.5 || d == -0.5 ==> Round(x) % 2 == 0)
  {}

  lemma TruncateTowardsZero(x: real)
    ensures var n := Truncate(x) as real; if x >= 0.0 then n <= x < n + 1.0 else n - 1.0 < x <= n
  {}

  // It reaches a threshold from one half below on, that half included when the threshold is even.
  lemma RoundReaches(x: real, n: int)
    ensures Round(x) >= n <==> if n % 2 == 0 then x >= n as real - 0.5 else x > n as real - 0.5
  {
    var f := x.Floor;
    assert f <= Round(x) <= f + 1;
    if n == f + 1 {
      assert Round(x) >= n <==> x - f as real > 0.5 || (x - f as real == 0.5 && f % 2 == 1);
      assert n % 2 == 0 <==> f % 2 == 1;
    }
  }

  // Rounding moves a number by half a unit of the last place at most.
  lemma RoundToIsNear(x: real, scale: nat, half: real)
    requires scale > 0 && half * scale as real == 0.5
    ensures -half <= RoundTo(x, scale) - x <= half
  {
    var n := Round(Times(x, scale));
    RoundIsNearest(Times(x, scale));
    OverTimes(n, scale);
    Scaled(Over(n, scale), x, scale as real, half);
  }

  lemma OverTimes(n: int, scale: nat)
    requires scale > 0
    ensures Over(n, scale) * scale as real == n as real
  {}

  lemma Scaled(y: real, x: real, s: real, half: real)
    requires s > 0.0 && half * s == 0.5 && -0.5 <= y * s - x * s <= 0.5
    ensures -half <= y - x <= half
  {
    Distribute(y, x, s);
    NotBeyond(y - x, half, s, y * s - x * s);
    Distribute(x, y, s);
    NotBeyond(x - y, half, s, x * s - y * s);
  }

  lemma Distribute(a: real, b: real, s: real)
    ensures (a - b) * s == a * s - b * s
  {}

  lemma NotBeyond(d: real, half: real, s: real, product: real)
    requires s > 0.0 && product == d * s && half * s == 0.5 && product <= 0.5
    ensures d <= half
  {
    Distribute(d, half, s);
    NonPositiveFactor(d - half, s, product - 0.5);
  }

  lemma NonPositiveFactor(x: real, s: real, product: real)
    requires s > 0.0 && product == x * s && product <= 0.0
    ensures x <= 0.0
  {}
}

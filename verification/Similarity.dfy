// Cosine similarity of services/knowledge-memory (similarity.py) over exact reals.
module Similarity {

  type Vector = seq<real>

  // `math.sqrt` is a parameter: any function that gives the non-negative square root.
  ghost predicate IsSqrt(sqrt: real -> real) {
    forall x: real :: x >= 0.0 ==> sqrt(x) >= 0.0 && sqrt(x) * sqrt(x) == x
  }

  function Dot(a: Vector, b: Vector): real
    requires |a| == |b|
  {
    if a == [] then 0.0 else a[0] * b[0] + Dot(a[1..], b[1..])
  }

  function Scale(k: real, a: Vector): Vector { seq(|a|, i requires 0 <= i < |a| => k * a[i]) }

  function Cosine(sqrt: real -> real, a: Vector, b: Vector): real {
    if |a| != |b| || a == [] then 0.0
    else
      var normA := sqrt(Dot(a, a));
      var normB := sqrt(Dot(b, b));
      if normA == 0.0 || normB == 0.0 then 0.0
      else
        ProductNonZero(normA, normB);
        Ratio(Dot(a, b), normA, normB)
  }

  function Ratio(dot: real, normA: real, normB: real): real
    requires normA * normB != 0.0
  {
    dot / (normA * normB)
  }

  // ------------------------------------------------- products and squares

  lemma ProductNonZero(x: real, y: real)
    requires x != 0.0 && y != 0.0
    ensures x * y != 0.0
  {}

  lemma ProductPositive(x: real, y: real)
    requires x > 0.0 && y > 0.0
    ensures x * y > 0.0
  {}

  // Products are named in these two, so that callers reason about a plain variable.
  lemma ProductSign(x: real, y: real, product: real)
    requires product == x * y && ((x > 0.0 && y > 0.0) || (x < 0.0 && y < 0.0))
    ensures product > 0.0
  {}

  lemma SquareSign(x: real, square: real)
    requires square == x * x
    ensures if x == 0.0 then square == 0.0 else square > 0.0
  {
    if x != 0.0 { ProductSign(x, x, square); }
  }

  // The square is increasing on the non-negative reals.
  lemma SquareMonotone(x: real, y: real)
    requires 0.0 <= x < y
    ensures x * x < y * y
  {
    assert y * y - x * x == (y - x) * (y + x);
    ProductPositive(y - x, y + x);
  }

  lemma SquareInjective(x: real, y: real)
    requires x >= 0.0 && y >= 0.0 && x * x == y * y
    ensures x == y
  {
    if x < y { SquareMonotone(x, y); }
    if y < x { SquareMonotone(y, x); }
  }

  // ------------------------------------------------------------ dot product

  ghost predicate IsZero(a: Vector) { forall i | 0 <= i < |a| :: a[i] == 0.0 }

  lemma {:induction false} DotSymmetric(a: Vector, b: Vector)
    requires |a| == |b|
    ensures Dot(a, b) == Dot(b, a)
  {
    if a != [] { DotSymmetric(a[1..], b[1..]); }
  }

  lemma {:induction false} SquareNonNegative(a: Vector)
    ensures if IsZero(a) then Dot(a, a) == 0.0 else Dot(a, a) > 0.0
  {
    if a != [] {
      SquareNonNegative(a[1..]);
      SquareSign(a[0], a[0] * a[0]);
      if IsZero(a[1..]) && a[0] == 0.0 {
        forall i | 0 <= i < |a| ensures a[i] == 0.0 { if i > 0 { assert a[1..][i - 1] == 0.0; } }
      } else if IsZero(a) {
        assert a[0] == 0.0;
        forall i | 0 <= i < |a| - 1 ensures a[1..][i] == 0.0 { assert a[i + 1] == 0.0; }
      }
    }
  }

  lemma {:induction false} DotScale(k: real, a: Vector, b: Vector)
    requires |a| == |b|
    ensures Dot(Scale(k, a), b) == k * Dot(a, b)
  {
    if a != [] {
      DotScale(k, a[1..], b[1..]);
      var s := Scale(k, a);
      forall i | 0 <= i < |a| - 1 ensures s[1..][i] == Scale(k, a[1..])[i] {}
      assert s[1..] == Scale(k, a[1..]);
      assert k * (a[0] * b[0] + Dot(a[1..], b[1..])) == (k * a[0]) * b[0] + k * Dot(a[1..], b[1..]);
    }
  }

  // |t a + b|^2, expanded.
  function Quadratic(t: real, aa: real, ab: real, bb: real): real {
    t * t * aa + 2.0 * t * ab + bb
  }

  lemma QuadraticAdds(t: real, aa: real, ab: real, bb: real, aa': real, ab': real, bb': real)
    ensures Quadratic(t, aa + aa', ab + ab', bb + bb') == Quadratic(t, aa, ab, bb) + Quadratic(t, aa', ab', bb')
  {}

  lemma QuadraticSquare(t: real, x: real, y: real)
    ensures Quadratic(t, x * x, x * y, y * y) >= 0.0
  {
    var z := t * x + y;
    SquareSign(z, z * z);
    calc {
      z * z;
      (t * x) * (t * x) + 2.0 * ((t * x) * y) + y * y;
      Quadratic(t, x * x, x * y, y * y);
    }
  }

  lemma {:induction false} QuadraticNonNegative(t: real, a: Vector, b: Vector)
    requires |a| == |b|
    ensures Quadratic(t, Dot(a, a), Dot(a, b), Dot(b, b)) >= 0.0
  {
    if a != [] {
      QuadraticNonNegative(t, a[1..], b[1..]);
      QuadraticStep(t, a[0], b[0], Dot(a[1..], a[1..]), Dot(a[1..], b[1..]), Dot(b[1..], b[1..]));
    }
  }

  lemma QuadraticStep(t: real, x: real, y: real, aa: real, ab: real, bb: real)
    requires Quadratic(t, aa, ab, bb) >= 0.0
    ensures Quadratic(t, x * x + aa, x * y + ab, y * y + bb) >= 0.0
  {
    QuadraticSquare(t, x, y);
    QuadraticAdds(t, x * x, x * y, y * y, aa, ab, bb);
  }

  // A quadratic that is never negative has a non-positive discriminant.
  lemma Discriminant(aa: real, ab: real, bb: real)
    requires aa > 0.0 && Quadratic(-ab / aa, aa, ab, bb) >= 0.0
    ensures ab * ab <= aa * bb
  {
    var t := -ab / aa;
    assert t * aa == -ab;
    calc {
      Quadratic(t, aa, ab, bb);
      t * (t * aa) + 2.0 * t * ab + bb;
      t * (-ab) + 2.0 * t * ab + bb;
      t * ab + bb;
    }
    calc {
      aa * (t * ab + bb);
      (t * aa) * ab + aa * bb;
      (-ab) * ab + aa * bb;
      aa * bb - ab * ab;
    }
    if t * ab + bb > 0.0 { ProductPositive(aa, t * ab + bb); }
  }

  /** Cauchy-Schwarz, for vectors of any length. */
  lemma CauchySchwarz(a: Vector, b: Vector)
    requires |a| == |b|
    ensures Dot(a, b) * Dot(a, b) <= Dot(a, a) * Dot(b, b)
  {
    SquareNonNegative(a);
    if Dot(a, a) == 0.0 {
      ZeroDot(a, b);
    } else {
      QuadraticNonNegative(-Dot(a, b) / Dot(a, a), a, b);
      Discriminant(Dot(a, a), Dot(a, b), Dot(b, b));
    }
  }

  lemma {:induction false} ZeroDot(a: Vector, b: Vector)
    requires |a| == |b| && IsZero(a)
    ensures Dot(a, b) == 0.0
  {
    if a != [] {
      assert a[0] == 0.0;
      ZeroDot(a[1..], b[1..]);
    }
  }

  // A norm is non-negative, squares to the dot product, and is zero exactly for zero vectors.
  lemma NormPositive(sqrt: real -> real, a: Vector)
    requires IsSqrt(sqrt)
    ensures sqrt(Dot(a, a)) * sqrt(Dot(a, a)) == Dot(a, a)
    ensures if IsZero(a) then sqrt(Dot(a, a)) == 0.0 else sqrt(Dot(a, a)) > 0.0
  {
    SquareNonNegative(a);
    RootSign(sqrt(Dot(a, a)), Dot(a, a));
  }

  lemma RootSign(r: real, n: real)
    requires r >= 0.0 && r * r == n && n >= 0.0
    ensures if n == 0.0 then r == 0.0 else r > 0.0
  {
    SquareSign(r, n);
  }

  lemma SquareBound(d: real, n: real)
    requires n > 0.0 && d * d <= n * n
    ensures -1.0 <= d / n <= 1.0
  {
    if d > n { SquareMonotone(n, d); }
    if -d > n {
      SquareMonotone(n, -d);
      assert (-d) * (-d) == d * d;
    }
    QuotientAtMostOne(d, n);
    QuotientAtMostOne(-d, n);
    assert (-d) / n == -(d / n);
  }

  lemma QuotientAtMostOne(d: real, n: real)
    requires n > 0.0 && d <= n
    ensures d / n <= 1.0
  {
    var q := d / n;
    assert q * n == d;
    if q > 1.0 { ProductPositive(q - 1.0, n); }
  }

  /** The result is always in [-1, 1]. */
  lemma CosineBounded(sqrt: real -> real, a: Vector, b: Vector)
    requires IsSqrt(sqrt)
    ensures -1.0 <= Cosine(sqrt, a, b) <= 1.0
  {
    if |a| == |b| && a != [] {
      var na, nb := sqrt(Dot(a, a)), sqrt(Dot(b, b));
      NormPositive(sqrt, a);
      NormPositive(sqrt, b);
      if na != 0.0 && nb != 0.0 {
        CauchySchwarz(a, b);
        RatioBounded(Dot(a, b), na, nb, Dot(a, a), Dot(b, b));
        assert Cosine(sqrt, a, b) == Ratio(Dot(a, b), na, nb);
      }
    }
  }

  lemma RatioBounded(d: real, na: real, nb: real, aa: real, bb: real)
    requires na > 0.0 && nb > 0.0 && na * na == aa && nb * nb == bb && d * d <= aa * bb
    ensures na * nb != 0.0 && -1.0 <= Ratio(d, na, nb) <= 1.0
  {
    ProductSquare(na, nb);
    ProductPositive(na, nb);
    SquareBound(d, na * nb);
  }

  lemma ProductSquare(x: real, y: real)
    ensures (x * y) * (x * y) == (x * x) * (y * y)
  {}

  lemma CosineSymmetric(sqrt: real -> real, a: Vector, b: Vector)
    ensures Cosine(sqrt, a, b) == Cosine(sqrt, b, a)
  {
    if |a| == |b| {
      DotSymmetric(a, b);
      var na, nb := sqrt(Dot(a, a)), sqrt(Dot(b, b));
      assert na * nb == nb * na;
    }
  }

  /** 1 for a non-zero vector with itself. */
  lemma CosineOfSelf(sqrt: real -> real, a: Vector)
    requires IsSqrt(sqrt)
    ensures Cosine(sqrt, a, a) == if IsZero(a) then 0.0 else 1.0
  {
    NormPositive(sqrt, a);
    SquareNonNegative(a);
    var n := sqrt(Dot(a, a));
    if n != 0.0 {
      ProductNonZero(n, n);
      CancelFactor(n * n, 1.0, 1.0, Dot(a, a), n * n);
      assert Cosine(sqrt, a, a) == Ratio(Dot(a, a), n, n);
    }
  }

  lemma SqrtOfScaledSquare(sqrt: real -> real, k: real, n: real, scaled: real)
    requires IsSqrt(sqrt) && k > 0.0 && n >= 0.0 && scaled == k * k * n
    ensures sqrt(scaled) == k * sqrt(n)
  {
    var y := k * sqrt(n);
    ScaledSquare(k, sqrt(n), n);
    SquareSign(y, y * y);
    SquareInjective(sqrt(scaled), y);
  }

  lemma ScaledSquare(k: real, x: real, n: real)
    requires k > 0.0 && x >= 0.0 && x * x == n
    ensures (k * x) * (k * x) == k * k * n && k * x >= 0.0
  {
    calc { (k * x) * (k * x); k * k * (x * x); k * k * n; }
    if x > 0.0 { ProductPositive(k, x); }
  }

  /** Positive scaling of either vector does not change the similarity. */
  lemma CosineScaleInvariant(sqrt: real -> real, k: real, a: Vector, b: Vector)
    requires IsSqrt(sqrt) && k > 0.0
    ensures Cosine(sqrt, Scale(k, a), b) == Cosine(sqrt, a, b) == Cosine(sqrt, b, Scale(k, a))
  {
    CosineSymmetric(sqrt, Scale(k, a), b);
    if |a| == |b| && a != [] {
      var s := Scale(k, a);
      var na, nb := sqrt(Dot(a, a)), sqrt(Dot(b, b));
      var ns := sqrt(Dot(s, s));
      DotScale(k, a, b);
      ScaledNorm(sqrt, k, a);
      ProductNonZeroIff(k, na);
      if na != 0.0 && nb != 0.0 {
        ScaledQuotient(k, Dot(a, b), na, nb, Dot(s, b), ns);
        assert Cosine(sqrt, s, b) == Ratio(Dot(s, b), ns, nb);
        assert Cosine(sqrt, a, b) == Ratio(Dot(a, b), na, nb);
      }
    }
  }

  lemma ScaledQuotient(k: real, d: real, x: real, y: real, kd: real, kx: real)
    requires k != 0.0 && x != 0.0 && y != 0.0 && kd == k * d && kx == k * x
    ensures x * y != 0.0 && kx * y != 0.0 && Ratio(kd, kx, y) == Ratio(d, x, y)
  {
    ProductNonZero(x, y);
    var p := x * y;
    assert kx * y == k * p by { assert (k * x) * y == k * (x * y); }
    CancelFactor(k, d, p, kd, kx * y);
  }

  lemma ProductNonZeroIff(k: real, x: real)
    requires k != 0.0
    ensures k * x == 0.0 <==> x == 0.0
  {
    if x != 0.0 { ProductNonZero(k, x); }
  }

  lemma ScaledNorm(sqrt: real -> real, k: real, a: Vector)
    requires IsSqrt(sqrt) && k > 0.0
    ensures sqrt(Dot(Scale(k, a), Scale(k, a))) == k * sqrt(Dot(a, a))
  {
    var s := Scale(k, a);
    DotScale(k, a, s);
    DotSymmetric(a, s);
    DotScale(k, a, a);
    SquareNonNegative(a);
    assert Dot(s, s) == k * (k * Dot(a, a)) == k * k * Dot(a, a);
    SqrtOfScaledSquare(sqrt, k, Dot(a, a), Dot(s, s));
  }

  lemma CancelFactor(k: real, x: real, y: real, kx: real, ky: real)
    requires k != 0.0 && y != 0.0 && kx == k * x && ky == k * y
    ensures ky != 0.0 && kx / ky == x / y
  {
    ProductNonZero(k, y);
    var q := x / y;
    assert q * y == x;
    assert q * (k * y) == k * (q * y);
  }

  // ------------------------------------------------------------ the angle

  function SquaredDistance(a: Vector, b: Vector): real
    requires |a| == |b|
  {
    if a == [] then 0.0 else (a[0] - b[0]) * (a[0] - b[0]) + SquaredDistance(a[1..], b[1..])
  }

  function Origin(n: nat): Vector { seq(n, _ => 0.0) }

  lemma {:induction false} DistanceExpands(a: Vector, b: Vector)
    requires |a| == |b|
    ensures SquaredDistance(a, b) == Dot(a, a) - 2.0 * Dot(a, b) + Dot(b, b)
  {
    if a != [] {
      DistanceExpands(a[1..], b[1..]);
      SquareOfDifference(a[0], b[0]);
    }
  }

  lemma SquareOfDifference(x: real, y: real)
    ensures (x - y) * (x - y) == x * x - 2.0 * (x * y) + y * y
  {}

  lemma DistanceToOrigin(a: Vector)
    ensures SquaredDistance(a, Origin(|a|)) == Dot(a, a)
  {
    DistanceExpands(a, Origin(|a|));
    ZeroDot(Origin(|a|), Origin(|a|));
    ZeroDot(Origin(|a|), a);
    DotSymmetric(a, Origin(|a|));
  }

  /** The law of cosines: for vectors of one length the result is the cosine of the angle between
      them, sign included. */
  lemma LawOfCosines(sqrt: real -> real, a: Vector, b: Vector)
    requires IsSqrt(sqrt) && |a| == |b|
    ensures var aa, bb := SquaredDistance(a, Origin(|a|)), SquaredDistance(b, Origin(|b|));
            SquaredDistance(a, b) == aa + bb - 2.0 * (sqrt(aa) * sqrt(bb) * Cosine(sqrt, a, b))
  {
    var na, nb := sqrt(Dot(a, a)), sqrt(Dot(b, b));
    DistanceExpands(a, b);
    DistanceToOrigin(a);
    DistanceToOrigin(b);
    NormPositive(sqrt, a);
    NormPositive(sqrt, b);
    if na == 0.0 {
      ZeroDot(a, b);
    } else if nb == 0.0 {
      ZeroDot(b, a);
      DotSymmetric(a, b);
    } else {
      ProductNonZero(na, nb);
      assert Cosine(sqrt, a, b) == Ratio(Dot(a, b), na, nb);
      RatioTimes(Dot(a, b), na, nb);
    }
  }

  lemma RatioTimes(d: real, x: real, y: real)
    requires x * y != 0.0
    ensures x * y * Ratio(d, x, y) == d
  {}

  /** Without an angle between them it is zero. */
  lemma NoAngleIsZero(sqrt: real -> real, a: Vector, b: Vector)
    requires IsSqrt(sqrt) && (|a| != |b| || IsZero(a) || IsZero(b))
    ensures Cosine(sqrt, a, b) == 0.0
  {
    NormPositive(sqrt, a);
    NormPositive(sqrt, b);
  }
}

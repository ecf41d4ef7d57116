/** The curve group as a module over the scalars modulo its prime order. */
module AlgebraCurve {
  import opened AlgebraScalars

  /** A point of the curve; everything known about points is in `Laws`. */
  type Point(==, !new)

  datatype Curve = Curve(q: int, inv: int -> int, zero: Point, g: Point, add: (Point, Point) -> Point, neg: Point -> Point,
                         mul: (int, Point) -> Point, x: Point -> int)

  ghost predicate Laws(c: Curve) {
    && Inverts(c.q, c.inv)
    && (forall p, r, t :: c.add(c.add(p, r), t) == c.add(p, c.add(r, t)))
    && (forall p, r :: c.add(p, r) == c.add(r, p))
    && (forall p :: c.add(p, c.zero) == p)
    && (forall p :: c.add(p, c.neg(p)) == c.zero)
    && (forall p :: c.mul(1, p) == p)
    && (forall a, b, p :: c.mul(a + b, p) == c.add(c.mul(a, p), c.mul(b, p)))
    && (forall a, b, p :: c.mul(a * b, p) == c.mul(a, c.mul(b, p)))
    && (forall a, p, r :: c.mul(a, c.add(p, r)) == c.add(c.mul(a, p), c.mul(a, r)))
    && (forall p :: c.mul(c.q, p) == c.zero)
    && (forall p :: c.x(c.neg(p)) == c.x(p))
    && c.g != c.zero
  }

  // ------------------------------------------------------------- single laws

  lemma Assoc(c: Curve, p: Point, r: Point, t: Point)
    requires Laws(c)
    ensures c.add(c.add(p, r), t) == c.add(p, c.add(r, t))
  {
  }

  lemma Comm(c: Curve, p: Point, r: Point)
    requires Laws(c)
    ensures c.add(p, r) == c.add(r, p)
  {
  }

  lemma Zero(c: Curve, p: Point)
    requires Laws(c)
    ensures c.add(p, c.zero) == p && c.add(c.zero, p) == p
  {
    Comm(c, p, c.zero);
  }

  lemma AddScalars(c: Curve, a: int, b: int, p: Point)
    requires Laws(c)
    ensures c.mul(a + b, p) == c.add(c.mul(a, p), c.mul(b, p))
  {
  }

  lemma MulScalars(c: Curve, a: int, b: int, p: Point)
    requires Laws(c)
    ensures c.mul(a * b, p) == c.mul(a, c.mul(b, p))
  {
  }

  lemma AddPoints(c: Curve, a: int, p: Point, r: Point)
    requires Laws(c)
    ensures c.mul(a, c.add(p, r)) == c.add(c.mul(a, p), c.mul(a, r))
  {
  }

  lemma CancelPoint(c: Curve, p: Point, r: Point, t: Point)
    requires Laws(c) && c.add(p, t) == c.add(r, t)
    ensures p == r
  {
    hide Laws;
    NegCancels(c, p, t);
    NegCancels(c, r, t);
  }

  lemma NegCancels(c: Curve, p: Point, t: Point)
    requires Laws(c)
    ensures c.add(c.add(p, t), c.neg(t)) == p
  {
    assert c.add(c.add(p, t), c.neg(t)) == c.add(p, c.add(t, c.neg(t)));
  }

  lemma MulZero(c: Curve, p: Point)
    requires Laws(c)
    ensures c.mul(0, p) == c.zero
  {
    AddScalars(c, 0, 0, p);
    Zero(c, c.mul(0, p));
    CancelPoint(c, c.mul(0, p), c.zero, c.mul(0, p));
  }

  lemma MulOfZero(c: Curve, a: int)
    requires Laws(c)
    ensures c.mul(a, c.zero) == c.zero
  {
    AddPoints(c, a, c.zero, c.zero);
    Zero(c, c.zero);
    Zero(c, c.mul(a, c.zero));
    CancelPoint(c, c.mul(a, c.zero), c.zero, c.mul(a, c.zero));
  }

  /** Congruent scalars multiply alike. */
  lemma MulEq(c: Curve, a: int, b: int, p: Point)
    requires Laws(c) && Eq(c.q, a, b)
    ensures c.mul(a, p) == c.mul(b, p)
  {
    var k := EqWitness(c.q, a, b);
    AddScalars(c, b, c.q * k, p);
    assert c.q * k == k * c.q;
    MulScalars(c, k, c.q, p);
    MulOfZero(c, k);
    Zero(c, c.mul(b, p));
  }

  lemma PrimeOrder(c: Curve)
    requires Laws(c)
    ensures c.q > 1 && Inverts(c.q, c.inv)
  {
  }

  lemma Generator(c: Curve)
    requires Laws(c)
    ensures c.mul(1, c.g) == c.g && c.g != c.zero
  {
  }

  /** The generator has the full order. */
  lemma GeneratorOrder(c: Curve, a: int)
    requires Laws(c)
    ensures c.q > 1 && (c.mul(a, c.g) == c.zero <==> Eq(c.q, a, 0))
  {
    hide Laws, Eq;
    PrimeOrder(c);
    Generator(c);
    MulZero(c, c.g);
    if Eq(c.q, a, 0) {
      MulEq(c, a, 0, c.g);
    } else {
      MulScalars(c, c.inv(a), a, c.g);
      MulOfZero(c, c.inv(a));
      assert c.inv(a) * a == a * c.inv(a);
      MulEq(c, c.inv(a) * a, 1, c.g);
    }
  }

  lemma MulNeg(c: Curve, a: int, p: Point)
    requires Laws(c)
    ensures c.mul(0 - a, p) == c.neg(c.mul(a, p))
  {
    AddScalars(c, 0 - a, a, p);
    MulZero(c, p);
    Comm(c, c.mul(a, p), c.neg(c.mul(a, p)));
    CancelPoint(c, c.mul(0 - a, p), c.neg(c.mul(a, p)), c.mul(a, p));
  }

  /** (p + r) + (t + u) == (p + t) + (r + u). */
  lemma Exchange(c: Curve, p: Point, r: Point, t: Point, u: Point)
    requires Laws(c)
    ensures c.add(c.add(p, r), c.add(t, u)) == c.add(c.add(p, t), c.add(r, u))
  {
    hide Laws;
    Assoc(c, p, r, c.add(t, u));
    Assoc(c, r, t, u);
    Comm(c, r, t);
    Assoc(c, t, r, u);
    Assoc(c, p, t, c.add(r, u));
  }

  // --------------------------------------------------------------------- sums

  function SumPoints(c: Curve, ps: seq<Point>): Point {
    if ps == [] then c.zero else c.add(SumPoints(c, ps[..|ps| - 1]), ps[|ps| - 1])
  }

  function SumScalars(xs: seq<int>): int {
    if xs == [] then 0 else SumScalars(xs[..|xs| - 1]) + xs[|xs| - 1]
  }

  /** Multiples of one point add up to the multiple by the sum. */
  lemma {:induction false} SumOfMultiples(c: Curve, xs: seq<int>, p: Point, ps: seq<Point>)
    requires Laws(c) && |ps| == |xs| && forall i | 0 <= i < |xs| :: ps[i] == c.mul(xs[i], p)
    ensures SumPoints(c, ps) == c.mul(SumScalars(xs), p)
  {
    hide Laws;
    if xs == [] {
      MulZero(c, p);
    } else {
      var n := |xs| - 1;
      SumOfMultiples(c, xs[..n], p, ps[..n]);
      AddScalars(c, SumScalars(xs[..n]), xs[n], p);
    }
  }

  /** A sum of combinations m·p_i + r·t_i is the combination of the sums. */
  lemma {:induction false} SumOfCombinations(c: Curve, m: int, ps: seq<Point>, r: int, ts: seq<Point>, us: seq<Point>)
    requires Laws(c) && |ps| == |ts| == |us|
    requires forall i | 0 <= i < |us| :: us[i] == c.add(c.mul(m, ps[i]), c.mul(r, ts[i]))
    ensures SumPoints(c, us) == c.add(c.mul(m, SumPoints(c, ps)), c.mul(r, SumPoints(c, ts)))
  {
    hide Laws;
    if us == [] {
      MulOfZero(c, m);
      MulOfZero(c, r);
      Zero(c, c.zero);
    } else {
      var n := |us| - 1;
      SumOfCombinations(c, m, ps[..n], r, ts[..n], us[..n]);
      var p, t := SumPoints(c, ps[..n]), SumPoints(c, ts[..n]);
      AddPoints(c, m, p, ps[n]);
      AddPoints(c, r, t, ts[n]);
      Exchange(c, c.mul(m, p), c.mul(r, t), c.mul(m, ps[n]), c.mul(r, ts[n]));
    }
  }
}

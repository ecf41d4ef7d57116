/** Lagrange coefficients as the code computes them, and interpolation at zero. */
module AlgebraShares {
  import opened Options
  import opened AlgebraScalars
  import opened AlgebraLagrange

  /** The coefficient of `x` in interpolating at zero: the product of z/(z - x). */
  function Lambda(inv: int -> int, xs: seq<int>, x: int): int {
    if xs == [] then 1
    else Lambda(inv, xs[..|xs| - 1], x) * (if xs[|xs| - 1] == x then 1 else xs[|xs| - 1] * inv(xs[|xs| - 1] - x))
  }

  predicate Canonical(q: int, xs: seq<int>) { forall i | 0 <= i < |xs| :: 0 <= xs[i] < q }

  predicate Identifiers(q: int, xs: seq<int>) {
    && (forall i | 0 <= i < |xs| :: 0 < xs[i] < q)
    && (forall i, j | 0 <= i < j < |xs| :: xs[i] != xs[j])
  }

  // ------------------------------------------------------------ the coefficient

  /** No coefficient of distinct non-zero identifiers vanishes. */
  lemma {:induction false} LambdaNonZero(q: int, inv: int -> int, xs: seq<int>, x: int)
    requires Inverts(q, inv) && Identifiers(q, xs) && 0 < x < q
    ensures !Eq(q, Lambda(inv, xs, x), 0)
  {
    hide Eq;
    CanonicalDiffer(q, x, 0);
    if xs == [] {
      CanonicalDiffer(q, 1, 0);
    } else {
      var front, z := xs[..|xs| - 1], xs[|xs| - 1];
      LambdaNonZero(q, inv, front, x);
      if z == x {
        assert Lambda(inv, xs, x) == Lambda(inv, front, x);
      } else {
        CanonicalDiffer(q, z, 0);
        CanonicalDiffer(q, z, x);
        InverseNonZero(q, inv, z - x);
        NonZeroProduct(q, inv, z, inv(z - x));
        NonZeroProduct(q, inv, Lambda(inv, front, x), z * inv(z - x));
      }
    }
  }

  function Numerator(xs: seq<int>, x: int): int {
    if xs == [] then 1 else Numerator(xs[..|xs| - 1], x) * (if xs[|xs| - 1] == x then 1 else xs[|xs| - 1])
  }

  function Denominator(xs: seq<int>, x: int): int {
    if xs == [] then 1 else Denominator(xs[..|xs| - 1], x) * (if xs[|xs| - 1] == x then 1 else xs[|xs| - 1] - x)
  }

  lemma CanonicalDiffer(q: int, a: int, b: int)
    requires q > 0 && 0 <= a < q && 0 <= b < q && a != b
    ensures !Eq(q, a - b, 0) && !Eq(q, a, b)
  {
    hide Eq;
    EqDiff(q, a, b);
    if Eq(q, a, b) { EqCanonical(q, a, b); assert false; }
  }

  lemma LambdaStep(q: int, inv: int -> int, l: int, d: int, n: int, z: int, x: int)
    requires Inverts(q, inv) && !Eq(q, z - x, 0) && Eq(q, l * d, n)
    ensures Eq(q, (l * (z * inv(z - x))) * (d * (z - x)), n * z)
  {
    hide Eq;
    var e, i := z - x, inv(z - x);
    Shuffle(l, z * i, d, e);
    assert (z * i) * e == z * (e * i);
    EqScale(q, z, e * i, 1);
    EqMul(q, l * d, n, z * (e * i), z * 1);
  }

  /** The denominator is invertible and turns the coefficient into the numerator. */
  lemma {:induction false} LambdaFraction(q: int, inv: int -> int, xs: seq<int>, x: int)
    requires Inverts(q, inv) && Canonical(q, xs) && 0 <= x < q
    ensures !Eq(q, Denominator(xs, x), 0)
    ensures Eq(q, Lambda(inv, xs, x) * Denominator(xs, x), Numerator(xs, x))
  {
    hide Eq;
    if xs != [] {
      var z := xs[|xs| - 1];
      var rest := xs[..|xs| - 1];
      LambdaFraction(q, inv, rest, x);
      var l, d, n := Lambda(inv, rest, x), Denominator(rest, x), Numerator(rest, x);
      if z == x {
        assert l * 1 == l && d * 1 == d && n * 1 == n;
      } else {
        CanonicalDiffer(q, z, x);
        NonZeroProduct(q, inv, d, z - x);
        LambdaStep(q, inv, l, d, n, z, x);
      }
    } else {
      CanonicalDiffer(q, 1, 0);
      EqRefl(q, 1);
    }
  }

  /** The coefficient from one inversion of the accumulated denominator. */
  method LagrangeCoefficient(q: int, inv: int -> int, id: int, ids: seq<int>) returns (r: Option<int>)
    requires Inverts(q, inv) && 0 <= id < q && Canonical(q, ids)
    ensures r.Some? <==> Identifiers(q, ids) && id in ids
    ensures r.Some? ==> 0 <= r.value < q && Eq(q, r.value, Lambda(inv, ids, id))
  {
    hide Eq;
    if id == 0 || ids == [] {
      return None;
    }
    var num, den := 1, 1;
    var seen: set<int> := {};
    var found := false;
    EqRefl(q, 1);
    for i := 0 to |ids|
      invariant Identifiers(q, ids[..i])
      invariant forall x :: x in seen <==> x in ids[..i]
      invariant found <==> id in ids[..i]
      invariant Eq(q, num, Numerator(ids[..i], id)) && Eq(q, den, Denominator(ids[..i], id))
    {
      var other := ids[i];
      if other == 0 || other in seen { return None; }
      seen := seen + {other};
      assert ids[..i + 1][..i] == ids[..i];
      if other == id {
        found := true;
      } else {
        EqScale(q, other, num, Numerator(ids[..i], id));
        EqScale(q, other - id, den, Denominator(ids[..i], id));
        EqMod(q, num * other);
        EqMod(q, den * (other - id));
        EqTrans(q, num * other % q, num * other, Numerator(ids[..i + 1], id));
        EqTrans(q, den * (other - id) % q, den * (other - id), Denominator(ids[..i + 1], id));
        num, den := num * other % q, den * (other - id) % q;
      }
    }
    assert ids[..|ids|] == ids;
    if !found { return None; }
    LambdaFraction(q, inv, ids, id);
    QuotientIsLambda(q, inv, num, den, Lambda(inv, ids, id), Numerator(ids, id), Denominator(ids, id));
    EqMod(q, num * inv(den));
    EqTrans(q, num * inv(den) % q, num * inv(den), Lambda(inv, ids, id));
    r := Some(num * inv(den) % q);
  }

  lemma QuotientIsLambda(q: int, inv: int -> int, num: int, den: int, lambda: int, n: int, d: int)
    requires Inverts(q, inv) && Eq(q, num, n) && Eq(q, den, d) && !Eq(q, d, 0) && Eq(q, lambda * d, n)
    ensures Eq(q, num * inv(den), lambda)
  {
    hide Eq;
    if Eq(q, den, 0) { EqSym(q, den, d); EqTrans(q, d, den, 0); assert false; }
    EqScale(q, lambda, den, d);
    EqTrans(q, lambda * den, lambda * d, n);
    EqSym(q, num, n);
    EqTrans(q, lambda * den, n, num);
    EqSym(q, lambda * den, num);
    EqScale(q, inv(den), num, lambda * den);
    EqScale(q, lambda, den * inv(den), 1);
    assert (lambda * den) * inv(den) == lambda * (den * inv(den));
    EqTrans(q, num * inv(den), lambda * (den * inv(den)), lambda * 1);
  }

  // ---------------------------------------------------------- interpolation at zero

  function Negated(xs: seq<int>): int {
    if xs == [] then 1 else Negated(xs[..|xs| - 1]) * (0 - xs[|xs| - 1])
  }

  function NegatedOthers(xs: seq<int>, p: int): int {
    if xs == [] then 1 else NegatedOthers(xs[..|xs| - 1], p) * (if xs[|xs| - 1] == p then 1 else 0 - xs[|xs| - 1])
  }

  lemma {:induction false} NegatedWithout(xs: seq<int>, p: int)
    requires p !in xs
    ensures NegatedOthers(xs, p) == Negated(xs)
  {
    if xs != [] { NegatedWithout(xs[..|xs| - 1], p); }
  }

  lemma {:induction false} NegatedSplit(xs: seq<int>, p: int)
    requires p in xs && forall i, j | 0 <= i < j < |xs| :: xs[i] != xs[j]
    ensures Negated(xs) == NegatedOthers(xs, p) * (0 - p)
  {
    var z := xs[|xs| - 1];
    var rest := xs[..|xs| - 1];
    if z == p {
      NegatedWithout(rest, p);
    } else {
      NegatedSplit(rest, p);
      assert (NegatedOthers(rest, p) * (0 - p)) * (0 - z) == (NegatedOthers(rest, p) * (0 - z)) * (0 - p);
    }
  }

  /** (-z)/(p - z) is z/(z - p). */
  lemma SignFlip(q: int, inv: int -> int, z: int, p: int)
    requires Inverts(q, inv) && !Eq(q, z - p, 0) && !Eq(q, p - z, 0)
    ensures Eq(q, (0 - z) * inv(p - z), z * inv(z - p))
  {
    hide Eq;
    assert (z - p) * (0 - inv(p - z)) == (p - z) * inv(p - z);
    InverseUnique(q, inv, z - p, 0 - inv(p - z));
    EqScale(q, z, 0 - inv(p - z), inv(z - p));
    assert z * (0 - inv(p - z)) == (0 - z) * inv(p - z);
  }

  lemma {:induction false} WeightIsLambda(q: int, inv: int -> int, xs: seq<int>, p: int)
    requires Inverts(q, inv) && Canonical(q, xs) && 0 <= p < q
    ensures Eq(q, NegatedOthers(xs, p) * Weight(inv, xs, p), Lambda(inv, xs, p))
  {
    hide Eq;
    if xs == [] {
      EqRefl(q, 1);
    } else {
      var z := xs[|xs| - 1];
      var rest := xs[..|xs| - 1];
      WeightIsLambda(q, inv, rest, p);
      var n, w, l := NegatedOthers(rest, p), Weight(inv, rest, p), Lambda(inv, rest, p);
      if z == p {
        assert n * 1 == n && w * 1 == w && l * 1 == l;
      } else {
        CanonicalDiffer(q, z, p);
        CanonicalDiffer(q, p, z);
        SignFlip(q, inv, z, p);
        Shuffle(n, 0 - z, w, inv(p - z));
        EqMul(q, n * w, l, (0 - z) * inv(p - z), z * inv(z - p));
      }
    }
  }

  lemma {:induction false} WeightAtZero(q: int, inv: int -> int, xs: seq<int>)
    requires Inverts(q, inv) && forall i | 0 <= i < |xs| :: 0 < xs[i] < q
    ensures Eq(q, Negated(xs) * Weight(inv, xs, 0), 1)
  {
    hide Eq;
    if xs == [] {
      EqRefl(q, 1);
    } else {
      var z := xs[|xs| - 1];
      var rest := xs[..|xs| - 1];
      WeightAtZero(q, inv, rest);
      CanonicalDiffer(q, 0, z);
      var n, w := Negated(rest), Weight(inv, rest, 0);
      Shuffle(n, 0 - z, w, inv(0 - z));
      EqMul(q, n * w, 1, (0 - z) * inv(0 - z), 1);
    }
  }

  /** Weighted shares, added up. */
  function Weighted(f: int -> int, inv: int -> int, ps: seq<int>, xs: seq<int>): int {
    if ps == [] then 0 else Weighted(f, inv, ps[..|ps| - 1], xs) + Lambda(inv, xs, ps[|ps| - 1]) * f(ps[|ps| - 1])
  }

  lemma SummandTerm(n: int, w: int, p: int, i: int, v: int)
    ensures (n * (0 - p)) * (v * (w * i)) == (0 - v) * ((n * w) * (p * i))
  {
    Shuffle(n, p, w, i);
    assert (n * (0 - p)) * (v * (w * i)) == (0 - v) * ((n * p) * (w * i));
  }

  /** One summand of the divided difference over the identifiers and zero. */
  lemma Summand(q: int, inv: int -> int, xs: seq<int>, p: int, v: int)
    requires Inverts(q, inv) && Identifiers(q, xs) && p in xs
    ensures Eq(q, Negated(xs) * (v * Weight(inv, xs + [0], p)), 0 - Lambda(inv, xs, p) * v)
  {
    hide Eq;
    var n, w := NegatedOthers(xs, p), Weight(inv, xs, p);
    assert (xs + [0])[..|xs|] == xs;
    assert Weight(inv, xs + [0], p) == w * inv(p - 0);
    NegatedSplit(xs, p);
    WeightIsLambda(q, inv, xs, p);
    CanonicalDiffer(q, p, 0);
    SummandTerm(n, w, p, inv(p), v);
    EqMul(q, n * w, Lambda(inv, xs, p), p * inv(p), 1);
    EqScale(q, 0 - v, (n * w) * (p * inv(p)), Lambda(inv, xs, p) * 1);
    assert (0 - v) * (Lambda(inv, xs, p) * 1) == 0 - Lambda(inv, xs, p) * v;
  }

  lemma {:induction false} Summands(q: int, inv: int -> int, f: int -> int, ps: seq<int>, xs: seq<int>)
    requires Inverts(q, inv) && Identifiers(q, xs) && forall p | p in ps :: p in xs
    ensures Eq(q, Negated(xs) * Sum(f, inv, ps, xs + [0]), 0 - Weighted(f, inv, ps, xs))
  {
    hide Eq, Weight, Lambda, Negated;
    if ps == [] {
      assert Negated(xs) * 0 == 0;
      EqRefl(q, 0);
    } else {
      var p := ps[|ps| - 1];
      var rest := ps[..|ps| - 1];
      Summands(q, inv, f, rest, xs);
      Summand(q, inv, xs, p, f(p));
      var s, t := Sum(f, inv, rest, xs + [0]), f(p) * Weight(inv, xs + [0], p);
      var n := Negated(xs);
      assert n * (s + t) == n * s + n * t;
      EqAdd(q, n * s, 0 - Weighted(f, inv, rest, xs), n * t, 0 - Lambda(inv, xs, p) * f(p));
    }
  }

  lemma DistinctWithZero(q: int, xs: seq<int>)
    requires q > 0 && Identifiers(q, xs)
    ensures Distinct(q, xs + [0])
  {
    hide Eq;
    var zs := xs + [0];
    forall i, j | 0 <= i < j < |zs| ensures !Eq(q, zs[i], zs[j]) && !Eq(q, zs[j], zs[i]) {
      CanonicalDiffer(q, zs[i], zs[j]);
      CanonicalDiffer(q, zs[j], zs[i]);
    }
  }

  /** Interpolation: the weighted shares of a polynomial with no more coefficients
      than there are identifiers add up to its constant term. */
  lemma Interpolation(q: int, inv: int -> int, xs: seq<int>, cs: seq<int>)
    requires Inverts(q, inv) && Identifiers(q, xs) && |cs| <= |xs|
    ensures Eq(q, Weighted(Polynomial(cs), inv, xs, xs), Eval(cs, 0))
  {
    hide Eq;
    var f := Polynomial(cs);
    var n, total := Negated(xs), Sum(f, inv, xs, xs + [0]);
    DistinctWithZero(q, xs);
    DifferenceVanishes(q, inv, cs, xs + [0]);
    SumAppend(f, inv, xs, 0, xs + [0]);
    assert (xs + [0])[..|xs|] == xs;
    var w := Weight(inv, xs, 0);
    assert Weight(inv, xs + [0], 0) == w;
    Summands(q, inv, f, xs, xs);
    WeightAtZero(q, inv, xs);
    assert Sum(f, inv, xs + [0], xs + [0]) == total + f(0) * w;
    AtZero(q, n, total, f(0), w, Weighted(f, inv, xs, xs));
  }

  lemma AtZero(q: int, n: int, total: int, v: int, w: int, weighted: int)
    requires q > 0 && Eq(q, total + v * w, 0) && Eq(q, n * w, 1) && Eq(q, n * total, 0 - weighted)
    ensures Eq(q, weighted, v)
  {
    hide Eq;
    EqScale(q, n, total + v * w, 0);
    assert n * (total + v * w) == n * total + v * (n * w) && n * 0 == 0;
    EqScale(q, v, n * w, 1);
    Balance(q, n * total, weighted, v * (n * w), v);
  }

  lemma Balance(q: int, a: int, b: int, c: int, d: int)
    requires q > 0 && Eq(q, a + c, 0) && Eq(q, a, 0 - b) && Eq(q, c, d)
    ensures Eq(q, b, d)
  {
    hide Eq;
    var i := EqWitness(q, a + c, 0);
    var j := EqWitness(q, a, 0 - b);
    var k := EqWitness(q, c, d);
    EqIntro(q, b, d, j + k - i);
  }

  /** The child's key: weighting tweaked shares tweaks the key exactly once. */
  lemma TweakedInterpolation(q: int, inv: int -> int, xs: seq<int>, cs: seq<int>, tweak: int)
    requires Inverts(q, inv) && Identifiers(q, xs) && 0 < |cs| <= |xs|
    ensures Eq(q, Weighted(x => Eval(cs, x) + tweak, inv, xs, xs), cs[0] + tweak)
  {
    hide Eq;
    var ds := [cs[0] + tweak] + cs[1..];
    assert ds[1..] == cs[1..];
    Interpolation(q, inv, xs, ds);
    WeightedSame(Polynomial(ds), x => Eval(cs, x) + tweak, inv, xs, xs);
    assert Eval(ds, 0) == cs[0] + tweak + 0 * Eval(cs[1..], 0);
  }

  lemma {:induction false} WeightedSame(f: int -> int, g: int -> int, inv: int -> int, ps: seq<int>, xs: seq<int>)
    requires forall x :: f(x) == g(x)
    ensures Weighted(f, inv, ps, xs) == Weighted(g, inv, ps, xs)
  {
    if ps != [] { WeightedSame(f, g, inv, ps[..|ps| - 1], xs); }
  }
}

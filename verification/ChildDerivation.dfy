/** Child derivation: the contribution each parent party makes to the child's key. */
module ChildDerivation {
  import opened AlgebraScalars
  import opened AlgebraLagrange
  import opened AlgebraShares
  import opened AlgebraCurve

  /** Shares of one polynomial, in the exponent. */
  predicate SharesOf(c: Curve, coefficients: seq<int>, ids: seq<int>, publicShares: seq<Point>) {
    |publicShares| == |ids| && forall i | 0 <= i < |ids| :: publicShares[i] == c.mul(Eval(coefficients, ids[i]), c.g)
  }

  /** What every party is expected to contribute: its weighted, tweaked public share. */
  function Expected(c: Curve, ids: seq<int>, publicShares: seq<Point>, tweak: int): (r: seq<Point>)
    requires |publicShares| == |ids|
    ensures |r| == |ids| && forall j | 0 <= j < |ids| :: r[j] == c.mul(Lambda(c.inv, ids, ids[j]), c.add(publicShares[j], c.mul(tweak, c.g)))
  {
    seq(|ids|, j requires 0 <= j < |ids| => c.mul(Lambda(c.inv, ids, ids[j]), c.add(publicShares[j], c.mul(tweak, c.g))))
  }

  datatype ChildVerdict = Contributed(contribution: int, expected: seq<Point>) | IdentityPoint | KeyMismatch | ZeroSecret

  /** An honest parent: public shares of one polynomial of degree below their number,
      the local secret among them, and the child's key the tweaked parent key. */
  predicate HonestParent(c: Curve, coefficients: seq<int>, ids: seq<int>, publicShares: seq<Point>, tweak: int, childKey: Point, local: nat, secret: int)
    requires c.q > 0 && local < |ids|
  {
    && SharesOf(c, coefficients, ids, publicShares) && 0 < |coefficients| <= |ids|
    && childKey == c.mul(coefficients[0] + tweak, c.g) && Eq(c.q, secret, Eval(coefficients, ids[local]))
  }

  /** The tweak cancels neither the key nor any party's share, and the local secret is not zero. */
  predicate TweakUsable(c: Curve, coefficients: seq<int>, ids: seq<int>, tweak: int, secret: int)
    requires c.q > 0 && coefficients != []
  {
    && (forall j | 0 <= j < |ids| :: !Eq(c.q, Eval(coefficients, ids[j]) + tweak, 0))
    && !Eq(c.q, coefficients[0] + tweak, 0) && !Eq(c.q, secret, 0)
  }

  /** What the verdict says. The identity cannot be encoded and a zero secret cannot be
      stored, so these are refused. */
  predicate Judged(c: Curve, ids: seq<int>, publicShares: seq<Point>, tweak: int, childKey: Point, local: nat, secret: int, out: ChildVerdict)
    requires c.q > 0 && |publicShares| == |ids| && local < |ids|
  {
    var points := Expected(c, ids, publicShares, tweak);
    && (out.IdentityPoint? <==> c.zero in points || SumPoints(c, points) == c.zero)
    && (out.KeyMismatch? <==> !out.IdentityPoint? && SumPoints(c, points) != childKey)
    && (out.ZeroSecret? <==> !out.IdentityPoint? && !out.KeyMismatch? && (Eq(c.q, secret, 0) || Eq(c.q, secret + tweak, 0)))
    && (out.Contributed? ==> out.expected == points && 0 < out.contribution < c.q
                             && Eq(c.q, out.contribution, Lambda(c.inv, ids, ids[local]) * (secret + tweak)))
  }

  /** Every party's expected contribution, and the local one. */
  method ChildContributions(c: Curve, ids: seq<int>, publicShares: seq<Point>, tweak: int, childKey: Point, local: nat, secret: int)
    returns (out: ChildVerdict)
    requires Laws(c) && c.q > 0 && Identifiers(c.q, ids) && |publicShares| == |ids| && local < |ids|
    ensures Judged(c, ids, publicShares, tweak, childKey, local, secret, out)
  {
    hide Laws, Eq, Lambda;
    ghost var points := Expected(c, ids, publicShares, tweak);
    PrimeOrder(c);
    var tweakPoint := c.mul(tweak, c.g);
    var aggregate := c.zero;
    var expected: seq<Point> := [];
    for i := 0 to |ids|
      invariant expected == points[..i] && aggregate == SumPoints(c, expected) && c.zero !in expected
    {
      var lambda := LagrangeCoefficient(c.q, c.inv, ids[i], ids);
      var weighted := c.mul(lambda.value, c.add(publicShares[i], tweakPoint));
      MulEq(c, lambda.value, Lambda(c.inv, ids, ids[i]), c.add(publicShares[i], tweakPoint));
      assert weighted == points[i];
      if weighted == c.zero { return IdentityPoint; }
      expected := expected + [weighted];
      assert expected[..i] == expected[..|expected| - 1];
      aggregate := c.add(aggregate, weighted);
    }
    assert expected == points;
    if aggregate == c.zero { return IdentityPoint; }
    if aggregate != childKey { return KeyMismatch; }
    ScalarZero(c.q, secret);
    if secret % c.q == 0 { return ZeroSecret; }
    var lambda := LagrangeCoefficient(c.q, c.inv, ids[local], ids);
    var contribution := lambda.value * ((secret + tweak) % c.q) % c.q;
    ContributionValue(c, ids, local, lambda.value, secret, tweak);
    if contribution == 0 { return ZeroSecret; }
    out := Contributed(contribution, expected);
  }

  /** For an honest parent the aggregate check passes, the local contribution opens
      its expected point, and the refusals are exactly the tweaks that cancel
      something. */
  lemma HonestParentContributes(c: Curve, coefficients: seq<int>, ids: seq<int>, publicShares: seq<Point>, tweak: int, childKey: Point, local: nat, secret: int,
                                out: ChildVerdict)
    requires Laws(c) && c.q > 0 && Identifiers(c.q, ids) && |publicShares| == |ids| && local < |ids|
    requires Judged(c, ids, publicShares, tweak, childKey, local, secret, out)
    requires HonestParent(c, coefficients, ids, publicShares, tweak, childKey, local, secret)
    ensures !out.KeyMismatch?
    ensures out.Contributed? <==> TweakUsable(c, coefficients, ids, tweak, secret)
    ensures out.Contributed? ==> c.mul(out.contribution, c.g) == out.expected[local]
  {
    hide Laws, Eq, Lambda, SumPoints;
    HonestPoints(c, ids, coefficients, tweak, publicShares);
    GeneratorOrder(c, coefficients[0] + tweak);
    SameTweaked(c.q, secret, Eval(coefficients, ids[local]), tweak);
    if out.Contributed? { ContributionOpens(c, Lambda(c.inv, ids, ids[local]), out.contribution, secret, Eval(coefficients, ids[local]), tweak); }
  }

  lemma ScalarZero(q: int, a: int)
    requires q > 1
    ensures a % q == 0 <==> Eq(q, a, 0)
  {
  }

  lemma SameTweaked(q: int, secret: int, share: int, tweak: int)
    requires q > 0 && Eq(q, secret, share)
    ensures Eq(q, secret + tweak, 0) <==> Eq(q, share + tweak, 0)
  {
    hide Eq;
    EqRefl(q, tweak);
    EqAdd(q, secret, share, tweak, tweak);
    EqSym(q, secret + tweak, share + tweak);
    if Eq(q, secret + tweak, 0) { EqTrans(q, share + tweak, secret + tweak, 0); }
    if Eq(q, share + tweak, 0) { EqTrans(q, secret + tweak, share + tweak, 0); }
  }

  /** A weighted value vanishes only when the value does. */
  lemma WeightedZero(c: Curve, ids: seq<int>, j: nat, v: int)
    requires Laws(c) && c.q > 0 && Identifiers(c.q, ids) && j < |ids|
    ensures Eq(c.q, Lambda(c.inv, ids, ids[j]) * v, 0) <==> Eq(c.q, v, 0)
  {
    hide Laws, Eq;
    PrimeOrder(c);
    var lambda := Lambda(c.inv, ids, ids[j]);
    LambdaNonZero(c.q, c.inv, ids, ids[j]);
    if Eq(c.q, v, 0) {
      EqScale(c.q, lambda, v, 0);
      assert lambda * 0 == 0;
    } else {
      NonZeroProduct(c.q, c.inv, lambda, v);
    }
  }

  lemma Reduced(q: int, a: int, b: int)
    requires q > 1 && Eq(q, a, b)
    ensures 0 <= a % q < q && Eq(q, a % q, b) && (a % q == 0 <==> Eq(q, b, 0))
  {
    hide Eq;
    EqMod(q, a);
    EqTrans(q, a % q, a, b);
    EqSym(q, a % q, b);
    if a % q == 0 { EqTrans(q, b, a % q, 0); }
    if Eq(q, b, 0) {
      EqTrans(q, a % q, b, 0);
      EqCanonical(q, a % q, 0);
    }
  }

  lemma ContributionValue(c: Curve, ids: seq<int>, local: nat, lambda: int, secret: int, tweak: int)
    requires Laws(c) && c.q > 0 && Identifiers(c.q, ids) && local < |ids| && Eq(c.q, lambda, Lambda(c.inv, ids, ids[local]))
    ensures var contribution := lambda * ((secret + tweak) % c.q) % c.q;
            && 0 <= contribution < c.q && Eq(c.q, contribution, Lambda(c.inv, ids, ids[local]) * (secret + tweak))
            && (contribution == 0 <==> Eq(c.q, secret + tweak, 0))
  {
    hide Laws, Eq;
    PrimeOrder(c);
    var exact, sum := Lambda(c.inv, ids, ids[local]), (secret + tweak) % c.q;
    EqMod(c.q, secret + tweak);
    EqMul(c.q, lambda, exact, sum, secret + tweak);
    Reduced(c.q, lambda * sum, exact * (secret + tweak));
    WeightedZero(c, ids, local, secret + tweak);
  }

  /** For shares of one polynomial the aggregate is the tweaked key, and a party's
      point is the identity exactly when the tweak cancels its share. */
  lemma HonestPoints(c: Curve, ids: seq<int>, coefficients: seq<int>, tweak: int, publicShares: seq<Point>)
    requires Laws(c) && c.q > 0 && Identifiers(c.q, ids) && 0 < |coefficients| <= |ids| && SharesOf(c, coefficients, ids, publicShares)
    ensures SumPoints(c, Expected(c, ids, publicShares, tweak)) == c.mul(coefficients[0] + tweak, c.g)
    ensures forall j | 0 <= j < |ids| :: Expected(c, ids, publicShares, tweak)[j] == c.zero <==> Eq(c.q, Eval(coefficients, ids[j]) + tweak, 0)
  {
    hide Laws, Eq, Lambda, Eval, SumPoints;
    var points := Expected(c, ids, publicShares, tweak);
    TweakedSum(c, ids, coefficients, tweak, publicShares, points);
    forall j | 0 <= j < |ids| ensures points[j] == c.zero <==> Eq(c.q, Eval(coefficients, ids[j]) + tweak, 0) {
      HonestPoint(c, ids, j, Eval(coefficients, ids[j]), tweak);
    }
  }

  lemma HonestPoint(c: Curve, ids: seq<int>, j: nat, value: int, tweak: int)
    requires Laws(c) && c.q > 0 && Identifiers(c.q, ids) && j < |ids|
    ensures c.mul(Lambda(c.inv, ids, ids[j]), c.add(c.mul(value, c.g), c.mul(tweak, c.g))) == c.zero <==> Eq(c.q, value + tweak, 0)
  {
    hide Laws, Eq, Lambda;
    var lambda := Lambda(c.inv, ids, ids[j]);
    AddScalars(c, value, tweak, c.g);
    MulScalars(c, lambda, value + tweak, c.g);
    GeneratorOrder(c, lambda * (value + tweak));
    WeightedZero(c, ids, j, value + tweak);
  }

  /** A tweak that cancels one party's share is refused, although the parent is honest. */
  lemma CancelledShareRefused(c: Curve, ids: seq<int>, coefficients: seq<int>, publicShares: seq<Point>, j: nat)
    requires Laws(c) && c.q > 0 && Identifiers(c.q, ids) && 0 < |coefficients| <= |ids| && SharesOf(c, coefficients, ids, publicShares) && j < |ids|
    ensures c.zero in Expected(c, ids, publicShares, 0 - Eval(coefficients, ids[j]))
  {
    hide Laws, Eq, Lambda, Eval, SumPoints, Identifiers;
    var tweak := 0 - Eval(coefficients, ids[j]);
    PrimeOrder(c);
    HonestPoints(c, ids, coefficients, tweak, publicShares);
    EqRefl(c.q, 0);
    assert Expected(c, ids, publicShares, tweak)[j] == c.zero;
  }

  lemma ContributionOpens(c: Curve, lambda: int, contribution: int, secret: int, share: int, tweak: int)
    requires Laws(c) && c.q > 0 && Eq(c.q, contribution, lambda * (secret + tweak)) && Eq(c.q, secret, share)
    ensures c.mul(contribution, c.g) == c.mul(lambda, c.add(c.mul(share, c.g), c.mul(tweak, c.g)))
  {
    hide Laws, Eq;
    EqRefl(c.q, tweak);
    EqAdd(c.q, secret, share, tweak, tweak);
    EqScale(c.q, lambda, secret + tweak, share + tweak);
    EqTrans(c.q, contribution, lambda * (secret + tweak), lambda * (share + tweak));
    MulEq(c, contribution, lambda * (share + tweak), c.g);
    MulScalars(c, lambda, share + tweak, c.g);
    AddScalars(c, share, tweak, c.g);
  }

  /** The weighted, tweaked public shares add up to the tweaked public key. */
  lemma TweakedSum(c: Curve, ids: seq<int>, coefficients: seq<int>, tweak: int, publicShares: seq<Point>, expected: seq<Point>)
    requires Laws(c) && Identifiers(c.q, ids) && 0 < |coefficients| <= |ids| && SharesOf(c, coefficients, ids, publicShares)
    requires |expected| == |ids|
    requires forall j | 0 <= j < |ids| :: expected[j] == c.mul(Lambda(c.inv, ids, ids[j]), c.add(publicShares[j], c.mul(tweak, c.g)))
    ensures SumPoints(c, expected) == c.mul(coefficients[0] + tweak, c.g)
  {
    hide Laws, Eq, Lambda, Eval, SumPoints, Weighted;
    PrimeOrder(c);
    var f: int -> int := x => Eval(coefficients, x) + tweak;
    WeightedInExponent(c, f, ids, ids, coefficients, tweak, expected);
    TweakedInterpolation(c.q, c.inv, ids, coefficients, tweak);
    MulEq(c, Weighted(f, c.inv, ids, ids), coefficients[0] + tweak, c.g);
  }

  lemma {:induction false} WeightedInExponent(c: Curve, f: int -> int, ps: seq<int>, ids: seq<int>, coefficients: seq<int>, tweak: int, expected: seq<Point>)
    requires Laws(c) && |expected| == |ps| && forall x :: f(x) == Eval(coefficients, x) + tweak
    requires forall j | 0 <= j < |ps| ::
               expected[j] == c.mul(Lambda(c.inv, ids, ps[j]), c.add(c.mul(Eval(coefficients, ps[j]), c.g), c.mul(tweak, c.g)))
    ensures SumPoints(c, expected) == c.mul(Weighted(f, c.inv, ps, ids), c.g)
  {
    hide Laws, Lambda, Eval;
    if ps == [] {
      MulZero(c, c.g);
    } else {
      var n := |ps| - 1;
      WeightedInExponent(c, f, ps[..n], ids, coefficients, tweak, expected[..n]);
      var lambda, share := Lambda(c.inv, ids, ps[n]), Eval(coefficients, ps[n]);
      AddScalars(c, share, tweak, c.g);
      MulScalars(c, lambda, share + tweak, c.g);
      AddScalars(c, Weighted(f, c.inv, ps[..n], ids), lambda * f(ps[n]), c.g);
    }
  }
}

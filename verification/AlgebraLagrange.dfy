/** Lagrange interpolation modulo the group order, over every set of distinct
    non-zero identifiers: divided differences of a polynomial vanish, and hence
    the weighted shares of a polynomial of degree below the threshold add up to
    its value at zero. */
module AlgebraLagrange {
  import opened AlgebraScalars

  // ---------------------------------------------------------------- polynomials

  /** Value of the polynomial with the given coefficients, lowest first. */
  function Eval(cs: seq<int>, x: int): int {
    if cs == [] then 0 else cs[0] + x * Eval(cs[1..], x)
  }

  /** Quotient of the polynomial by (X - b). */
  function Quotient(cs: seq<int>, b: int): (r: seq<int>)
    ensures |r| == if |cs| <= 1 then 0 else |cs| - 1
  {
    if |cs| <= 1 then [] else [Eval(cs[1..], b)] + Quotient(cs[1..], b)
  }

  lemma {:induction false} Division(cs: seq<int>, b: int, x: int)
    ensures Eval(cs, x) == Eval(cs, b) + (x - b) * Eval(Quotient(cs, b), x)
  {
    if |cs| > 1 {
      Division(cs[1..], b, x);
      var rest := cs[1..];
      var quotient := Quotient(cs, b);
      assert quotient[1..] == Quotient(rest, b);
      assert Eval(quotient, x) == Eval(rest, b) + x * Eval(Quotient(rest, b), x);
      assert x * ((x - b) * Eval(Quotient(rest, b), x)) == (x - b) * (x * Eval(Quotient(rest, b), x));
      assert x * Eval(rest, x) == x * Eval(rest, b) + (x - b) * (x * Eval(Quotient(rest, b), x));
      assert (x - b) * Eval(quotient, x) == (x - b) * Eval(rest, b) + (x - b) * (x * Eval(Quotient(rest, b), x));
    } else if |cs| == 1 {
      assert cs[1..] == [];
      assert x * 0 == 0 && b * 0 == 0 && (x - b) * 0 == 0;
    } else {
      assert (x - b) * 0 == 0;
    }
  }

  /** Horner's rule, from the highest coefficient down. */
  method EvalAt(q: int, cs: seq<int>, x: int) returns (acc: int)
    requires q > 0
    ensures 0 <= acc < q && Eq(q, acc, Eval(cs, x))
  {
    hide Eq;
    acc := 0;
    var i := |cs|;
    assert cs[i..] == [];
    EqRefl(q, 0);
    while i > 0
      invariant 0 <= i <= |cs|
      invariant 0 <= acc < q && Eq(q, acc, Eval(cs[i..], x))
    {
      i := i - 1;
      assert cs[i..][1..] == cs[i + 1..];
      EqScale(q, x, acc, Eval(cs[i + 1..], x));
      EqMod(q, acc * x);
      EqTrans(q, acc * x % q, x * acc, x * Eval(cs[i + 1..], x));
      acc := acc * x % q;
      EqShift(q, acc, x * Eval(cs[i + 1..], x), cs[i]);
      EqMod(q, acc + cs[i]);
      EqTrans(q, (acc + cs[i]) % q, acc + cs[i], cs[i] + x * Eval(cs[i + 1..], x));
      acc := (acc + cs[i]) % q;
    }
    assert cs[0..] == cs;
  }

  // --------------------------------------------------------- divided differences

  /** Identifiers that differ modulo the order. */
  predicate Distinct(q: int, zs: seq<int>)
    requires q > 0
  {
    forall i, j | 0 <= i < j < |zs| :: !Eq(q, zs[i], zs[j]) && !Eq(q, zs[j], zs[i])
  }

  function Factor(inv: int -> int, x: int, z: int): int { if z == x then 1 else inv(x - z) }

  /** Product of 1/(x - z) over the points other than x. */
  function Weight(inv: int -> int, zs: seq<int>, x: int): int {
    if zs == [] then 1 else Weight(inv, zs[..|zs| - 1], x) * Factor(inv, x, zs[|zs| - 1])
  }

  /** Sum of f(p) · Weight(p) over the points `ps`. */
  function Sum(f: int -> int, inv: int -> int, ps: seq<int>, zs: seq<int>): int {
    if ps == [] then 0 else Sum(f, inv, ps[..|ps| - 1], zs) + f(ps[|ps| - 1]) * Weight(inv, zs, ps[|ps| - 1])
  }

  lemma {:induction false} WeightFirst(inv: int -> int, a: int, zs: seq<int>, x: int)
    ensures Weight(inv, [a] + zs, x) == Weight(inv, zs, x) * Factor(inv, x, a)
  {
    if zs == [] {
      assert [a] + zs == [a];
    } else {
      var last := zs[|zs| - 1];
      WeightFirst(inv, a, zs[..|zs| - 1], x);
      assert ([a] + zs)[..|zs|] == [a] + zs[..|zs| - 1];
      assert (Weight(inv, zs[..|zs| - 1], x) * Factor(inv, x, a)) * Factor(inv, x, last)
          == (Weight(inv, zs[..|zs| - 1], x) * Factor(inv, x, last)) * Factor(inv, x, a);
    }
  }

  /** The factor (p - c) of the value at p cancels the point c in its weight. */
  predicate Cancels(q: int, inv: int -> int, f: int -> int, g: int -> int, c: int, p: int, zs: seq<int>, ys: seq<int>)
    requires q > 0
  {
    f(p) == (p - c) * g(p) && !Eq(q, p - c, 0) && Weight(inv, zs, p) == Weight(inv, ys, p) * inv(p - c)
  }

  lemma TermCancels(q: int, inv: int -> int, f: int -> int, g: int -> int, c: int, p: int, zs: seq<int>, ys: seq<int>)
    requires Inverts(q, inv) && Cancels(q, inv, f, g, c, p, zs, ys)
    ensures Eq(q, f(p) * Weight(inv, zs, p), g(p) * Weight(inv, ys, p))
  {
    hide Eq;
    var w := Weight(inv, ys, p);
    Shuffle(p - c, g(p), inv(p - c), w);
    assert w * inv(p - c) == inv(p - c) * w;
    EqScale(q, g(p) * w, (p - c) * inv(p - c), 1);
  }

  lemma {:induction false} FactorCancels(q: int, inv: int -> int, f: int -> int, g: int -> int, c: int, ps: seq<int>, zs: seq<int>, ys: seq<int>)
    requires Inverts(q, inv) && forall i | 0 <= i < |ps| :: Cancels(q, inv, f, g, c, ps[i], zs, ys)
    ensures Eq(q, Sum(f, inv, ps, zs), Sum(g, inv, ps, ys))
  {
    hide Eq, Cancels;
    if ps == [] {
      EqRefl(q, 0);
    } else {
      var p := ps[|ps| - 1];
      var rest := ps[..|ps| - 1];
      FactorCancels(q, inv, f, g, c, rest, zs, ys);
      TermCancels(q, inv, f, g, c, p, zs, ys);
      EqAdd(q, Sum(f, inv, rest, zs), Sum(g, inv, rest, ys), f(p) * Weight(inv, zs, p), g(p) * Weight(inv, ys, p));
    }
  }

  lemma {:induction false} SumAppend(f: int -> int, inv: int -> int, ps: seq<int>, p: int, zs: seq<int>)
    ensures Sum(f, inv, ps + [p], zs) == Sum(f, inv, ps, zs) + f(p) * Weight(inv, zs, p)
  {
    assert (ps + [p])[..|ps|] == ps;
  }

  lemma {:induction false} SumPrepend(f: int -> int, inv: int -> int, p: int, ps: seq<int>, zs: seq<int>)
    ensures Sum(f, inv, [p] + ps, zs) == f(p) * Weight(inv, zs, p) + Sum(f, inv, ps, zs)
  {
    if ps == [] {
      assert [p] + ps == [p];
      assert [p][..0] == [];
    } else {
      SumPrepend(f, inv, p, ps[..|ps| - 1], zs);
      assert ([p] + ps)[..|ps|] == [p] + ps[..|ps| - 1];
    }
  }

  /** Sums are linear in the summand. */
  lemma {:induction false} SumLinear(f: int -> int, g: int -> int, h: int -> int, c: int, inv: int -> int, ps: seq<int>, zs: seq<int>)
    requires forall p | p in ps :: f(p) == c * g(p) + h(p)
    ensures Sum(f, inv, ps, zs) == c * Sum(g, inv, ps, zs) + Sum(h, inv, ps, zs)
  {
    if ps != [] {
      var p := ps[|ps| - 1];
      var rest := ps[..|ps| - 1];
      SumLinear(f, g, h, c, inv, rest, zs);
      var w := Weight(inv, zs, p);
      assert (c * g(p) + h(p)) * w == c * (g(p) * w) + h(p) * w;
      assert c * (Sum(g, inv, rest, zs) + g(p) * w) == c * Sum(g, inv, rest, zs) + c * (g(p) * w);
    } else {
      assert c * 0 == 0;
    }
  }

  lemma DropLast(q: int, inv: int -> int, f: int -> int, g: int -> int, ys: seq<int>, b: int)
    requires Inverts(q, inv) && Distinct(q, ys + [b])
    requires forall x :: f(x) == (x - b) * g(x)
    ensures Eq(q, Sum(f, inv, ys + [b], ys + [b]), Sum(g, inv, ys, ys))
  {
    hide Eq;
    var zs := ys + [b];
    assert zs[..|zs| - 1] == ys;
    forall i | 0 <= i < |ys| ensures Cancels(q, inv, f, g, b, ys[i], zs, ys) {
      assert zs[i] == ys[i] && !Eq(q, zs[i], zs[|ys|]);
      EqDiff(q, ys[i], b);
    }
    FactorCancels(q, inv, f, g, b, ys, zs, ys);
    SumAppend(f, inv, ys, b, zs);
    assert f(b) == 0;
  }

  lemma DropFirst(q: int, inv: int -> int, f: int -> int, g: int -> int, a: int, ys: seq<int>)
    requires Inverts(q, inv) && Distinct(q, [a] + ys)
    requires forall x :: f(x) == (x - a) * g(x)
    ensures Eq(q, Sum(f, inv, [a] + ys, [a] + ys), Sum(g, inv, ys, ys))
  {
    hide Eq;
    var zs := [a] + ys;
    forall i | 0 <= i < |ys| ensures Cancels(q, inv, f, g, a, ys[i], zs, ys) {
      assert zs[i + 1] == ys[i] && !Eq(q, zs[i + 1], zs[0]);
      EqDiff(q, ys[i], a);
      WeightFirst(inv, a, ys, ys[i]);
    }
    FactorCancels(q, inv, f, g, a, ys, zs, ys);
    SumPrepend(f, inv, a, ys, zs);
    assert f(a) == 0;
  }

  const One: int -> int := x => 1

  function Minus(b: int): int -> int { x => x - b }

  /** Taking a point away at either end of the sum of 1 gives the same multiple. */
  lemma EndsDropped(q: int, inv: int -> int, a: int, mid: seq<int>, b: int)
    requires Inverts(q, inv) && Distinct(q, [a] + mid + [b])
    ensures var zs := [a] + mid + [b];
            && Eq(q, Sum(Minus(b), inv, zs, zs), Sum(One, inv, [a] + mid, [a] + mid))
            && Eq(q, Sum(Minus(a), inv, zs, zs), Sum(One, inv, mid + [b], mid + [b]))
            && Sum(Minus(b), inv, zs, zs) == (a - b) * Sum(One, inv, zs, zs) + Sum(Minus(a), inv, zs, zs)
  {
    hide Eq, Sum, Distinct;
    var zs := [a] + mid + [b];
    assert zs == [a] + (mid + [b]);
    DropLast(q, inv, Minus(b), One, [a] + mid, b);
    DropFirst(q, inv, Minus(a), One, a, mid + [b]);
    SumLinear(Minus(b), One, Minus(a), a - b, inv, zs, zs);
  }

  lemma Quotiented(q: int, inv: int -> int, c: int, s: int, f: int, h: int, v: int)
    requires Inverts(q, inv) && !Eq(q, c, 0) && f == c * s + h && Eq(q, f, v) && Eq(q, h, v)
    ensures Eq(q, s, 0)
  {
    hide Eq;
    Difference(q, f, h, v, c * s);
    assert c * 0 == 0;
    Cancel(q, inv, c, s, 0);
  }

  lemma DistinctParts(q: int, a: int, mid: seq<int>, b: int)
    requires q > 0 && Distinct(q, [a] + mid + [b])
    ensures Distinct(q, [a] + mid) && Distinct(q, mid + [b]) && !Eq(q, a - b, 0)
  {
    hide Eq;
    var zs := [a] + mid + [b];
    var front, back := [a] + mid, mid + [b];
    forall i, j | 0 <= i < j < |front| ensures !Eq(q, front[i], front[j]) && !Eq(q, front[j], front[i]) {
      assert front[i] == zs[i] && front[j] == zs[j];
    }
    forall i, j | 0 <= i < j < |back| ensures !Eq(q, back[i], back[j]) && !Eq(q, back[j], back[i]) {
      assert back[i] == zs[i + 1] && back[j] == zs[j + 1];
    }
    assert zs[0] == a && zs[|zs| - 1] == b;
    EqDiff(q, a, b);
  }

  /** The divided difference of a constant over two or more points vanishes. */
  lemma {:induction false} ConstantVanishes(q: int, inv: int -> int, a: int, mid: seq<int>, b: int)
    requires Inverts(q, inv) && Distinct(q, [a] + mid + [b])
    ensures Eq(q, Sum(One, inv, [a] + mid + [b], [a] + mid + [b]), 0)
    decreases |mid|
  {
    hide Eq, Sum, Distinct;
    var zs := [a] + mid + [b];
    EndsDropped(q, inv, a, mid, b);
    DistinctParts(q, a, mid, b);
    var f, h, s := Sum(Minus(b), inv, zs, zs), Sum(Minus(a), inv, zs, zs), Sum(One, inv, zs, zs);
    if mid == [] {
      assert [a] + mid == [a] && mid + [b] == [b];
      SinglePoint(inv, a);
      SinglePoint(inv, b);
      Quotiented(q, inv, a - b, s, f, h, 1);
    } else {
      var first, last := mid[0], mid[|mid| - 1];
      assert [a] + mid == [a] + mid[..|mid| - 1] + [last] && mid + [b] == [first] + mid[1..] + [b];
      ConstantVanishes(q, inv, a, mid[..|mid| - 1], last);
      ConstantVanishes(q, inv, first, mid[1..], b);
      EqTrans(q, f, Sum(One, inv, [a] + mid, [a] + mid), 0);
      EqTrans(q, h, Sum(One, inv, mid + [b], mid + [b]), 0);
      Quotiented(q, inv, a - b, s, f, h, 0);
    }
  }

  lemma SinglePoint(inv: int -> int, z: int)
    ensures Sum(One, inv, [z], [z]) == 1
  {
    assert [z][..0] == [];
    assert Weight(inv, [z], z) == 1;
  }

  lemma Difference(q: int, x: int, y: int, c: int, d: int)
    requires q > 0 && Eq(q, x, c) && Eq(q, y, c) && x == d + y
    ensures Eq(q, d, 0)
  {
    hide Eq;
    var k := EqWitness(q, x, c);
    var l := EqWitness(q, y, c);
    EqIntro(q, d, 0, k - l);
  }

  function Polynomial(cs: seq<int>): int -> int { x => Eval(cs, x) }

  /** The sum of a polynomial splits off its value at the last point. */
  lemma SplitPolynomial(q: int, inv: int -> int, cs: seq<int>, front: seq<int>, b: int)
    requires Inverts(q, inv) && Distinct(q, front + [b])
    ensures exists h :: Sum(Polynomial(cs), inv, front + [b], front + [b]) == Eval(cs, b) * Sum(One, inv, front + [b], front + [b]) + h
                        && Eq(q, h, Sum(Polynomial(Quotient(cs, b)), inv, front, front))
  {
    hide Eq, Sum, Distinct, Quotient, Eval;
    var zs := front + [b];
    var quotient := Quotient(cs, b);
    var rest: int -> int := x => (x - b) * Eval(quotient, x);
    forall x ensures Polynomial(cs)(x) == Eval(cs, b) * One(x) + rest(x) { Division(cs, b, x); }
    SumLinear(Polynomial(cs), One, rest, Eval(cs, b), inv, zs, zs);
    DropLast(q, inv, rest, Polynomial(quotient), front, b);
    assert Eq(q, Sum(rest, inv, zs, zs), Sum(Polynomial(quotient), inv, front, front));
  }

  lemma VanishingParts(q: int, c: int, s: int, h: int, g: int)
    requires q > 0 && Eq(q, s, 0) && Eq(q, h, g) && Eq(q, g, 0)
    ensures Eq(q, c * s + h, 0)
  {
    hide Eq;
    EqScale(q, c, s, 0);
    assert c * 0 == 0;
    EqTrans(q, h, g, 0);
    EqAdd(q, c * s, 0, h, 0);
  }

  /** The divided difference of a polynomial over more points than it has
      coefficients vanishes. */
  lemma {:induction false} DifferenceVanishes(q: int, inv: int -> int, cs: seq<int>, zs: seq<int>)
    requires Inverts(q, inv) && Distinct(q, zs) && |cs| < |zs|
    ensures Eq(q, Sum(Polynomial(cs), inv, zs, zs), 0)
    decreases |zs|
  {
    if cs == [] {
      ZeroSum(Polynomial(cs), inv, zs, zs);
    } else {
      hide Eq, Sum, Quotient, Eval;
      var a, mid, b := zs[0], zs[1..|zs| - 1], zs[|zs| - 1];
      var front := zs[..|zs| - 1];
      assert zs == [a] + mid + [b] && zs == front + [b];
      SplitPolynomial(q, inv, cs, front, b);
      var h :| Sum(Polynomial(cs), inv, zs, zs) == Eval(cs, b) * Sum(One, inv, zs, zs) + h
               && Eq(q, h, Sum(Polynomial(Quotient(cs, b)), inv, front, front));
      ConstantVanishes(q, inv, a, mid, b);
      DifferenceVanishes(q, inv, Quotient(cs, b), front);
      VanishingParts(q, Eval(cs, b), Sum(One, inv, zs, zs), h, Sum(Polynomial(Quotient(cs, b)), inv, front, front));
    }
  }

  lemma {:induction false} ZeroSum(f: int -> int, inv: int -> int, ps: seq<int>, zs: seq<int>)
    requires forall p | p in ps :: f(p) == 0
    ensures Sum(f, inv, ps, zs) == 0
  {
    if ps != [] {
      ZeroSum(f, inv, ps[..|ps| - 1], zs);
      assert 0 * Weight(inv, zs, ps[|ps| - 1]) == 0;
    }
  }
}

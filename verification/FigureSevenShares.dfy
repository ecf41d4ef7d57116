/** Shares and commitments in Figure 7. */
module FigureSevenShares {
  import opened Options
  import opened AlgebraScalars
  import opened AlgebraLagrange
  import opened AlgebraCurve

  // ------------------------------------------------- evaluating commitments

  /** The point a commitment vector commits to at `x`: the sum of x^k·C_k. */
  function EvalPoints(c: Curve, cs: seq<Point>, x: int): Point {
    if cs == [] then c.zero else c.add(cs[0], c.mul(x, EvalPoints(c, cs[1..], x)))
  }

  /** Powers of the identifier, accumulated from the constant commitment up. */
  method EvaluateCommitments(c: Curve, cs: seq<Point>, x: int) returns (acc: Point)
    requires Laws(c)
    ensures acc == EvalPoints(c, cs, x)
  {
    hide Laws;
    PrimeOrder(c);
    var power := 1;
    acc := c.zero;
    var rest := EvalPoints(c, cs, x);
    assert cs[0..] == cs;
    MulOne(c, rest);
    Zero(c, rest);
    for i := 0 to |cs|
      invariant c.add(acc, c.mul(power, EvalPoints(c, cs[i..], x))) == EvalPoints(c, cs, x)
    {
      var tail := EvalPoints(c, cs[i + 1..], x);
      assert cs[i..][1..] == cs[i + 1..];
      AddPoints(c, power, cs[i], c.mul(x, tail));
      MulScalars(c, power, x, tail);
      EqMod(c.q, power * x);
      MulEq(c, power * x % c.q, power * x, tail);
      Assoc(c, acc, c.mul(power, cs[i]), c.mul(power * x % c.q, tail));
      acc := c.add(acc, c.mul(power, cs[i]));
      power := power * x % c.q;
    }
    assert cs[|cs|..] == [];
    MulOfZero(c, power);
    Zero(c, acc);
  }

  lemma MulOne(c: Curve, p: Point)
    requires Laws(c)
    ensures c.mul(1, p) == p
  {
  }

  /** A share verifies when it opens the commitments at the receiver's identifier. */
  predicate ShareVerifies(c: Curve, cs: seq<Point>, x: int, share: int) {
    c.mul(share, c.g) == EvalPoints(c, cs, x)
  }

  /** Commitments to a polynomial evaluate to the polynomial's value. */
  lemma {:induction false} CommittedValue(c: Curve, coefficients: seq<int>, cs: seq<Point>, x: int)
    requires Laws(c) && |cs| == |coefficients| && forall i | 0 <= i < |cs| :: cs[i] == c.mul(coefficients[i], c.g)
    ensures EvalPoints(c, cs, x) == c.mul(Eval(coefficients, x), c.g)
  {
    hide Laws;
    if cs == [] {
      MulZero(c, c.g);
    } else {
      var value := Eval(coefficients[1..], x);
      CommittedValue(c, coefficients[1..], cs[1..], x);
      MulScalars(c, x, value, c.g);
      AddScalars(c, coefficients[0], x * value, c.g);
    }
  }

  // --------------------------------------------------------- aggregate shares

  /** Commitment vectors added position by position. */
  function AddVectors(c: Curve, a: seq<Point>, b: seq<Point>): (r: seq<Point>)
    requires |a| == |b|
    ensures |r| == |a| && forall i | 0 <= i < |a| :: r[i] == c.add(a[i], b[i])
  {
    if a == [] then [] else [c.add(a[0], b[0])] + AddVectors(c, a[1..], b[1..])
  }

  function Zeros(c: Curve, n: nat): (r: seq<Point>)
    ensures |r| == n && forall i | 0 <= i < n :: r[i] == c.zero
  {
    seq(n, i => c.zero)
  }

  /** The aggregate commitments of all parties. */
  function SumVectors(c: Curve, n: nat, vs: seq<seq<Point>>): (r: seq<Point>)
    requires forall i | 0 <= i < |vs| :: |vs[i]| == n
    ensures |r| == n
  {
    if vs == [] then Zeros(c, n) else AddVectors(c, SumVectors(c, n, vs[..|vs| - 1]), vs[|vs| - 1])
  }

  /** The points that the parties commit to at one position. */
  function Column(vs: seq<seq<Point>>, k: nat): (r: seq<Point>)
    requires forall i | 0 <= i < |vs| :: k < |vs[i]|
    ensures |r| == |vs| && forall i | 0 <= i < |vs| :: r[i] == vs[i][k]
  {
    seq(|vs|, i requires 0 <= i < |vs| => vs[i][k])
  }

  lemma {:induction false} SumAt(c: Curve, n: nat, vs: seq<seq<Point>>, k: nat)
    requires k < n && forall i | 0 <= i < |vs| :: |vs[i]| == n
    ensures SumVectors(c, n, vs)[k] == SumPoints(c, Column(vs, k))
  {
    if vs != [] {
      SumAt(c, n, vs[..|vs| - 1], k);
      assert Column(vs, k)[..|vs| - 1] == Column(vs[..|vs| - 1], k);
    }
  }

  /** Adds the parties' commitments one coefficient at a time; refused when a party
      published a vector of another length. */
  method AggregateCommitments(c: Curve, threshold: nat, vs: seq<seq<Point>>) returns (r: Option<seq<Point>>)
    ensures r.Some? <==> threshold == 0 || forall i | 0 <= i < |vs| :: |vs[i]| == threshold
    ensures r.Some? && threshold > 0 ==> r.value == SumVectors(c, threshold, vs)
  {
    var out: seq<Point> := [];
    for k := 0 to threshold
      invariant |out| == k && (k > 0 ==> forall i | 0 <= i < |vs| :: |vs[i]| == threshold)
      invariant k > 0 ==> forall j | 0 <= j < k :: out[j] == SumVectors(c, threshold, vs)[j]
    {
      var points: seq<Point> := [];
      for i := 0 to |vs|
        invariant |points| == i && forall j | 0 <= j < i :: |vs[j]| == threshold && points[j] == vs[j][k]
      {
        if |vs[i]| != threshold { return None; }
        points := points + [vs[i][k]];
      }
      assert points == Column(vs, k);
      SumAt(c, threshold, vs, k);
      out := out + [SumPoints(c, points)];
    }
    return Some(out);
  }

  lemma {:induction false} EvalOfSum(c: Curve, a: seq<Point>, b: seq<Point>, x: int)
    requires Laws(c) && |a| == |b|
    ensures EvalPoints(c, AddVectors(c, a, b), x) == c.add(EvalPoints(c, a, x), EvalPoints(c, b, x))
  {
    hide Laws;
    if a == [] {
      Zero(c, c.zero);
    } else {
      EvalOfSum(c, a[1..], b[1..], x);
      assert AddVectors(c, a, b)[1..] == AddVectors(c, a[1..], b[1..]);
      var p, r := EvalPoints(c, a[1..], x), EvalPoints(c, b[1..], x);
      AddPoints(c, x, p, r);
      Exchange(c, a[0], b[0], c.mul(x, p), c.mul(x, r));
    }
  }

  lemma {:induction false} EvalOfZeros(c: Curve, n: nat, x: int)
    requires Laws(c)
    ensures EvalPoints(c, Zeros(c, n), x) == c.zero
  {
    hide Laws;
    if n > 0 {
      EvalOfZeros(c, n - 1, x);
      assert Zeros(c, n)[1..] == Zeros(c, n - 1);
      MulOfZero(c, x);
      Zero(c, c.zero);
    }
  }

  /** If every share verifies against its sender's commitments, the sum of the
      shares opens the aggregate commitments at the same identifier. */
  lemma {:induction false} AggregateShareMatches(c: Curve, n: nat, vs: seq<seq<Point>>, x: int, shares: seq<int>)
    requires Laws(c) && |shares| == |vs| && forall i | 0 <= i < |vs| :: |vs[i]| == n && ShareVerifies(c, vs[i], x, shares[i])
    ensures c.mul(SumScalars(shares), c.g) == EvalPoints(c, SumVectors(c, n, vs), x)
  {
    hide Laws;
    if vs == [] {
      EvalOfZeros(c, n, x);
      MulZero(c, c.g);
    } else {
      var m := |vs| - 1;
      AggregateShareMatches(c, n, vs[..m], x, shares[..m]);
      EvalOfSum(c, SumVectors(c, n, vs[..m]), vs[m], x);
      AddScalars(c, SumScalars(shares[..m]), shares[m], c.g);
    }
  }

  /** The secret share of a finished run: the sum of the received shares, checked
      against the local public share of the epoch. The check cannot fail when
      every received share was verified on arrival. */
  method AggregateSecret(c: Curve, shares: seq<int>, ghost n: nat, ghost vs: seq<seq<Point>>, x: int, publicShare: Point)
    returns (secret: int, matches: bool)
    requires Laws(c) && |vs| == |shares| && forall i | 0 <= i < |vs| :: |vs[i]| == n
    requires publicShare == EvalPoints(c, SumVectors(c, n, vs), x)
    ensures 0 <= secret < c.q && Eq(c.q, secret, SumScalars(shares))
    ensures matches <==> c.mul(secret, c.g) == publicShare
    ensures (forall i | 0 <= i < |vs| :: ShareVerifies(c, vs[i], x, shares[i])) ==> matches
  {
    hide Laws;
    PrimeOrder(c);
    secret := 0;
    EqMod(c.q, 0);
    for i := 0 to |shares|
      invariant 0 <= secret < c.q && Eq(c.q, secret, SumScalars(shares[..i]))
    {
      EqAdd(c.q, secret, SumScalars(shares[..i]), shares[i], shares[i]);
      EqMod(c.q, secret + shares[i]);
      assert shares[..i + 1][..i] == shares[..i];
      EqTrans(c.q, (secret + shares[i]) % c.q, secret + shares[i], SumScalars(shares[..i + 1]));
      secret := (secret + shares[i]) % c.q;
    }
    assert shares[..|shares|] == shares;
    MulEq(c, secret, SumScalars(shares), c.g);
    matches := c.mul(secret, c.g) == publicShare;
    if forall i | 0 <= i < |vs| :: ShareVerifies(c, vs[i], x, shares[i]) { AggregateShareMatches(c, n, vs, x, shares); }
  }
}

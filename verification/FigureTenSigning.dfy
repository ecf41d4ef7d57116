/** Online signing: partial signatures that verify against a presign artifact add
    up to a signature that verifies under the public key. */
module FigureTenSigning {
  import opened AlgebraScalars
  import opened AlgebraCurve

  datatype Commitment = Commitment(party: nat, delta: Point, chi: Point)

  /** What the artifact check establishes: the commitments aggregate to the
      generator and to the public key, and Gamma gives a non-zero r. */
  ghost predicate Artifact(c: Curve, gamma: Point, publicKey: Point, commitments: seq<Commitment>) {
    && c.q > 0 && gamma != c.zero && LittleR(c, gamma) != 0
    && SumPoints(c, Deltas(commitments)) == c.g
    && SumPoints(c, Chis(commitments)) == publicKey
  }

  function Deltas(cs: seq<Commitment>): (r: seq<Point>)
    ensures |r| == |cs| && forall i | 0 <= i < |cs| :: r[i] == cs[i].delta
  {
    seq(|cs|, i requires 0 <= i < |cs| => cs[i].delta)
  }

  function Chis(cs: seq<Commitment>): (r: seq<Point>)
    ensures |r| == |cs| && forall i | 0 <= i < |cs| :: r[i] == cs[i].chi
  {
    seq(|cs|, i requires 0 <= i < |cs| => cs[i].chi)
  }

  /** The ECDSA r of a point. */
  function LittleR(c: Curve, p: Point): int
    requires c.q > 0
  {
    c.x(p) % c.q
  }

  /** The partial equation: sigma·Gamma == m·Delta + r·S. */
  predicate PartialVerifies(c: Curve, gamma: Point, commitment: Commitment, message: int, r: int, sigma: int) {
    c.mul(sigma, gamma) == c.add(c.mul(message, commitment.delta), c.mul(r, commitment.chi))
  }

  /** ECDSA verification as in section 6.4 of FIPS 186-5. */
  predicate VerifyEcdsa(c: Curve, publicKey: Point, z: int, r: int, s: int)
    requires c.q > 0
  {
    r != 0 && s != 0 &&
    var w := c.inv(s) % c.q;
    var sum := c.add(c.mul(z * w % c.q, c.g), c.mul(r * w % c.q, publicKey));
    sum != c.zero && LittleR(c, sum) == r
  }

  /** An honestly built partial verifies. */
  lemma HonestPartialVerifies(c: Curve, gamma: Point, commitment: Commitment, message: int, r: int, k: int, chi: int)
    requires Laws(c) && commitment.delta == c.mul(k, gamma) && commitment.chi == c.mul(chi, gamma)
    ensures PartialVerifies(c, gamma, commitment, message, r, (message * k % c.q + r * chi % c.q) % c.q)
  {
    hide Laws;
    var a, b := message * k, r * chi;
    assert c.q > 1 by { PrimeOrder(c); }
    EqMod(c.q, a);
    EqMod(c.q, b);
    EqAdd(c.q, a % c.q, a, b % c.q, b);
    EqMod(c.q, a % c.q + b % c.q);
    EqTrans(c.q, (a % c.q + b % c.q) % c.q, a % c.q + b % c.q, a + b);
    MulEq(c, (a % c.q + b % c.q) % c.q, a + b, gamma);
    AddScalars(c, a, b, gamma);
    MulScalars(c, message, k, gamma);
    MulScalars(c, r, chi, gamma);
  }

  /** Verified partials satisfy the aggregate equation s·Gamma == z·G + r·X. */
  lemma AggregateEquation(c: Curve, gamma: Point, publicKey: Point, commitments: seq<Commitment>, z: int, r: int, sigmas: seq<int>)
    requires Laws(c) && |sigmas| == |commitments|
    requires SumPoints(c, Deltas(commitments)) == c.g && SumPoints(c, Chis(commitments)) == publicKey
    requires forall i | 0 <= i < |sigmas| :: PartialVerifies(c, gamma, commitments[i], z, r, sigmas[i])
    ensures c.mul(SumScalars(sigmas), gamma) == c.add(c.mul(z, c.g), c.mul(r, publicKey))
  {
    hide Laws;
    var us := seq(|sigmas|, i requires 0 <= i < |sigmas| => c.mul(sigmas[i], gamma));
    SumOfMultiples(c, sigmas, gamma, us);
    SumOfCombinations(c, z, Deltas(commitments), r, Chis(commitments), us);
  }

  /** u1·G + u2·X is Gamma when s·Gamma == z·G + r·X, with w the inverse of s. */
  lemma VerificationPoint(c: Curve, gamma: Point, publicKey: Point, z: int, r: int, s: int)
    requires Laws(c) && !Eq(c.q, s, 0) && c.mul(s, gamma) == c.add(c.mul(z, c.g), c.mul(r, publicKey))
    ensures var w := c.inv(s) % c.q; c.add(c.mul(z * w % c.q, c.g), c.mul(r * w % c.q, publicKey)) == gamma
  {
    hide Eq;
    var w := c.inv(s) % c.q;
    EqMod(c.q, z * w);
    EqMod(c.q, r * w);
    MulEq(c, z * w % c.q, w * z, c.g);
    MulEq(c, r * w % c.q, w * r, publicKey);
    MulScalars(c, w, z, c.g);
    MulScalars(c, w, r, publicKey);
    AddPoints(c, w, c.mul(z, c.g), c.mul(r, publicKey));
    MulScalars(c, w, s, gamma);
    EqMod(c.q, c.inv(s));
    EqScale(c.q, s, w, c.inv(s));
    EqTrans(c.q, s * w, s * c.inv(s), 1);
    assert s * w == w * s;
    MulEq(c, w * s, 1, gamma);
  }

  /** The negated sum verifies too: its point is -Gamma, with the same r. */
  lemma NegatedEquation(c: Curve, gamma: Point, publicKey: Point, z: int, r: int, s: int)
    requires Laws(c) && c.mul(s, gamma) == c.add(c.mul(z, c.g), c.mul(r, publicKey))
    ensures c.mul(0 - s, c.neg(gamma)) == c.add(c.mul(z, c.g), c.mul(r, publicKey))
    ensures gamma != c.zero ==> c.neg(gamma) != c.zero
  {
    var minus := c.neg(gamma);
    assert c.mul(1, gamma) == gamma;
    MulNeg(c, 1, gamma);
    assert minus == c.mul(0 - 1, gamma);
    MulScalars(c, 0 - s, 0 - 1, gamma);
    assert (0 - s) * (0 - 1) == s;
    Zero(c, gamma);
  }

  /** The low representative of a scalar, as the code normalises it. */
  function LowS(c: Curve, s: int): int
    requires c.q > 0
  {
    if s <= c.q / 2 then s else (0 - s) % c.q
  }

  datatype Outcome = Waiting | ZeroSum | AggregateRejected | Signed(r: int, s: int)

  /** The partials in signer order. */
  function Gathered(signers: seq<nat>, partials: map<nat, int>): (r: seq<int>)
    requires forall i | 0 <= i < |signers| :: signers[i] in partials
    ensures |r| == |signers| && forall i | 0 <= i < |r| :: r[i] == partials[signers[i]]
  {
    seq(|signers|, i requires 0 <= i < |signers| => partials[signers[i]])
  }

  /** Adds the partials of all signers, normalises and verifies. With partials
      that verify against the artifact the final check cannot reject. */
  method FinalSignature(c: Curve, gamma: Point, publicKey: Point, ghost commitments: seq<Commitment>, z: int, signers: seq<nat>, partials: map<nat, int>)
    returns (out: Outcome)
    requires Laws(c) && |commitments| == |signers|
    requires forall p | p in partials :: 0 <= partials[p] < c.q
    requires forall i, j | 0 <= i < j < |signers| :: signers[i] != signers[j]
    ensures out.Waiting? <==> |partials| != |signers| || exists i :: 0 <= i < |signers| && signers[i] !in partials
    ensures !out.Waiting? ==>
              var s := SumScalars(Gathered(signers, partials)) % c.q;
              && (out.ZeroSum? <==> s == 0)
              && (out.Signed? ==> out.s == LowS(c, s) && out.s <= c.q / 2)
    ensures out.Signed? ==> VerifyEcdsa(c, publicKey, z, out.r, out.s) && out.r == LittleR(c, gamma)
    ensures Artifact(c, gamma, publicKey, commitments)
            && (forall i | 0 <= i < |signers| && signers[i] in partials :: PartialVerifies(c, gamma, commitments[i], z, LittleR(c, gamma), partials[signers[i]]))
            ==> !out.AggregateRejected?
  {
    PrimeOrder(c);
    hide Laws, Eq, VerifyEcdsa, LowS, PartialVerifies;
    if |partials| != |signers| { return Waiting; }
    var s := 0;
    ghost var sigmas: seq<int> := [];
    EqRefl(c.q, 0);
    for i := 0 to |signers|
      invariant |sigmas| == i && forall j | 0 <= j < i :: signers[j] in partials && sigmas[j] == partials[signers[j]]
      invariant 0 <= s < c.q && Eq(c.q, s, SumScalars(sigmas))
    {
      if signers[i] !in partials { return Waiting; }
      var sigma := partials[signers[i]];
      EqAdd(c.q, s, SumScalars(sigmas), sigma, sigma);
      EqMod(c.q, s + sigma);
      EqTrans(c.q, (s + sigma) % c.q, s + sigma, SumScalars(sigmas) + sigma);
      s := (s + sigma) % c.q;
      sigmas := sigmas + [sigma];
      assert sigmas[..i] == sigmas[..|sigmas| - 1];
    }
    assert sigmas == Gathered(signers, partials);
    SumCanonical(c.q, s, SumScalars(sigmas));
    if s == 0 { return ZeroSum; }
    var low := LowS(c, s);
    var r := LittleR(c, gamma);
    LowSmall(c, s);
    if !VerifyEcdsa(c, publicKey, z, r, low) {
      if Artifact(c, gamma, publicKey, commitments) && forall i | 0 <= i < |signers| :: PartialVerifies(c, gamma, commitments[i], z, r, sigmas[i]) {
        AggregateVerifies(c, gamma, publicKey, commitments, z, sigmas, s);
        assert false;
      }
      return AggregateRejected;
    }
    out := Signed(r, low);
  }

  lemma SumCanonical(q: int, s: int, sum: int)
    requires 0 <= s < q && Eq(q, s, sum)
    ensures s == sum % q
  {
    hide Eq;
    EqMod(q, sum);
    EqSym(q, sum % q, sum);
    EqTrans(q, s, sum, sum % q);
    EqCanonical(q, s, sum % q);
  }

  lemma LowSmall(c: Curve, s: int)
    requires c.q > 1 && 0 < s < c.q
    ensures 0 < LowS(c, s) <= c.q / 2
  {
    if s > c.q / 2 {
      assert (0 - s) % c.q == c.q - s by {
        EqIntro(c.q, 0 - s, c.q - s, -1);
        EqMod(c.q, 0 - s);
        EqTrans(c.q, (0 - s) % c.q, 0 - s, c.q - s);
        EqCanonical(c.q, (0 - s) % c.q, c.q - s);
      }
    }
  }

  /** Verified partials always aggregate to a signature that verifies, whichever
      representative of s is taken. */
  lemma AggregateVerifies(c: Curve, gamma: Point, publicKey: Point, commitments: seq<Commitment>, z: int, sigmas: seq<int>, s: int)
    requires Laws(c) && Artifact(c, gamma, publicKey, commitments) && |sigmas| == |commitments|
    requires forall i | 0 <= i < |sigmas| :: PartialVerifies(c, gamma, commitments[i], z, LittleR(c, gamma), sigmas[i])
    requires 0 < s < c.q && Eq(c.q, s, SumScalars(sigmas))
    ensures VerifyEcdsa(c, publicKey, z, LittleR(c, gamma), s)
    ensures VerifyEcdsa(c, publicKey, z, LittleR(c, gamma), LowS(c, s))
  {
    hide Laws, Eq;
    PrimeOrder(c);
    var r := LittleR(c, gamma);
    AggregateEquation(c, gamma, publicKey, commitments, z, r, sigmas);
    MulEq(c, s, SumScalars(sigmas), gamma);
    if Eq(c.q, s, 0) { EqCanonical(c.q, s, 0); assert false; }
    VerificationPoint(c, gamma, publicKey, z, r, s);
    if s > c.q / 2 { NegatedVerifies(c, gamma, publicKey, z, s); }
  }

  lemma NegatedVerifies(c: Curve, gamma: Point, publicKey: Point, z: int, s: int)
    requires Laws(c) && gamma != c.zero && LittleR(c, gamma) != 0 && 0 < s < c.q && s > c.q / 2
    requires c.mul(s, gamma) == c.add(c.mul(z, c.g), c.mul(LittleR(c, gamma), publicKey))
    ensures VerifyEcdsa(c, publicKey, z, LittleR(c, gamma), LowS(c, s))
  {
    hide Laws, Eq;
    PrimeOrder(c);
    var low, r := (0 - s) % c.q, LittleR(c, gamma);
    LowSmall(c, s);
    NegatedEquation(c, gamma, publicKey, z, r, s);
    EqMod(c.q, 0 - s);
    MulEq(c, low, 0 - s, c.neg(gamma));
    if Eq(c.q, low, 0) { EqCanonical(c.q, low, 0); assert false; }
    VerificationPoint(c, c.neg(gamma), publicKey, z, r, low);
    SameX(c, gamma);
  }

  lemma SameX(c: Curve, p: Point)
    requires Laws(c)
    ensures c.x(c.neg(p)) == c.x(p)
  {
  }
}

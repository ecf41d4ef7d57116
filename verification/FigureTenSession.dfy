/** A signing session: the check of the presign artifact it starts from, the
    partials it accepts, and its completion. */
module FigureTenSession {
  import opened Options
  import opened AlgebraCurve
  import opened Counting
  import opened FigureTenSigning

  predicate Increasing(ids: seq<nat>) { forall i, j | 0 <= i < j < |ids| :: ids[i] < ids[j] }

  /** The signer's commitment is at the signer's place. */
  predicate InOrder(signers: seq<nat>, commitments: seq<Commitment>) {
    |commitments| == |signers| && forall i | 0 <= i < |signers| :: commitments[i].party == signers[i]
  }

  /** The local shares open the local commitment. */
  predicate Opened(c: Curve, commitment: Commitment, gamma: Point, k: int, chi: int) {
    commitment.delta == c.mul(k, gamma) && commitment.chi == c.mul(chi, gamma)
  }

  /** The outputs of Figure 8 as one signer holds them. */
  ghost predicate ArtifactHeld(c: Curve, signers: seq<nat>, commitments: seq<Commitment>, local: nat, gamma: Point, publicKey: Point, k: int, chi: int) {
    && signers != [] && Increasing(signers) && 0 !in signers && InOrder(signers, commitments)
    && local in signers && k != 0 && publicKey != c.zero
    && Artifact(c, gamma, publicKey, commitments)
    && forall i | 0 <= i < |signers| && signers[i] == local :: Opened(c, commitments[i], gamma, k, chi)
  }

  method StrictlySorted(ids: seq<nat>) returns (ok: bool)
    ensures ok <==> ids != [] && Increasing(ids) && 0 !in ids
  {
    if ids == [] { return false; }
    var last := 0;
    for i := 0 to |ids|
      invariant i > 0 ==> last == ids[i - 1]
      invariant Increasing(ids[..i]) && 0 !in ids[..i]
    {
      if ids[i] == 0 {
        assert ids[i] in ids;
        return false;
      }
      if i > 0 && ids[i] <= last { return false; }
      last := ids[i];
    }
    assert ids[..|ids|] == ids;
    return true;
  }

  method ValidateArtifact(c: Curve, signers: seq<nat>, commitments: seq<Commitment>, local: nat, gamma: Point, publicKey: Point, k: int, chi: int)
    returns (ok: bool)
    requires c.q > 0
    ensures ok <==> ArtifactHeld(c, signers, commitments, local, gamma, publicKey, k, chi)
  {
    if |commitments| != |signers| { return false; }
    var sorted := StrictlySorted(signers);
    if !sorted || local !in signers || gamma == c.zero || publicKey == c.zero || k == 0 || LittleR(c, gamma) == 0 { return false; }
    var deltas: seq<Point>, chis: seq<Point> := [], [];
    var held: nat := |signers|;
    for i := 0 to |commitments|
      invariant deltas == Deltas(commitments)[..i] && chis == Chis(commitments)[..i]
      invariant forall j | 0 <= j < i :: commitments[j].party == signers[j]
      invariant if held < |signers| then held < i && signers[held] == local else forall j | 0 <= j < i :: signers[j] != local
      invariant held <= |signers|
    {
      if commitments[i].party != signers[i] { return false; }
      deltas := deltas + [commitments[i].delta];
      chis := chis + [commitments[i].chi];
      if commitments[i].party == local { held := i; }
    }
    assert deltas == Deltas(commitments) && chis == Chis(commitments);
    assert held < |signers| && forall j | 0 <= j < |signers| && signers[j] == local :: j == held;
    ok := SumPoints(c, deltas) == c.g && SumPoints(c, chis) == publicKey && Opened(c, commitments[held], gamma, k, chi);
  }

  class SignSession {
    const c: Curve
    const signers: seq<nat>
    const commitments: seq<Commitment>
    const gamma: Point
    const publicKey: Point
    const z: int
    var partials: map<nat, int>
    var signature: Option<(int, int)>
    var completed: bool

    /** Every partial held is a signer's and verifies; a signature exists exactly when
        the session is complete, and verifies under the public key. */
    ghost predicate Valid()
      reads this
    {
      && Laws(c) && Increasing(signers) && InOrder(signers, commitments) && Artifact(c, gamma, publicKey, commitments)
      && partials.Keys <= Elements(signers)
      && (forall p | p in partials :: 0 <= partials[p] < c.q)
      && (forall i | 0 <= i < |signers| && signers[i] in partials :: PartialVerifies(c, gamma, commitments[i], z, LittleR(c, gamma), partials[signers[i]]))
      && (completed <==> signature.Some?)
      && (completed ==> AllIn() && VerifyEcdsa(c, publicKey, z, signature.value.0, signature.value.1))
    }

    predicate AllIn()
      reads this
    {
      forall i | 0 <= i < |signers| :: signers[i] in partials
    }

    constructor (c: Curve, signers: seq<nat>, commitments: seq<Commitment>, gamma: Point, publicKey: Point, z: int)
      requires Laws(c) && Increasing(signers) && InOrder(signers, commitments) && Artifact(c, gamma, publicKey, commitments)
      ensures Valid() && partials == map[] && !completed
      ensures this.c == c && this.signers == signers && this.commitments == commitments && this.gamma == gamma && this.publicKey == publicKey && this.z == z
    {
      this.c, this.signers, this.commitments := c, signers, commitments;
      this.gamma, this.publicKey, this.z := gamma, publicKey, z;
      partials, signature, completed := map[], None, false;
    }

    /** Accepts a bound partial of a signer that has none yet, exactly when it satisfies
        the partial equation of its commitment. */
    method AcceptPartial(from: nat, sigma: int, bound: bool) returns (ok: bool)
      requires Valid() && 0 <= sigma < c.q
      modifies this
      ensures Valid() && completed == old(completed) && signature == old(signature)
      ensures ok <==> bound && from !in old(partials)
                      && exists i :: 0 <= i < |signers| && signers[i] == from && PartialVerifies(c, gamma, commitments[i], z, LittleR(c, gamma), sigma)
      ensures partials == if ok then old(partials)[from := sigma] else old(partials)
    {
      hide Laws, VerifyEcdsa, PartialVerifies, LittleR, Artifact;
      if from !in signers || from in partials || !bound { return false; }
      var at := 0;
      while commitments[at].party != from
        invariant at < |signers| && forall j | 0 <= j < at :: signers[j] != from
        decreases |signers| - at
      {
        if at + 1 == |signers| { assert false; }
        at := at + 1;
      }
      ok := PartialVerifies(c, gamma, commitments[at], z, LittleR(c, gamma), sigma);
      if ok { partials := partials[from := sigma]; }
      assert forall i | 0 <= i < |signers| && signers[i] == from :: i == at;
    }

    /** Completes once every signer's partial is held and the completion is recorded:
        the aggregate is then a signature, unless it is zero; it is never rejected. */
    method TryComplete(recorded: bool) returns (out: Outcome)
      requires Valid()
      modifies this
      ensures Valid() && partials == old(partials)
      ensures out.Waiting? <==> old(completed) || !AllIn()
      ensures !out.AggregateRejected?
      ensures !out.Waiting? ==>
                var s := SumScalars(Gathered(signers, partials)) % c.q;
                && (out.ZeroSum? <==> s == 0)
                && (out.Signed? ==> out.r == LittleR(c, gamma) && out.s == LowS(c, s))
      ensures completed <==> old(completed) || (out.Signed? && recorded)
      ensures signature == if out.Signed? && recorded then Some((out.r, out.s)) else old(signature)
    {
      hide Laws, VerifyEcdsa, PartialVerifies, LowS;
      assert c.q > 1 by { PrimeOrder(c); }
      if completed { return Waiting; }
      SignersCounted();
      out := FinalSignature(c, gamma, publicKey, commitments, z, signers, partials);
      if out.Signed? && recorded {
        signature, completed := Some((out.r, out.s)), true;
      }
    }

    lemma SignersCounted()
      requires Increasing(signers) && partials.Keys <= Elements(signers)
      ensures |partials| == |signers| <==> AllIn()
    {
      assert NoDuplicates(signers);
      DistinctSize(signers);
      SubsetSize(partials.Keys, Elements(signers));
      assert |partials| == |partials.Keys|;
      if AllIn() { assert partials.Keys == Elements(signers); }
    }
  }

  /** The partial that a signer builds from its own shares. */
  function LocalPartial(c: Curve, gamma: Point, z: int, k: int, chi: int): (sigma: int)
    requires c.q > 0
    ensures 0 <= sigma < c.q
  {
    (z * k % c.q + LittleR(c, gamma) * chi % c.q) % c.q
  }

  /** A session that hears an honest partial from every signer, in any order and with
      any repetition, completes, unless the aggregate is zero. */
  method HonestRun(s: SignSession, ks: seq<int>, chis: seq<int>, arrivals: seq<nat>) returns (out: Outcome)
    requires s.Valid() && s.partials == map[] && !s.completed
    requires |ks| == |chis| == |s.signers| && forall i | 0 <= i < |ks| :: Opened(s.c, s.commitments[i], s.gamma, ks[i], chis[i])
    requires forall j | 0 <= j < |arrivals| :: arrivals[j] < |ks|
    requires forall i | 0 <= i < |ks| :: i in arrivals
    modifies s
    ensures s.Valid() && (out.ZeroSum? || (out.Signed? && s.completed))
  {
    hide Laws, VerifyEcdsa, PartialVerifies, LittleR, Artifact;
    PrimeOrder(s.c);
    for i := 0 to |arrivals|
      invariant s.Valid() && !s.completed && forall j | 0 <= j < i :: s.signers[arrivals[j]] in s.partials
    {
      var a := arrivals[i];
      HonestPartialVerifies(s.c, s.gamma, s.commitments[a], s.z, LittleR(s.c, s.gamma), ks[a], chis[a]);
      var _ := s.AcceptPartial(s.signers[a], LocalPartial(s.c, s.gamma, s.z, ks[a], chis[a]), true);
    }
    forall i | 0 <= i < |s.signers| ensures s.signers[i] in s.partials { assert i in arrivals; }
    out := s.TryComplete(true);
  }
}

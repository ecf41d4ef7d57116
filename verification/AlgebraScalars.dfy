/** Arithmetic modulo the group order: congruence of integers, and inverses. */
module AlgebraScalars {

  /** Congruence modulo `q`. */
  predicate Eq(q: int, a: int, b: int)
    requires q > 0
  {
    (a - b) % q == 0
  }

  lemma EqIntro(q: int, a: int, b: int, k: int)
    requires q > 0 && a == b + q * k
    ensures Eq(q, a, b)
  {
    var d := (q * k) / q;
    var r := (q * k) % q;
    assert q * k == q * d + r;
    assert q * (k - d) == r;
    assert k - d >= 1 ==> q * (k - d) >= q;
    assert k - d <= -1 ==> q * (k - d) <= -q;
  }

  lemma EqWitness(q: int, a: int, b: int) returns (k: int)
    requires q > 0 && Eq(q, a, b)
    ensures a == b + q * k
  {
    k := (a - b) / q;
  }

  lemma EqMod(q: int, a: int)
    requires q > 0
    ensures Eq(q, a % q, a) && Eq(q, a, a % q)
  {
    EqIntro(q, a, a % q, a / q);
    EqIntro(q, a % q, a, -(a / q));
  }

  lemma EqSym(q: int, a: int, b: int)
    requires q > 0 && Eq(q, a, b)
    ensures Eq(q, b, a)
  {
    var k := EqWitness(q, a, b);
    EqIntro(q, b, a, -k);
  }

  lemma EqTrans(q: int, a: int, b: int, c: int)
    requires q > 0 && Eq(q, a, b) && Eq(q, b, c)
    ensures Eq(q, a, c)
  {
    var k := EqWitness(q, a, b);
    var l := EqWitness(q, b, c);
    EqIntro(q, a, c, k + l);
  }

  lemma EqAdd(q: int, a: int, b: int, c: int, d: int)
    requires q > 0 && Eq(q, a, b) && Eq(q, c, d)
    ensures Eq(q, a + c, b + d)
  {
    var k := EqWitness(q, a, b);
    var l := EqWitness(q, c, d);
    EqIntro(q, a + c, b + d, k + l);
  }

  lemma EqMul(q: int, a: int, b: int, c: int, d: int)
    requires q > 0 && Eq(q, a, b) && Eq(q, c, d)
    ensures Eq(q, a * c, b * d)
  {
    var k := EqWitness(q, a, b);
    var l := EqWitness(q, c, d);
    assert a * c == b * d + q * (k * c + b * l);
    EqIntro(q, a * c, b * d, k * c + b * l);
  }

  lemma EqDiff(q: int, a: int, b: int)
    requires q > 0
    ensures Eq(q, a - b, 0) <==> Eq(q, a, b)
    ensures !Eq(q, a, b) ==> a != b
  {
  }

  lemma Shuffle(a: int, b: int, c: int, d: int)
    ensures (a * b) * (c * d) == (a * c) * (b * d)
  {
    assert b * (c * d) == (b * d) * c;
    assert (a * b) * (c * d) == a * (b * (c * d)) == a * ((b * d) * c) == (a * c) * (b * d);
  }

  lemma EqRefl(q: int, a: int)
    requires q > 0
    ensures Eq(q, a, a)
  {
  }

  lemma EqScale(q: int, c: int, a: int, b: int)
    requires q > 0 && Eq(q, a, b)
    ensures Eq(q, c * a, c * b) && Eq(q, a * c, b * c)
  {
    hide Eq;
    EqRefl(q, c);
    EqMul(q, c, c, a, b);
    assert c * a == a * c && c * b == b * c;
  }

  lemma EqShift(q: int, a: int, b: int, c: int)
    requires q > 0 && Eq(q, a, b)
    ensures Eq(q, a + c, b + c)
  {
    hide Eq;
    EqRefl(q, c);
    EqAdd(q, a, b, c, c);
  }

  /** Scalars in canonical form are equal when they are congruent. */
  lemma EqCanonical(q: int, a: int, b: int)
    requires q > 0 && Eq(q, a, b) && 0 <= a < q && 0 <= b < q
    ensures a == b
  {
    var k := EqWitness(q, a, b);
    assert k >= 1 ==> q * k >= q;
    assert k <= -1 ==> q * k <= -q;
  }

  /** `inv` inverts every scalar that is not zero, as it does modulo a prime. */
  ghost predicate Inverts(q: int, inv: int -> int) {
    q > 1 && forall a: int :: Eq(q, a, 0) || Eq(q, a * inv(a), 1)
  }

  lemma Cancel(q: int, inv: int -> int, c: int, a: int, b: int)
    requires Inverts(q, inv) && !Eq(q, c, 0) && Eq(q, c * a, c * b)
    ensures Eq(q, a, b)
  {
    hide Eq;
    EqScale(q, inv(c), c * a, c * b);
    EqScale(q, a, c * inv(c), 1);
    EqScale(q, b, c * inv(c), 1);
    assert inv(c) * (c * a) == (c * inv(c)) * a && inv(c) * (c * b) == (c * inv(c)) * b;
    EqSym(q, (c * inv(c)) * a, 1 * a);
    EqTrans(q, a, (c * inv(c)) * a, (c * inv(c)) * b);
    EqTrans(q, a, (c * inv(c)) * b, b);
  }

  /** A product of scalars that are not zero is not zero. */
  lemma NonZeroProduct(q: int, inv: int -> int, a: int, b: int)
    requires Inverts(q, inv) && !Eq(q, a, 0) && !Eq(q, b, 0)
    ensures !Eq(q, a * b, 0)
  {
    hide Eq;
    if Eq(q, a * b, 0) {
      assert a * 0 == 0;
      Cancel(q, inv, a, b, 0);
      assert false;
    }
  }

  lemma InverseUnique(q: int, inv: int -> int, a: int, b: int)
    requires Inverts(q, inv) && !Eq(q, a, 0) && Eq(q, a * b, 1)
    ensures Eq(q, b, inv(a))
  {
    hide Eq;
    EqSym(q, a * inv(a), 1);
    EqTrans(q, a * b, 1, a * inv(a));
    Cancel(q, inv, a, b, inv(a));
  }

  lemma InverseNonZero(q: int, inv: int -> int, a: int)
    requires Inverts(q, inv) && !Eq(q, a, 0)
    ensures !Eq(q, inv(a), 0)
  {
    hide Eq;
    if Eq(q, inv(a), 0) {
      EqScale(q, a, inv(a), 0);
      assert a * 0 == 0;
      EqSym(q, a * inv(a), 1);
      EqTrans(q, 1, a * inv(a), 0);
      EqCanonical(q, 1, 0);
      assert false;
    }
  }
}

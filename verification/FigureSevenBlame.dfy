/** Who is blamed when a share does not decrypt: every observer of a run blames the
    same party, an honest receiver is always upheld, and an honest sender is never
    blamed. */
module FigureSevenBlame {
  import opened Options
  import opened AlgebraScalars
  import opened AlgebraCurve
  import opened FigureSevenShares
  import opened FigureSevenRounds

  /** The accusation is in order: it names another party, is bound to this run, and
      carries the accused party's authentic direct message to the reporter. */
  predicate Bound(cfg: Config, st: State, reporter: Party, a: Accusation) {
    && a.accused != reporter && a.accused in cfg.parties
    && st.rid == Some(a.rid) && st.epoch.Some? && st.epoch.value.id == a.epochId
    && a.envelope.from == a.accused && a.envelope.to == reporter && cfg.authentic(a.envelope)
    && a.envelope.direct.rid == a.rid && a.envelope.direct.epochId == a.epochId
    && SlotOf(st.slots, reporter).shown.Some? && SlotOf(st.slots, a.accused).shown.Some?
    && reporter in st.epoch.value.identifiers
  }

  /** The exponent opens the key the reporter published for the accused. */
  predicate Opens(cfg: Config, st: State, reporter: Party, a: Accusation)
    requires Bound(cfg, st, reporter, a)
  {
    var own, theirs := SlotOf(st.slots, reporter).shown.value.keys, SlotOf(st.slots, a.accused).shown.value.keys;
    0 < a.exponent < cfg.curve.q && a.accused in own && cfg.curve.mul(a.exponent, cfg.curve.g) == own[a.accused] && reporter in theirs
  }

  /** The share the accused sent, unmasked with the disclosed exponent, verifies. */
  predicate ShareMatches(cfg: Config, st: State, reporter: Party, a: Accusation)
    requires cfg.curve.q > 1 && Bound(cfg, st, reporter, a) && Opens(cfg, st, reporter, a)
  {
    var theirs := SlotOf(st.slots, a.accused).shown.value;
    var share := Unmask(cfg, a.rid, a.epochId, a.accused, reporter, cfg.curve.mul(a.exponent, theirs.keys[reporter]), a.envelope.direct.masked);
    ShareVerifies(cfg.curve, theirs.commitments, st.epoch.value.identifiers[reporter], share)
  }

  function Judge(cfg: Config, st: State, reporter: Party, a: Accusation): Blame
    requires cfg.curve.q > 1
  {
    if Bound(cfg, st, reporter, a) && Opens(cfg, st, reporter, a) && !ShareMatches(cfg, st, reporter, a)
    then DecryptionError(a.accused) else FalseAccusation(reporter)
  }

  /** What a receiver broadcasts when a direct share does not verify. */
  function Accuse(cfg: Config, st: State, from: Party, direct: Direct): Accusation
    requires st.rid.Some? && st.epoch.Some? && from in cfg.dhSecrets
  {
    Accusation(from, cfg.dhSecrets[from], SignedDirect(from, cfg.self, direct), st.rid.value, st.epoch.value.id)
  }

  /** Two parties of one run. */
  ghost predicate SameRun(a: Config, b: Config) {
    a.parties == b.parties && a.curve == b.curve && a.ridOf == b.ridOf && a.epochOf == b.epochOf && a.mask == b.mask && a.authentic == b.authentic
  }

  predicate SameReveals(cfg: Config, a: State, b: State) {
    forall p | p in cfg.parties :: SlotOf(a.slots, p).shown == SlotOf(b.slots, p).shown
  }

  /** Observers that hold the same reveals derive the same coin and epoch. */
  lemma ObserversAgree(a: Config, sa: State, b: Config, sb: State)
    requires RoundsInv(a, sa) && RoundsInv(b, sb) && SameRun(a, b) && SameReveals(a, sa, sb) && sa.proofsSent && sb.proofsSent
    ensures sa.rid == sb.rid && sa.epoch == sb.epoch
  {
    hide ShareHeld, ShareVerifies, BuildResult;
    assert Reveals(a, sa.slots) == Reveals(b, sb.slots);
  }

  /** All observers of one run that hold the same reveals blame the same party. */
  lemma BlameAgrees(a: Config, sa: State, b: Config, sb: State, reporter: Party, x: Accusation)
    requires ValidConfig(a) && ValidConfig(b) && RoundsInv(a, sa) && RoundsInv(b, sb)
    requires SameRun(a, b) && SameReveals(a, sa, sb) && sa.proofsSent && sb.proofsSent && reporter in a.parties
    ensures Judge(a, sa, reporter, x) == Judge(b, sb, reporter, x)
  {
    hide RoundsInv, ShareVerifies, SlotOf;
    ObserversAgree(a, sa, b, sb);
  }

  lemma OwnReveal(cfg: Config, st: State)
    requires RoundsInv(cfg, st)
    ensures SlotOf(st.slots, cfg.self).shown == Some(cfg.localReveal)
  {
  }

  /** An honest receiver's accusation is upheld by every observer of the run. */
  lemma HonestAccusationUpheld(cfg: Config, st: State, from: Party, direct: Direct, b: Config, sb: State)
    requires ValidConfig(cfg) && ValidConfig(b) && RoundsInv(cfg, st) && RoundsInv(b, sb)
    requires SameRun(cfg, b) && SameReveals(cfg, st, sb) && sb.proofsSent
    requires from in cfg.parties && from != cfg.self && AcceptDirect(cfg, st, from, direct).verdict.ShareMismatch?
    requires cfg.authentic(SignedDirect(from, cfg.self, direct))
    requires 0 < cfg.dhSecrets[from] < cfg.curve.q && from in cfg.localReveal.keys
             && cfg.localReveal.keys[from] == cfg.curve.mul(cfg.dhSecrets[from], cfg.curve.g)
    ensures Judge(b, sb, cfg.self, Accuse(cfg, st, from, direct)) == DecryptionError(from)
  {
    hide RoundsInv, ShareVerifies, BuildResult, AllProofs, AllShares, SlotOf;
    OwnReveal(cfg, st);
    ObserversAgree(cfg, st, b, sb);
    assert SlotOf(sb.slots, cfg.self).shown == Some(cfg.localReveal);
    assert SlotOf(sb.slots, from).shown == SlotOf(st.slots, from).shown;
  }

  /** An honest sender: the key for the reporter was published from `secret`, and any
      authentic message to the reporter in this run carries a share that verifies,
      masked with the common point. */
  ghost predicate SentHonestly(cfg: Config, st: State, sender: Party, reporter: Party, secret: int, share: int)
    requires cfg.curve.q > 1
  {
    && st.rid.Some? && st.epoch.Some? && reporter in st.epoch.value.identifiers
    && SlotOf(st.slots, sender).shown.Some? && SlotOf(st.slots, reporter).shown.Some?
    && var theirs, own := SlotOf(st.slots, sender).shown.value, SlotOf(st.slots, reporter).shown.value;
    && (reporter in theirs.keys ==> theirs.keys[reporter] == cfg.curve.mul(secret, cfg.curve.g))
    && ShareVerifies(cfg.curve, theirs.commitments, st.epoch.value.identifiers[reporter], share)
    && (forall e: SignedDirect | cfg.authentic(e) && e.from == sender && e.to == reporter && e.direct.rid == st.rid.value && e.direct.epochId == st.epoch.value.id
                                 && sender in own.keys ::
          e.direct.masked == (share + cfg.mask(st.rid.value, st.epoch.value.id, sender, reporter, cfg.curve.mul(secret, own.keys[sender]))) % cfg.curve.q)
  }

  /** Both ends of an exchange reach the same point. */
  lemma CommonPoint(c: Curve, a: int, b: int)
    requires Laws(c)
    ensures c.mul(a, c.mul(b, c.g)) == c.mul(b, c.mul(a, c.g))
  {
    hide Laws;
    MulScalars(c, a, b, c.g);
    MulScalars(c, b, a, c.g);
    assert a * b == b * a;
  }

  /** Unmasking undoes masking, up to the order. */
  lemma MaskUndone(c: Curve, share: int, mask: int)
    requires Laws(c) && c.q > 1
    ensures c.mul(((share + mask) % c.q - mask) % c.q, c.g) == c.mul(share, c.g)
  {
    hide Laws, Eq;
    var masked := (share + mask) % c.q;
    EqMod(c.q, share + mask);
    EqRefl(c.q, 0 - mask);
    EqAdd(c.q, masked, share + mask, 0 - mask, 0 - mask);
    EqMod(c.q, masked - mask);
    EqTrans(c.q, (masked - mask) % c.q, masked - mask, share);
    MulEq(c, (masked - mask) % c.q, share, c.g);
  }

  /** No accusation, whatever exponent and message it discloses, makes an observer
      blame an honest sender: the reporter is blamed. */
  lemma HonestSenderCleared(cfg: Config, st: State, reporter: Party, a: Accusation, secret: int, share: int)
    requires cfg.curve.q > 1 && Laws(cfg.curve) && SentHonestly(cfg, st, a.accused, reporter, secret, share)
    ensures Judge(cfg, st, reporter, a) == FalseAccusation(reporter)
  {
    hide Laws, SlotOf;
    if Bound(cfg, st, reporter, a) && Opens(cfg, st, reporter, a) {
      var c := cfg.curve;
      var theirs, own := SlotOf(st.slots, a.accused).shown.value, SlotOf(st.slots, reporter).shown.value;
      CommonPoint(c, a.exponent, secret);
      MaskUndone(c, share, cfg.mask(a.rid, a.epochId, a.accused, reporter, c.mul(secret, own.keys[a.accused])));
      assert ShareMatches(cfg, st, reporter, a);
    }
  }
}

/** The Figure 7 message machine of one party: commitments, reveals, then proofs
    and direct shares, each accepted message committed in one step. */
module FigureSevenRounds {
  import opened Options
  import opened AlgebraCurve
  import opened FigureSevenShares

  type Party = nat
  type Opening = nat
  type Rid = nat

  /** A reveal: its coin, its polynomial commitments and the keys it publishes. */
  datatype Reveal = Reveal(coin: nat, commitments: seq<Point>, keys: map<Party, Point>)

  datatype Epoch = Epoch(id: nat, identifiers: map<Party, int>)

  datatype Proofs = Proofs(rid: Rid, epochId: nat, body: nat)

  datatype Direct = Direct(rid: Rid, epochId: nat, masked: int, modulus: nat, factor: nat)

  datatype SignedDirect = SignedDirect(from: Party, to: Party, direct: Direct)

  /** One party's fixed inputs and the checks it makes on what it receives. */
  datatype Config = Config(
    self: Party,
    parties: seq<Party>,
    threshold: nat,
    curve: Curve,
    localReveal: Reveal,
    opening: (Party, Reveal) -> Opening,
    revealValid: (Party, Reveal) -> bool,
    ridOf: map<Party, Reveal> -> Option<Rid>,
    epochOf: (map<Party, Reveal>, Rid) -> Option<Epoch>,
    proofsValid: (Party, Reveal, Rid, Epoch, Proofs) -> bool,
    directValid: (Party, Reveal, Rid, Epoch, Direct) -> bool,
    mask: (Rid, nat, Party, Party, Point) -> int,
    authentic: SignedDirect -> bool,
    dhSecrets: map<Party, int>,
    localProofs: (Rid, Epoch) -> Proofs,
    localDirect: (Rid, Epoch) -> Direct,
    localShare: (Rid, Epoch) -> int)

  predicate ValidConfig(cfg: Config) {
    && cfg.self in cfg.parties
    && (exists p :: p in cfg.parties && p != cfg.self)
    && (forall p | p in cfg.parties && p != cfg.self :: p in cfg.dhSecrets)
    && |cfg.localReveal.commitments| == cfg.threshold
    && cfg.curve.q > 1
  }

  datatype Slot = Slot(commitment: Option<Opening>, shown: Option<Reveal>, proofs: Option<Proofs>, direct: Option<Direct>, share: Option<int>)

  const EmptySlot := Slot(None, None, None, None, None)

  /** What a finished run yields. The transcript hash is modelled by what it hashes. */
  datatype Outcome = Outcome(secret: int, rid: Rid, epoch: Epoch, transcript: seq<(Party, Opening, Proofs, nat)>)

  datatype State = State(slots: map<Party, Slot>, revealSent: bool, proofsSent: bool, rid: Option<Rid>, epoch: Option<Epoch>, result: Option<Outcome>)

  datatype Message =
    | CommitmentMessage(from: Party, opening: Opening)
    | RevealMessage(from: Party, shown: Reveal)
    | ProofsMessage(from: Party, proofs: Proofs)
    | DirectMessage(from: Party, direct: Direct)

  datatype Verdict = Accepted(out: set<Sent>) | Refused | ShareMismatch

  /** What a party discloses when a direct share does not verify. */
  datatype Accusation = Accusation(accused: Party, exponent: int, envelope: SignedDirect, rid: Rid, epochId: nat)

  datatype Blame = DecryptionError(party: Party) | FalseAccusation(party: Party)

  datatype Sent = RevealSent | ProofsSent | DirectSent(to: Party) | AccusationSent(accusation: Accusation)

  datatype Step = Step(state: State, verdict: Verdict)

  // ----------------------------------------------------------------- questions

  function SlotOf(slots: map<Party, Slot>, p: Party): Slot { if p in slots then slots[p] else EmptySlot }

  predicate AllCommitments(cfg: Config, slots: map<Party, Slot>) { forall p | p in cfg.parties :: SlotOf(slots, p).commitment.Some? }

  predicate AllReveals(cfg: Config, slots: map<Party, Slot>) { forall p | p in cfg.parties :: SlotOf(slots, p).shown.Some? }

  predicate AllProofs(cfg: Config, slots: map<Party, Slot>) { forall p | p in cfg.parties :: SlotOf(slots, p).proofs.Some? }

  predicate AllShares(cfg: Config, slots: map<Party, Slot>) { forall p | p in cfg.parties :: SlotOf(slots, p).share.Some? && SlotOf(slots, p).direct.Some? }

  function Reveals(cfg: Config, slots: map<Party, Slot>): map<Party, Reveal>
    requires AllReveals(cfg, slots)
  {
    map p | p in cfg.parties :: SlotOf(slots, p).shown.value
  }

  function Shares(cfg: Config, slots: map<Party, Slot>): (r: seq<int>)
    requires AllShares(cfg, slots)
    ensures |r| == |cfg.parties| && forall i | 0 <= i < |r| :: r[i] == SlotOf(slots, cfg.parties[i]).share.value
  {
    seq(|cfg.parties|, i requires 0 <= i < |cfg.parties| => SlotOf(slots, cfg.parties[i]).share.value)
  }

  function TranscriptOf(cfg: Config, slots: map<Party, Slot>): seq<(Party, Opening, Proofs, nat)>
    requires AllReveals(cfg, slots) && AllProofs(cfg, slots) && AllShares(cfg, slots)
  {
    seq(|cfg.parties|, i requires 0 <= i < |cfg.parties| =>
      var s := SlotOf(slots, cfg.parties[i]);
      (cfg.parties[i], cfg.opening(cfg.parties[i], s.shown.value), s.proofs.value, s.direct.value.modulus))
  }

  /** The result, unless the aggregate share is zero. */
  function BuildResult(cfg: Config, slots: map<Party, Slot>, rid: Option<Rid>, epoch: Option<Epoch>): Option<Outcome>
    requires cfg.curve.q > 1
  {
    if AllReveals(cfg, slots) && AllProofs(cfg, slots) && AllShares(cfg, slots) && rid.Some? && epoch.Some? then
      var secret := SumScalars(Shares(cfg, slots)) % cfg.curve.q;
      if secret == 0 then None else Some(Outcome(secret, rid.value, epoch.value, TranscriptOf(cfg, slots)))
    else None
  }

  // --------------------------------------------------------------------- steps

  function Put(st: State, p: Party, s: Slot): State { st.(slots := st.slots[p := s]) }

  function Initial(cfg: Config): State {
    State(map[cfg.self := EmptySlot.(commitment := Some(cfg.opening(cfg.self, cfg.localReveal)), shown := Some(cfg.localReveal))],
          false, false, None, None, None)
  }

  function AcceptCommitment(cfg: Config, st: State, from: Party, opening: Opening): Step {
    var next := Put(st, from, SlotOf(st.slots, from).(commitment := Some(opening)));
    if AllCommitments(cfg, next.slots) then
      Step(next.(revealSent := true), Accepted(if st.revealSent then {} else {RevealSent}))
    else Step(next, Accepted({}))
  }

  /** All reveals are held: derive the run's coin and epoch, and answer with proofs
      and masked shares. */
  function EnterRoundThree(cfg: Config, st: State): Step
    requires AllReveals(cfg, st.slots)
  {
    var all := Reveals(cfg, st.slots);
    var rid := cfg.ridOf(all);
    if rid.None? then Step(st, Refused)
    else
      var epoch := cfg.epochOf(all, rid.value);
      if epoch.None? || cfg.self !in epoch.value.identifiers
         || !ShareVerifies(cfg.curve, cfg.localReveal.commitments, epoch.value.identifiers[cfg.self], cfg.localShare(rid.value, epoch.value))
      then Step(st, Refused)
      else
        var own := SlotOf(st.slots, cfg.self).(proofs := Some(cfg.localProofs(rid.value, epoch.value)), direct := Some(cfg.localDirect(rid.value, epoch.value)),
                                         share := Some(cfg.localShare(rid.value, epoch.value)));
        Step(Put(st, cfg.self, own).(proofsSent := true, rid := rid, epoch := epoch),
             Accepted({ProofsSent} + (set p | p in cfg.parties && p != cfg.self :: DirectSent(p))))
  }

  function AcceptReveal(cfg: Config, st: State, from: Party, shown: Reveal): Step {
    var slot := SlotOf(st.slots, from);
    if slot.commitment.None? || |shown.commitments| != cfg.threshold || !cfg.revealValid(from, shown) || cfg.opening(from, shown) != slot.commitment.value then Step(st, Refused)
    else
      var next := Put(st, from, slot.(shown := Some(shown)));
      if !AllReveals(cfg, next.slots) || st.proofsSent then Step(next, Accepted({}))
      else
        var entered := EnterRoundThree(cfg, next);
        if entered.verdict.Accepted? then entered else Step(st, Refused)
  }

  /** Commits a message of the last round, with the result if it completes the run. */
  function Finish(cfg: Config, st: State, next: State): Step
    requires cfg.curve.q > 1
  {
    if AllProofs(cfg, next.slots) && AllShares(cfg, next.slots) then
      var result := BuildResult(cfg, next.slots, next.rid, next.epoch);
      if result.None? then Step(st, Refused) else Step(next.(result := result), Accepted({}))
    else Step(next, Accepted({}))
  }

  function AcceptProofs(cfg: Config, st: State, from: Party, proofs: Proofs): Step
    requires cfg.curve.q > 1
  {
    var slot := SlotOf(st.slots, from);
    if st.epoch.None? || st.rid.None? || !st.proofsSent then Step(st, Refused)
    else if proofs.rid != st.rid.value || proofs.epochId != st.epoch.value.id || slot.shown.None?
            || !cfg.proofsValid(from, slot.shown.value, st.rid.value, st.epoch.value, proofs)
    then Step(st, Refused)
    else Finish(cfg, st, Put(st, from, slot.(proofs := Some(proofs))))
  }

  /** The share a sender masked for this party. */
  function Unmask(cfg: Config, rid: Rid, epochId: nat, from: Party, to: Party, shared: Point, masked: int): int
    requires cfg.curve.q > 1
  {
    (masked - cfg.mask(rid, epochId, from, to, shared)) % cfg.curve.q
  }

  function ReceivedShare(cfg: Config, rid: Rid, epochId: nat, from: Party, shown: Reveal, masked: int): int
    requires cfg.curve.q > 1 && from in cfg.dhSecrets && cfg.self in shown.keys
  {
    Unmask(cfg, rid, epochId, from, cfg.self, cfg.curve.mul(cfg.dhSecrets[from], shown.keys[cfg.self]), masked)
  }

  function AcceptDirect(cfg: Config, st: State, from: Party, direct: Direct): Step
    requires cfg.curve.q > 1
  {
    var slot := SlotOf(st.slots, from);
    if st.epoch.None? || st.rid.None? || !st.proofsSent then Step(st, Refused)
    else if direct.rid != st.rid.value || direct.epochId != st.epoch.value.id || slot.shown.None? || cfg.self !in st.epoch.value.identifiers
            || !cfg.directValid(from, slot.shown.value, st.rid.value, st.epoch.value, direct)
            || cfg.self !in slot.shown.value.keys || from !in cfg.dhSecrets
    then Step(st, Refused)
    else
      var share := ReceivedShare(cfg, st.rid.value, st.epoch.value.id, from, slot.shown.value, direct.masked);
      if !ShareVerifies(cfg.curve, slot.shown.value.commitments, st.epoch.value.identifiers[cfg.self], share) then Step(st, ShareMismatch)
      else Finish(cfg, st, Put(st, from, slot.(direct := Some(direct), share := Some(share))))
  }

  predicate Duplicate(st: State, m: Message) {
    var slot := SlotOf(st.slots, m.from);
    match m
    case CommitmentMessage(_, _) => slot.commitment.Some?
    case RevealMessage(_, _) => slot.shown.Some?
    case ProofsMessage(_, _) => slot.proofs.Some?
    case DirectMessage(_, _) => slot.share.Some?
  }

  function Receive(cfg: Config, st: State, m: Message): Step
    requires cfg.curve.q > 1
  {
    if m.from == cfg.self || m.from !in cfg.parties || Duplicate(st, m) then Step(st, Refused)
    else match m
      case CommitmentMessage(from, opening) => AcceptCommitment(cfg, st, from, opening)
      case RevealMessage(from, shown) => AcceptReveal(cfg, st, from, shown)
      case ProofsMessage(from, proofs) => AcceptProofs(cfg, st, from, proofs)
      case DirectMessage(from, direct) => AcceptDirect(cfg, st, from, direct)
  }

  // ---------------------------------------------------------------- invariants

  /** A slot whose share is known holds the direct message it came from, and the
      share verifies against the sender's commitments. */
  predicate ShareHeld(cfg: Config, s: Slot, rid: Rid, epoch: Epoch, p: Party)
    requires cfg.curve.q > 1
  {
    && (s.direct.Some? <==> s.share.Some?)
    && (s.direct.Some? ==>
          && s.shown.Some? && cfg.self in s.shown.value.keys && p in cfg.dhSecrets && cfg.self in epoch.identifiers
          && s.share.value == ReceivedShare(cfg, rid, epoch.id, p, s.shown.value, s.direct.value.masked)
          && ShareVerifies(cfg.curve, s.shown.value.commitments, epoch.identifiers[cfg.self], s.share.value))
  }

  /** The coin and epoch are those of the reveals; the local slot is filled from
      them, and every share held was unmasked and verified under them. */
  predicate RoundThree(cfg: Config, slots: map<Party, Slot>, rid: Option<Rid>, epoch: Option<Epoch>)
    requires cfg.curve.q > 1 && AllReveals(cfg, slots)
  {
    && rid.Some? && rid == cfg.ridOf(Reveals(cfg, slots))
    && epoch.Some? && epoch == cfg.epochOf(Reveals(cfg, slots), rid.value)
    && cfg.self in epoch.value.identifiers
    && ShareVerifies(cfg.curve, cfg.localReveal.commitments, epoch.value.identifiers[cfg.self], cfg.localShare(rid.value, epoch.value))
    && SlotOf(slots, cfg.self).proofs == Some(cfg.localProofs(rid.value, epoch.value))
    && SlotOf(slots, cfg.self).direct == Some(cfg.localDirect(rid.value, epoch.value))
    && SlotOf(slots, cfg.self).share == Some(cfg.localShare(rid.value, epoch.value))
    && (forall p | p in cfg.parties && p != cfg.self :: ShareHeld(cfg, SlotOf(slots, p), rid.value, epoch.value, p))
  }

  predicate BeforeRoundThree(cfg: Config, st: State) {
    && st.rid.None? && st.epoch.None?
    && forall p | p in cfg.parties :: SlotOf(st.slots, p).proofs.None? && SlotOf(st.slots, p).direct.None? && SlotOf(st.slots, p).share.None?
  }

  predicate SlotsOpen(cfg: Config, slots: map<Party, Slot>) {
    && (forall p | p in slots :: p in cfg.parties && slots[p].commitment.Some?)
    && (forall p | p in slots && slots[p].shown.Some? :: |slots[p].shown.value.commitments| == cfg.threshold)
    && SlotOf(slots, cfg.self).commitment == Some(cfg.opening(cfg.self, cfg.localReveal)) && SlotOf(slots, cfg.self).shown == Some(cfg.localReveal)
  }

  /** What every reachable state satisfies: the local reveal has left exactly when
      all commitments are held, the proofs exactly when all reveals are, and a
      result exists exactly when all proofs and shares are, and is theirs. */
  predicate RoundsInv(cfg: Config, st: State) {
    && ValidConfig(cfg)
    && SlotsOpen(cfg, st.slots)
    && (st.revealSent <==> AllCommitments(cfg, st.slots))
    && (st.proofsSent <==> AllReveals(cfg, st.slots))
    && (if st.proofsSent then RoundThree(cfg, st.slots, st.rid, st.epoch) else BeforeRoundThree(cfg, st))
    && (st.result.Some? <==> AllProofs(cfg, st.slots) && AllShares(cfg, st.slots))
    && (st.result.Some? ==> st.result == BuildResult(cfg, st.slots, st.rid, st.epoch))
  }

  lemma InitialInv(cfg: Config)
    requires ValidConfig(cfg)
    ensures RoundsInv(cfg, Initial(cfg))
  {
    var p :| p in cfg.parties && p != cfg.self;
    assert SlotOf(Initial(cfg).slots, p) == EmptySlot;
  }

  lemma PutSlots(st: State, p: Party, s: Slot)
    ensures forall r :: SlotOf(Put(st, p, s).slots, r) == if r == p then s else SlotOf(st.slots, r)
  {
  }

  lemma CommitmentKeeps(cfg: Config, st: State, from: Party, opening: Opening)
    requires RoundsInv(cfg, st) && from in cfg.parties && from != cfg.self && SlotOf(st.slots, from).commitment.None?
    ensures RoundsInv(cfg, AcceptCommitment(cfg, st, from, opening).state)
  {
    PutSlots(st, from, SlotOf(st.slots, from).(commitment := Some(opening)));
    assert SlotOf(st.slots, from) == EmptySlot;
    var st' := AcceptCommitment(cfg, st, from, opening).state;
    assert !AllReveals(cfg, st'.slots) && !AllReveals(cfg, st.slots) by { assert SlotOf(st'.slots, from).shown.None?; }
    assert SlotOf(st'.slots, from).proofs.None?;
    assert SlotOf(st.slots, from).proofs.None?;
  }

  lemma EnterKeeps(cfg: Config, st: State)
    requires ValidConfig(cfg) && SlotsOpen(cfg, st.slots) && AllReveals(cfg, st.slots) && (st.revealSent <==> AllCommitments(cfg, st.slots)) && !st.proofsSent
    requires BeforeRoundThree(cfg, st) && st.result.None?
    ensures EnterRoundThree(cfg, st).verdict.Accepted? ==> RoundsInv(cfg, EnterRoundThree(cfg, st).state)
  {
    var entered := EnterRoundThree(cfg, st);
    if entered.verdict.Accepted? {
      PutSlots(st, cfg.self, SlotOf(entered.state.slots, cfg.self));
      var p :| p in cfg.parties && p != cfg.self;
      assert SlotOf(entered.state.slots, p).proofs.None?;
      assert Reveals(cfg, entered.state.slots) == Reveals(cfg, st.slots);
    }
  }

  lemma RevealKeeps(cfg: Config, st: State, from: Party, shown: Reveal)
    requires RoundsInv(cfg, st) && from in cfg.parties && from != cfg.self && SlotOf(st.slots, from).shown.None?
    ensures RoundsInv(cfg, AcceptReveal(cfg, st, from, shown).state)
  {
    var slot := SlotOf(st.slots, from);
    var next := Put(st, from, slot.(shown := Some(shown)));
    PutSlots(st, from, slot.(shown := Some(shown)));
    assert !st.proofsSent by { assert !AllReveals(cfg, st.slots); }
    assert slot.proofs.None?;
    if slot.commitment.Some? && |shown.commitments| == cfg.threshold {
      assert AllCommitments(cfg, next.slots) <==> AllCommitments(cfg, st.slots);
      assert SlotOf(next.slots, from).proofs.None?;
      if AllReveals(cfg, next.slots) { EnterKeeps(cfg, next); }
    }
  }

  /** A slot of the last round changes nothing that was derived from the reveals. */
  lemma LastRoundKeeps(cfg: Config, st: State, from: Party, slot: Slot)
    requires RoundsInv(cfg, st) && st.proofsSent && from in cfg.parties && from != cfg.self
    requires slot.commitment == SlotOf(st.slots, from).commitment && slot.shown == SlotOf(st.slots, from).shown
    requires ShareHeld(cfg, slot, st.rid.value, st.epoch.value, from)
    requires st.result.None?
    ensures RoundsInv(cfg, Finish(cfg, st, Put(st, from, slot)).state)
  {
    hide ShareHeld, ShareVerifies;
    var next := Put(st, from, slot);
    PutSlots(st, from, slot);
    assert AllReveals(cfg, next.slots) && Reveals(cfg, next.slots) == Reveals(cfg, st.slots);
    assert AllCommitments(cfg, next.slots) <==> AllCommitments(cfg, st.slots);
    assert SlotOf(st.slots, from).commitment.Some?;
    assert RoundThree(cfg, next.slots, next.rid, next.epoch);
  }

  lemma ProofsKeeps(cfg: Config, st: State, from: Party, proofs: Proofs)
    requires RoundsInv(cfg, st) && from in cfg.parties && from != cfg.self && SlotOf(st.slots, from).proofs.None?
    ensures RoundsInv(cfg, AcceptProofs(cfg, st, from, proofs).state)
  {
    hide ShareHeld, ShareVerifies, Finish;
    if st.proofsSent {
      assert st.result.None?;
      ShareOfSlot(cfg, SlotOf(st.slots, from), proofs, st.rid.value, st.epoch.value, from);
      LastRoundKeeps(cfg, st, from, SlotOf(st.slots, from).(proofs := Some(proofs)));
    }
  }

  lemma ShareOfSlot(cfg: Config, s: Slot, proofs: Proofs, rid: Rid, epoch: Epoch, p: Party)
    requires cfg.curve.q > 1 && ShareHeld(cfg, s, rid, epoch, p)
    ensures ShareHeld(cfg, s.(proofs := Some(proofs)), rid, epoch, p)
  {
  }

  lemma DirectKeeps(cfg: Config, st: State, from: Party, direct: Direct)
    requires RoundsInv(cfg, st) && from in cfg.parties && from != cfg.self && SlotOf(st.slots, from).share.None?
    ensures RoundsInv(cfg, AcceptDirect(cfg, st, from, direct).state)
  {
    hide ShareVerifies, Finish;
    var step := AcceptDirect(cfg, st, from, direct);
    var slot := SlotOf(st.slots, from);
    if st.proofsSent && slot.shown.Some? && cfg.self in slot.shown.value.keys && from in cfg.dhSecrets && st.epoch.Some? && st.rid.Some? {
      var share := ReceivedShare(cfg, st.rid.value, st.epoch.value.id, from, slot.shown.value, direct.masked);
      if cfg.self in st.epoch.value.identifiers && ShareVerifies(cfg.curve, slot.shown.value.commitments, st.epoch.value.identifiers[cfg.self], share) {
        LastRoundKeeps(cfg, st, from, slot.(direct := Some(direct), share := Some(share)));
      }
    }
  }

  lemma ReceiveKeeps(cfg: Config, st: State, m: Message)
    requires RoundsInv(cfg, st)
    ensures RoundsInv(cfg, Receive(cfg, st, m).state)
  {
    hide RoundsInv, AcceptCommitment, AcceptReveal, AcceptProofs, AcceptDirect;
    if m.from != cfg.self && m.from in cfg.parties && !Duplicate(st, m) {
      match m
      case CommitmentMessage(from, opening) => CommitmentKeeps(cfg, st, from, opening);
      case RevealMessage(from, shown) => RevealKeeps(cfg, st, from, shown);
      case ProofsMessage(from, proofs) => ProofsKeeps(cfg, st, from, proofs);
      case DirectMessage(from, direct) => DirectKeeps(cfg, st, from, direct);
    }
  }
}

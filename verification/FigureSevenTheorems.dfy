/** Properties of every run of the Figure 7 machine: what it sends and when, that
    the order of delivery does not matter, and that its result opens the epoch's
    public share. */
module FigureSevenTheorems {
  import opened Options
  import opened AlgebraScalars
  import opened AlgebraCurve
  import opened FigureSevenShares
  import opened FigureSevenRounds

  /** The state after a sequence of deliveries. */
  function RunAll(cfg: Config, msgs: seq<Message>): State
    requires cfg.curve.q > 1
  {
    if msgs == [] then Initial(cfg) else Receive(cfg, RunAll(cfg, msgs[..|msgs| - 1]), msgs[|msgs| - 1]).state
  }

  predicate AllAccepted(cfg: Config, msgs: seq<Message>)
    requires cfg.curve.q > 1
  {
    msgs != [] ==> AllAccepted(cfg, msgs[..|msgs| - 1]) && Receive(cfg, RunAll(cfg, msgs[..|msgs| - 1]), msgs[|msgs| - 1]).verdict.Accepted?
  }

  /** The invariant holds after every sequence of deliveries, accepted or not. */
  lemma {:induction false} ReachableRounds(cfg: Config, msgs: seq<Message>)
    requires ValidConfig(cfg)
    ensures RoundsInv(cfg, RunAll(cfg, msgs))
  {
    hide RoundsInv, Receive;
    if msgs == [] {
      InitialInv(cfg);
    } else {
      ReachableRounds(cfg, msgs[..|msgs| - 1]);
      ReceiveKeeps(cfg, RunAll(cfg, msgs[..|msgs| - 1]), msgs[|msgs| - 1]);
    }
  }

  // ------------------------------------------------- what a message changes

  /** The received parts of a slot after it took the message. */
  predicate Filled(before: Slot, after: Slot, m: Message) {
    match m
    case CommitmentMessage(_, opening) => after == before.(commitment := Some(opening))
    case RevealMessage(_, shown) => after == before.(shown := Some(shown))
    case ProofsMessage(_, proofs) => after == before.(proofs := Some(proofs))
    case DirectMessage(_, direct) => after.share.Some? && after == before.(direct := Some(direct), share := after.share)
  }

  /** Only the sender's slot takes the message; of the local slot, which the round
      change fills, the commitment and the reveal stay. */
  predicate TakenBy(cfg: Config, st: State, m: Message, next: State) {
    && m.from in cfg.parties && m.from != cfg.self && !Duplicate(st, m)
    && Filled(SlotOf(st.slots, m.from), SlotOf(next.slots, m.from), m)
    && (forall p | p in cfg.parties && p != cfg.self && p != m.from :: SlotOf(next.slots, p) == SlotOf(st.slots, p))
    && SlotOf(next.slots, cfg.self).commitment == SlotOf(st.slots, cfg.self).commitment
    && SlotOf(next.slots, cfg.self).shown == SlotOf(st.slots, cfg.self).shown
  }

  lemma EnterSlots(cfg: Config, st: State)
    requires AllReveals(cfg, st.slots)
    ensures SlotOf(EnterRoundThree(cfg, st).state.slots, cfg.self).commitment == SlotOf(st.slots, cfg.self).commitment
    ensures SlotOf(EnterRoundThree(cfg, st).state.slots, cfg.self).shown == SlotOf(st.slots, cfg.self).shown
    ensures forall p | p != cfg.self :: SlotOf(EnterRoundThree(cfg, st).state.slots, p) == SlotOf(st.slots, p)
    ensures EnterRoundThree(cfg, st).verdict.Accepted? ==> EnterRoundThree(cfg, st).state.revealSent == st.revealSent
  {
    hide ShareVerifies;
  }

  lemma CommitmentTaken(cfg: Config, st: State, m: Message)
    requires m.CommitmentMessage? && m.from in cfg.parties && m.from != cfg.self && !Duplicate(st, m)
    ensures TakenBy(cfg, st, m, AcceptCommitment(cfg, st, m.from, m.opening).state)
  {
  }

  lemma RevealTaken(cfg: Config, st: State, m: Message)
    requires m.RevealMessage? && m.from in cfg.parties && m.from != cfg.self && !Duplicate(st, m)
    ensures AcceptReveal(cfg, st, m.from, m.shown).verdict.Accepted? ==> TakenBy(cfg, st, m, AcceptReveal(cfg, st, m.from, m.shown).state)
  {
    hide EnterRoundThree;
    var next := Put(st, m.from, SlotOf(st.slots, m.from).(shown := Some(m.shown)));
    if AllReveals(cfg, next.slots) { EnterSlots(cfg, next); }
  }

  lemma FinishSlots(cfg: Config, st: State, next: State)
    requires cfg.curve.q > 1 && Finish(cfg, st, next).verdict.Accepted?
    ensures Finish(cfg, st, next).state.slots == next.slots && Finish(cfg, st, next).verdict.out == {}
  {
    hide BuildResult;
  }

  lemma ProofsTaken(cfg: Config, st: State, m: Message)
    requires cfg.curve.q > 1 && m.ProofsMessage? && m.from in cfg.parties && m.from != cfg.self && !Duplicate(st, m)
    requires AcceptProofs(cfg, st, m.from, m.proofs).verdict.Accepted?
    ensures TakenBy(cfg, st, m, AcceptProofs(cfg, st, m.from, m.proofs).state) && AcceptProofs(cfg, st, m.from, m.proofs).verdict.out == {}
  {
    hide Finish;
    FinishSlots(cfg, st, Put(st, m.from, SlotOf(st.slots, m.from).(proofs := Some(m.proofs))));
  }

  lemma DirectTaken(cfg: Config, st: State, m: Message)
    requires cfg.curve.q > 1 && m.DirectMessage? && m.from in cfg.parties && m.from != cfg.self && !Duplicate(st, m)
    requires AcceptDirect(cfg, st, m.from, m.direct).verdict.Accepted?
    ensures TakenBy(cfg, st, m, AcceptDirect(cfg, st, m.from, m.direct).state) && AcceptDirect(cfg, st, m.from, m.direct).verdict.out == {}
  {
    hide Finish, ShareVerifies;
    var slot := SlotOf(st.slots, m.from);
    var share := ReceivedShare(cfg, st.rid.value, st.epoch.value.id, m.from, slot.shown.value, m.direct.masked);
    FinishSlots(cfg, st, Put(st, m.from, slot.(direct := Some(m.direct), share := Some(share))));
  }

  lemma MessageTaken(cfg: Config, st: State, m: Message)
    requires cfg.curve.q > 1 && Receive(cfg, st, m).verdict.Accepted?
    ensures TakenBy(cfg, st, m, Receive(cfg, st, m).state)
  {
    hide TakenBy, AcceptCommitment, AcceptReveal, AcceptProofs, AcceptDirect;
    match m
    case CommitmentMessage(_, _) => CommitmentTaken(cfg, st, m);
    case RevealMessage(_, _) => RevealTaken(cfg, st, m);
    case ProofsMessage(_, _) => ProofsTaken(cfg, st, m);
    case DirectMessage(_, _) => DirectTaken(cfg, st, m);
  }

  // -------------------------------------------------------------- what is sent

  /** The step sends the reveal exactly when it completes the commitments, and the
      proofs and direct shares exactly when it completes the reveals. */
  ghost predicate SentOnCompletion(cfg: Config, st: State, step: Step)
    requires step.verdict.Accepted?
  {
    && (RevealSent in step.verdict.out <==> !AllCommitments(cfg, st.slots) && AllCommitments(cfg, step.state.slots))
    && (ProofsSent in step.verdict.out <==> !AllReveals(cfg, st.slots) && AllReveals(cfg, step.state.slots))
    && (forall p :: DirectSent(p) in step.verdict.out <==> ProofsSent in step.verdict.out && p in cfg.parties && p != cfg.self)
  }

  lemma CommitmentSends(cfg: Config, st: State, m: Message)
    requires RoundsInv(cfg, st) && m.CommitmentMessage? && m.from in cfg.parties && m.from != cfg.self && !Duplicate(st, m)
    ensures SentOnCompletion(cfg, st, AcceptCommitment(cfg, st, m.from, m.opening))
  {
    hide RoundThree, BeforeRoundThree, BuildResult;
    PutSlots(st, m.from, SlotOf(st.slots, m.from).(commitment := Some(m.opening)));
    assert SlotOf(st.slots, m.from) == EmptySlot;
    assert SlotOf(AcceptCommitment(cfg, st, m.from, m.opening).state.slots, m.from).shown.None?;
  }

  lemma RevealSends(cfg: Config, st: State, m: Message)
    requires RoundsInv(cfg, st) && m.RevealMessage? && m.from in cfg.parties && m.from != cfg.self && !Duplicate(st, m)
    requires AcceptReveal(cfg, st, m.from, m.shown).verdict.Accepted?
    ensures SentOnCompletion(cfg, st, AcceptReveal(cfg, st, m.from, m.shown))
  {
    hide RoundThree, BeforeRoundThree, BuildResult, ShareVerifies;
    var next := Put(st, m.from, SlotOf(st.slots, m.from).(shown := Some(m.shown)));
    PutSlots(st, m.from, SlotOf(st.slots, m.from).(shown := Some(m.shown)));
    assert !AllReveals(cfg, st.slots);
    if AllReveals(cfg, next.slots) { EnterSlots(cfg, next); }
    var step := AcceptReveal(cfg, st, m.from, m.shown);
    assert forall p | p in cfg.parties :: SlotOf(step.state.slots, p).commitment == SlotOf(st.slots, p).commitment;
    assert AllReveals(cfg, step.state.slots) <==> AllReveals(cfg, next.slots);
  }

  lemma NothingSent(cfg: Config, st: State, m: Message, step: Step)
    requires step.verdict == Accepted({}) && (m.ProofsMessage? || m.DirectMessage?) && TakenBy(cfg, st, m, step.state)
    ensures SentOnCompletion(cfg, st, step)
  {
    assert forall p | p in cfg.parties :: SlotOf(step.state.slots, p).commitment == SlotOf(st.slots, p).commitment
                                          && SlotOf(step.state.slots, p).shown == SlotOf(st.slots, p).shown;
  }

  /** In every reachable state the next message sends what it completes, so that the
      local reveal leaves only after all commitments are held, the proofs and the
      direct shares only after all reveals, and none of them twice. */
  lemma SentInOrder(cfg: Config, msgs: seq<Message>, m: Message)
    requires ValidConfig(cfg) && Receive(cfg, RunAll(cfg, msgs), m).verdict.Accepted?
    ensures SentOnCompletion(cfg, RunAll(cfg, msgs), Receive(cfg, RunAll(cfg, msgs), m))
  {
    hide RoundsInv, SentOnCompletion, TakenBy, RunAll, AcceptCommitment, AcceptReveal, AcceptProofs, AcceptDirect;
    var st := RunAll(cfg, msgs);
    ReachableRounds(cfg, msgs);
    match m
    case CommitmentMessage(_, _) => CommitmentSends(cfg, st, m);
    case RevealMessage(_, _) => RevealSends(cfg, st, m);
    case ProofsMessage(_, _) => ProofsTaken(cfg, st, m); NothingSent(cfg, st, m, Receive(cfg, st, m));
    case DirectMessage(_, _) => DirectTaken(cfg, st, m); NothingSent(cfg, st, m, Receive(cfg, st, m));
  }

  // ------------------------------------------------------ order of delivery

  /** The slots record exactly this message of its sender and kind. */
  predicate Recorded(slots: map<Party, Slot>, m: Message) {
    var slot := SlotOf(slots, m.from);
    match m
    case CommitmentMessage(_, opening) => slot.commitment == Some(opening)
    case RevealMessage(_, shown) => slot.shown == Some(shown)
    case ProofsMessage(_, proofs) => slot.proofs == Some(proofs)
    case DirectMessage(_, direct) => slot.direct == Some(direct)
  }

  lemma DirectMissing(cfg: Config, st: State, p: Party)
    requires RoundsInv(cfg, st) && p in cfg.parties && p != cfg.self && SlotOf(st.slots, p).share.None?
    ensures SlotOf(st.slots, p).direct.None?
  {
    hide BuildResult, ShareVerifies;
    if st.proofsSent { assert ShareHeld(cfg, SlotOf(st.slots, p), st.rid.value, st.epoch.value, p); }
  }

  /** Accepting a message records it and nothing else. */
  lemma AcceptRecords(cfg: Config, st: State, m: Message, x: Message)
    requires ValidConfig(cfg) && RoundsInv(cfg, st) && Receive(cfg, st, m).verdict.Accepted? && x.from != cfg.self && x.from in cfg.parties
    ensures m.from in cfg.parties && m.from != cfg.self
    ensures Recorded(Receive(cfg, st, m).state.slots, x) <==> Recorded(st.slots, x) || x == m
  {
    hide RoundsInv, Receive;
    MessageTaken(cfg, st, m);
    if m.DirectMessage? { DirectMissing(cfg, st, m.from); }
  }

  /** After an accepted run the slots record exactly its messages. */
  lemma {:induction false} RunRecords(cfg: Config, msgs: seq<Message>, x: Message)
    requires ValidConfig(cfg) && AllAccepted(cfg, msgs) && x.from != cfg.self && x.from in cfg.parties
    ensures Recorded(RunAll(cfg, msgs).slots, x) <==> x in msgs
  {
    hide RoundsInv, Receive;
    if msgs != [] {
      var front, m := msgs[..|msgs| - 1], msgs[|msgs| - 1];
      assert msgs == front + [m];
      RunRecords(cfg, front, x);
      ReachableRounds(cfg, front);
      AcceptRecords(cfg, RunAll(cfg, front), m, x);
    }
  }

  lemma SameOptions<T(!new)>(a: Option<T>, b: Option<T>)
    requires forall v :: a == Some(v) <==> b == Some(v)
    ensures a == b
  {
    if a.Some? { assert b == Some(a.value); }
  }

  predicate SameReceived(cfg: Config, a: State, b: State) {
    forall p | p in cfg.parties && p != cfg.self ::
      var s, t := SlotOf(a.slots, p), SlotOf(b.slots, p);
      s.commitment == t.commitment && s.shown == t.shown && s.proofs == t.proofs && s.direct == t.direct
  }

  lemma SlotsAgree(cfg: Config, a: State, b: State)
    requires forall x: Message | x.from != cfg.self && x.from in cfg.parties :: Recorded(a.slots, x) <==> Recorded(b.slots, x)
    ensures SameReceived(cfg, a, b)
  {
    forall p | p in cfg.parties && p != cfg.self
      ensures SlotOf(a.slots, p).commitment == SlotOf(b.slots, p).commitment && SlotOf(a.slots, p).shown == SlotOf(b.slots, p).shown
              && SlotOf(a.slots, p).proofs == SlotOf(b.slots, p).proofs && SlotOf(a.slots, p).direct == SlotOf(b.slots, p).direct
    {
      var s, t := SlotOf(a.slots, p), SlotOf(b.slots, p);
      forall v: Opening ensures s.commitment == Some(v) <==> t.commitment == Some(v) { assert Recorded(a.slots, CommitmentMessage(p, v)) <==> Recorded(b.slots, CommitmentMessage(p, v)); }
      forall v ensures s.shown == Some(v) <==> t.shown == Some(v) { assert Recorded(a.slots, RevealMessage(p, v)) <==> Recorded(b.slots, RevealMessage(p, v)); }
      forall v ensures s.proofs == Some(v) <==> t.proofs == Some(v) { assert Recorded(a.slots, ProofsMessage(p, v)) <==> Recorded(b.slots, ProofsMessage(p, v)); }
      forall v ensures s.direct == Some(v) <==> t.direct == Some(v) { assert Recorded(a.slots, DirectMessage(p, v)) <==> Recorded(b.slots, DirectMessage(p, v)); }
      SameOptions(s.commitment, t.commitment);
      SameOptions(s.shown, t.shown);
      SameOptions(s.proofs, t.proofs);
      SameOptions(s.direct, t.direct);
    }
  }

  /** The invariant leaves nothing undetermined but what was received. */
  lemma ReceivedDetermines(cfg: Config, a: State, b: State)
    requires RoundsInv(cfg, a) && RoundsInv(cfg, b) && SameReceived(cfg, a, b)
    ensures a == b
  {
    hide BuildResult, ShareVerifies, ReceivedShare;
    forall p | p in cfg.parties ensures SlotOf(a.slots, p).commitment == SlotOf(b.slots, p).commitment && SlotOf(a.slots, p).shown == SlotOf(b.slots, p).shown {}
    assert AllReveals(cfg, a.slots) <==> AllReveals(cfg, b.slots);
    assert AllCommitments(cfg, a.slots) <==> AllCommitments(cfg, b.slots);
    if a.proofsSent {
      assert Reveals(cfg, a.slots) == Reveals(cfg, b.slots);
      forall p | p in cfg.parties && p != cfg.self ensures SlotOf(a.slots, p).share == SlotOf(b.slots, p).share {
        assert ShareHeld(cfg, SlotOf(a.slots, p), a.rid.value, a.epoch.value, p) && ShareHeld(cfg, SlotOf(b.slots, p), b.rid.value, b.epoch.value, p);
      }
    }
    forall p | p in cfg.parties ensures SlotOf(a.slots, p) == SlotOf(b.slots, p) {}
    forall p ensures p in a.slots <==> p in b.slots {
      if p in cfg.parties { assert SlotOf(a.slots, p).commitment == SlotOf(b.slots, p).commitment; }
    }
    assert a.slots == b.slots;
  }

  /** Delivery order is immaterial: two accepted runs that deliver the same
      messages end in the same state, hence with the same coin, epoch, secret share
      and transcript. */
  lemma OrderIndependent(cfg: Config, a: seq<Message>, b: seq<Message>)
    requires ValidConfig(cfg) && AllAccepted(cfg, a) && AllAccepted(cfg, b) && forall m :: m in a <==> m in b
    ensures RunAll(cfg, a) == RunAll(cfg, b)
  {
    hide RoundsInv, Receive, Recorded;
    forall x: Message | x.from != cfg.self && x.from in cfg.parties ensures Recorded(RunAll(cfg, a).slots, x) <==> Recorded(RunAll(cfg, b).slots, x) {
      RunRecords(cfg, a, x);
      RunRecords(cfg, b, x);
    }
    SlotsAgree(cfg, RunAll(cfg, a), RunAll(cfg, b));
    ReachableRounds(cfg, a);
    ReachableRounds(cfg, b);
    ReceivedDetermines(cfg, RunAll(cfg, a), RunAll(cfg, b));
  }

  // ------------------------------------------------------------------ the result

  /** The parties' commitment vectors, in party order. */
  function Vectors(cfg: Config, slots: map<Party, Slot>): (r: seq<seq<Point>>)
    requires AllReveals(cfg, slots)
    ensures |r| == |cfg.parties| && forall i | 0 <= i < |r| :: r[i] == SlotOf(slots, cfg.parties[i]).shown.value.commitments
  {
    seq(|cfg.parties|, i requires 0 <= i < |cfg.parties| => SlotOf(slots, cfg.parties[i]).shown.value.commitments)
  }

  /** The secret share of a finished run opens the public share that the epoch
      derives from the aggregate commitments: the final check cannot fail. */
  lemma ResultOpens(cfg: Config, msgs: seq<Message>)
    requires ValidConfig(cfg) && Laws(cfg.curve) && RunAll(cfg, msgs).result.Some?
    ensures var st := RunAll(cfg, msgs);
            && AllReveals(cfg, st.slots) && st.epoch.Some? && cfg.self in st.epoch.value.identifiers
            && (forall i | 0 <= i < |cfg.parties| :: |Vectors(cfg, st.slots)[i]| == cfg.threshold)
            && cfg.curve.mul(st.result.value.secret, cfg.curve.g)
               == EvalPoints(cfg.curve, SumVectors(cfg.curve, cfg.threshold, Vectors(cfg, st.slots)), st.epoch.value.identifiers[cfg.self])
  {
    hide RunAll, Laws;
    var st := RunAll(cfg, msgs);
    ReachableRounds(cfg, msgs);
    FinishedShares(cfg, st);
    var shares, x := Shares(cfg, st.slots), st.epoch.value.identifiers[cfg.self];
    AggregateShareMatches(cfg.curve, cfg.threshold, Vectors(cfg, st.slots), x, shares);
    EqMod(cfg.curve.q, SumScalars(shares));
    MulEq(cfg.curve, SumScalars(shares) % cfg.curve.q, SumScalars(shares), cfg.curve.g);
  }

  lemma FinishedShares(cfg: Config, st: State)
    requires RoundsInv(cfg, st) && st.result.Some?
    ensures AllReveals(cfg, st.slots) && AllShares(cfg, st.slots) && st.epoch.Some? && cfg.self in st.epoch.value.identifiers
    ensures st.result.value.secret == SumScalars(Shares(cfg, st.slots)) % cfg.curve.q
    ensures forall i | 0 <= i < |cfg.parties| ::
              && |Vectors(cfg, st.slots)[i]| == cfg.threshold
              && ShareVerifies(cfg.curve, Vectors(cfg, st.slots)[i], st.epoch.value.identifiers[cfg.self], Shares(cfg, st.slots)[i])
  {
    hide ShareVerifies;
    forall i | 0 <= i < |cfg.parties|
      ensures |Vectors(cfg, st.slots)[i]| == cfg.threshold
      ensures ShareVerifies(cfg.curve, Vectors(cfg, st.slots)[i], st.epoch.value.identifiers[cfg.self], Shares(cfg, st.slots)[i])
    {
      var p := cfg.parties[i];
      if p != cfg.self { assert ShareHeld(cfg, SlotOf(st.slots, p), st.rid.value, st.epoch.value, p); }
    }
  }
}

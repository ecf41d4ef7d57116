/** The Figure 7 state of one party as it is updated in place: each message is
    prepared against the slots held so far, counting its sender as already there,
    and then committed. */
module FigureSevenSession {
  import opened Options
  import opened AlgebraScalars
  import opened AlgebraCurve
  import opened FigureSevenShares
  import opened FigureSevenRounds
  import opened FigureSevenBlame
  import opened FigureSevenAborts

  lemma SumMod(q: int, a: int, b: int)
    requires q > 0
    ensures (a % q + b) % q == (a + b) % q
  {
    EqMod(q, a);
    EqRefl(q, b);
    EqAdd(q, a % q, a, b, b);
    EqMod(q, a % q + b);
    EqMod(q, a + b);
    EqTrans(q, (a % q + b) % q, a % q + b, a + b);
    EqSym(q, (a + b) % q, a + b);
    EqTrans(q, (a % q + b) % q, a + b, (a + b) % q);
    EqCanonical(q, (a % q + b) % q, (a + b) % q);
  }

  class AuxInfoState {
    const cfg: Config
    var slots: map<Party, Slot>
    var revealSent: bool
    var proofsSent: bool
    var rid: Option<Rid>
    var epoch: Option<Epoch>
    var result: Option<Outcome>
    var aborted: bool

    function Held(): State
      reads this
    {
      State(slots, revealSent, proofsSent, rid, epoch, result)
    }

    function View(): Session
      reads this
    {
      if aborted then Aborted else Running(Held())
    }

    constructor (cfg: Config)
      requires ValidConfig(cfg)
      ensures this.cfg == cfg && View() == Running(Initial(cfg)) && RoundsInv(cfg, Held())
    {
      this.cfg := cfg;
      slots := map[cfg.self := EmptySlot.(commitment := Some(cfg.opening(cfg.self, cfg.localReveal)), shown := Some(cfg.localReveal))];
      revealSent, proofsSent, aborted := false, false, false;
      rid, epoch, result := None, None, None;
      new;
      InitialInv(cfg);
    }

    // ------------------------------------------------------- questions by scanning

    method CommitmentsExcept(except: Party) returns (all: bool)
      ensures all <==> forall p | p in cfg.parties && p != except :: SlotOf(slots, p).commitment.Some?
    {
      for i := 0 to |cfg.parties|
        invariant forall j | 0 <= j < i && cfg.parties[j] != except :: SlotOf(slots, cfg.parties[j]).commitment.Some?
      {
        if cfg.parties[i] != except && SlotOf(slots, cfg.parties[i]).commitment.None? { return false; }
      }
      return true;
    }

    method ProofsExcept(except: Option<Party>) returns (all: bool)
      ensures all <==> forall p | p in cfg.parties && except != Some(p) :: SlotOf(slots, p).proofs.Some?
    {
      for i := 0 to |cfg.parties|
        invariant forall j | 0 <= j < i && except != Some(cfg.parties[j]) :: SlotOf(slots, cfg.parties[j]).proofs.Some?
      {
        if except != Some(cfg.parties[i]) && SlotOf(slots, cfg.parties[i]).proofs.None? { return false; }
      }
      return true;
    }

    method SharesExcept(except: Option<Party>) returns (all: bool)
      ensures all <==> forall p | p in cfg.parties && except != Some(p) :: SlotOf(slots, p).share.Some? && SlotOf(slots, p).direct.Some?
    {
      for i := 0 to |cfg.parties|
        invariant forall j | 0 <= j < i && except != Some(cfg.parties[j]) ::
                    SlotOf(slots, cfg.parties[j]).share.Some? && SlotOf(slots, cfg.parties[j]).direct.Some?
      {
        var slot := SlotOf(slots, cfg.parties[i]);
        if except != Some(cfg.parties[i]) && (slot.share.None? || slot.direct.None?) { return false; }
      }
      return true;
    }

    /** The reveals held once `from` has shown its own, and whether that is everyone's. */
    method GatherReveals(from: Party, shown: Reveal) returns (all: map<Party, Reveal>, complete: bool)
      ensures var next := Put(Held(), from, SlotOf(slots, from).(shown := Some(shown))).slots;
              && (complete <==> AllReveals(cfg, next))
              && (complete ==> all == Reveals(cfg, next))
    {
      ghost var next := Put(Held(), from, SlotOf(slots, from).(shown := Some(shown))).slots;
      all, complete := map[], true;
      for i := 0 to |cfg.parties|
        invariant complete <==> forall j | 0 <= j < i :: SlotOf(next, cfg.parties[j]).shown.Some?
        invariant forall p | p in all :: p in cfg.parties && SlotOf(next, p).shown == Some(all[p])
        invariant forall j | 0 <= j < i && SlotOf(next, cfg.parties[j]).shown.Some? :: cfg.parties[j] in all
      {
        var p := cfg.parties[i];
        if p == from {
          all := all[p := shown];
        } else if SlotOf(slots, p).shown.None? {
          complete := false;
        } else {
          all := all[p := SlotOf(slots, p).shown.value];
        }
      }
      if complete {
        assert AllReveals(cfg, next);
        assert all == Reveals(cfg, next);
      }
    }

    /** The result of a run that the candidate slot of `from` completes. */
    method PrepareResult(from: Party, slot: Slot) returns (r: Option<Outcome>)
      requires cfg.curve.q > 1
      requires var next := Put(Held(), from, slot).slots; AllReveals(cfg, next) && AllProofs(cfg, next) && AllShares(cfg, next)
      ensures r == BuildResult(cfg, Put(Held(), from, slot).slots, rid, epoch)
    {
      hide AllReveals, AllProofs, AllShares;
      if rid.None? || epoch.None? { return None; }
      ghost var next := Put(Held(), from, slot).slots;
      var secret := 0;
      for i := 0 to |cfg.parties|
        invariant secret == SumScalars(Shares(cfg, next)[..i]) % cfg.curve.q
      {
        SlotHeld(next, cfg.parties[i]);
        var share := (if cfg.parties[i] == from then slot else SlotOf(slots, cfg.parties[i])).share;
        assert Shares(cfg, next)[..i + 1][..i] == Shares(cfg, next)[..i];
        SumMod(cfg.curve.q, SumScalars(Shares(cfg, next)[..i]), share.value);
        secret := (secret + share.value) % cfg.curve.q;
      }
      assert Shares(cfg, next)[..|cfg.parties|] == Shares(cfg, next);
      if secret == 0 { return None; }
      var transcript := [];
      for i := 0 to |cfg.parties|
        invariant transcript == TranscriptOf(cfg, next)[..i]
      {
        var p := cfg.parties[i];
        SlotHeld(next, p);
        var s := if p == from then slot else SlotOf(slots, p);
        transcript := transcript + [(p, cfg.opening(p, s.shown.value), s.proofs.value, s.direct.value.modulus)];
      }
      assert TranscriptOf(cfg, next)[..|cfg.parties|] == TranscriptOf(cfg, next);
      return Some(Outcome(secret, rid.value, epoch.value, transcript));
    }

    lemma SlotHeld(next: map<Party, Slot>, p: Party)
      requires AllReveals(cfg, next) && AllProofs(cfg, next) && AllShares(cfg, next) && p in cfg.parties
      ensures SlotOf(next, p).shown.Some? && SlotOf(next, p).proofs.Some? && SlotOf(next, p).share.Some? && SlotOf(next, p).direct.Some?
    {
    }

    // ------------------------------------------------------------------ messages

    method TakeCommitment(from: Party, opening: Opening) returns (v: Verdict)
      requires cfg.curve.q > 1
      modifies `slots, `revealSent, `proofsSent, `rid, `epoch, `result
      ensures Step(Held(), v) == AcceptCommitment(cfg, old(Held()), from, opening)
    {
      var complete := CommitmentsExcept(from);
      v := Accepted(if complete && !revealSent then {RevealSent} else {});
      slots := slots[from := SlotOf(slots, from).(commitment := Some(opening))];
      if complete { revealSent := true; }
      assert complete <==> AllCommitments(cfg, slots);
    }

    method TakeReveal(from: Party, shown: Reveal) returns (v: Verdict)
      requires cfg.curve.q > 1 && from != cfg.self
      modifies `slots, `revealSent, `proofsSent, `rid, `epoch, `result
      ensures Step(Held(), v) == AcceptReveal(cfg, old(Held()), from, shown)
    {
      hide Reveals, ShareVerifies;
      var slot := SlotOf(slots, from);
      if slot.commitment.None? || |shown.commitments| != cfg.threshold || !cfg.revealValid(from, shown) || cfg.opening(from, shown) != slot.commitment.value {
        return Refused;
      }
      var all, complete := GatherReveals(from, shown);
      if !complete || proofsSent {
        slots := slots[from := slot.(shown := Some(shown))];
        return Accepted({});
      }
      v := TakeLastReveal(from, shown, all);
    }

    /** The reveal that completes the round: the coin, the epoch and the local answer
        are prepared first, and everything is committed together. */
    method TakeLastReveal(from: Party, shown: Reveal, all: map<Party, Reveal>) returns (v: Verdict)
      requires cfg.curve.q > 1 && from != cfg.self
      requires AllReveals(cfg, Put(Held(), from, SlotOf(slots, from).(shown := Some(shown))).slots)
      requires all == Reveals(cfg, Put(Held(), from, SlotOf(slots, from).(shown := Some(shown))).slots)
      modifies `slots, `revealSent, `proofsSent, `rid, `epoch, `result
      ensures var next := Put(old(Held()), from, SlotOf(old(slots), from).(shown := Some(shown)));
              Step(Held(), v) == if EnterRoundThree(cfg, next).verdict.Accepted? then EnterRoundThree(cfg, next) else Step(old(Held()), Refused)
    {
      hide Reveals, ShareVerifies, AllReveals;
      var coin := cfg.ridOf(all);
      if coin.None? { return Refused; }
      var derived := cfg.epochOf(all, coin.value);
      if derived.None? || cfg.self !in derived.value.identifiers { return Refused; }
      var share := cfg.localShare(coin.value, derived.value);
      if !ShareVerifies(cfg.curve, cfg.localReveal.commitments, derived.value.identifiers[cfg.self], share) { return Refused; }
      slots := slots[from := SlotOf(slots, from).(shown := Some(shown))];
      rid, epoch, proofsSent := coin, derived, true;
      slots := slots[cfg.self := SlotOf(slots, cfg.self).(proofs := Some(cfg.localProofs(coin.value, derived.value)),
                                                          direct := Some(cfg.localDirect(coin.value, derived.value)),
                                                          share := Some(share))];
      v := Accepted({ProofsSent} + (set p | p in cfg.parties && p != cfg.self :: DirectSent(p)));
    }

    /** Commits the prepared slot, with the result if it completes the run. */
    method Commit(from: Party, slot: Slot, complete: bool) returns (v: Verdict)
      requires RoundsInv(cfg, Held()) && proofsSent && from in cfg.parties
      requires slot.shown == SlotOf(slots, from).shown
      requires complete <==> AllProofs(cfg, Put(Held(), from, slot).slots) && AllShares(cfg, Put(Held(), from, slot).slots)
      modifies `slots, `revealSent, `proofsSent, `rid, `epoch, `result
      ensures Step(Held(), v) == Finish(cfg, old(Held()), Put(old(Held()), from, slot))
    {
      hide RoundThree, BuildResult, AllProofs, AllShares;
      var done := None;
      if complete {
        assert AllReveals(cfg, Put(Held(), from, slot).slots) by { PutSlots(Held(), from, slot); }
        done := PrepareResult(from, slot);
        if done.None? { return Refused; }
      }
      slots := slots[from := slot];
      if complete { result := done; }
      v := Accepted({});
    }

    method TakeProofs(from: Party, proofs: Proofs) returns (v: Verdict)
      requires RoundsInv(cfg, Held()) && from in cfg.parties
      modifies `slots, `revealSent, `proofsSent, `rid, `epoch, `result
      ensures Step(Held(), v) == AcceptProofs(cfg, old(Held()), from, proofs)
    {
      hide RoundsInv, Finish;
      var slot := SlotOf(slots, from);
      RoundsFact();
      if epoch.None? || rid.None? || !proofsSent { return Refused; }
      if proofs.rid != rid.value || proofs.epochId != epoch.value.id || slot.shown.None?
         || !cfg.proofsValid(from, slot.shown.value, rid.value, epoch.value, proofs)
      {
        return Refused;
      }
      var shares := SharesExcept(None);
      var others := ProofsExcept(Some(from));
      PutSlots(Held(), from, slot.(proofs := Some(proofs)));
      v := Commit(from, slot.(proofs := Some(proofs)), shares && others);
    }

    method TakeDirect(from: Party, direct: Direct) returns (v: Verdict)
      requires RoundsInv(cfg, Held()) && from in cfg.parties
      modifies `slots, `revealSent, `proofsSent, `rid, `epoch, `result
      ensures Step(Held(), v) == AcceptDirect(cfg, old(Held()), from, direct)
    {
      hide RoundsInv, Finish, ShareVerifies, ReceivedShare;
      var slot := SlotOf(slots, from);
      RoundsFact();
      if epoch.None? || rid.None? || !proofsSent { return Refused; }
      if direct.rid != rid.value || direct.epochId != epoch.value.id || slot.shown.None? || cfg.self !in epoch.value.identifiers
         || !cfg.directValid(from, slot.shown.value, rid.value, epoch.value, direct)
         || cfg.self !in slot.shown.value.keys || from !in cfg.dhSecrets
      {
        return Refused;
      }
      var share := ReceivedShare(cfg, rid.value, epoch.value.id, from, slot.shown.value, direct.masked);
      if !ShareVerifies(cfg.curve, slot.shown.value.commitments, epoch.value.identifiers[cfg.self], share) { return ShareMismatch; }
      var proofs := ProofsExcept(None);
      var others := SharesExcept(Some(from));
      PutSlots(Held(), from, slot.(direct := Some(direct), share := Some(share)));
      v := Commit(from, slot.(direct := Some(direct), share := Some(share)), proofs && others);
    }

    lemma RoundsFact()
      requires RoundsInv(cfg, Held())
      ensures cfg.curve.q > 1
    {
    }

    /** Forgets everything the run held. */
    method Destroy()
      modifies this
      ensures View() == Aborted && slots == map[] && epoch.None? && result.None?
    {
      aborted := true;
      slots, epoch, result := map[], None, None;
    }

    /** One round message of a running session. */
    method TakeRound(m: Message) returns (v: Verdict)
      requires RoundsInv(cfg, Held())
      modifies `slots, `revealSent, `proofsSent, `rid, `epoch, `result
      ensures Step(Held(), v) == Receive(cfg, old(Held()), m)
      ensures RoundsInv(cfg, Held())
    {
      hide RoundsInv, AcceptCommitment, AcceptReveal, AcceptProofs, AcceptDirect;
      RoundsFact();
      ReceiveKeeps(cfg, Held(), m);
      if m.from == cfg.self || m.from !in cfg.parties || Duplicate(Held(), m) { return Refused; }
      match m
      case CommitmentMessage(from, opening) => v := TakeCommitment(from, opening);
      case RevealMessage(from, shown) => v := TakeReveal(from, shown);
      case ProofsMessage(from, proofs) => v := TakeProofs(from, proofs);
      case DirectMessage(from, direct) => v := TakeDirect(from, direct);
    }

    /** An accusation ends the run, with whoever it is judged to blame. */
    method TakeAccusation(from: Party, accusation: Accusation) returns (r: Reaction)
      requires RoundsInv(cfg, Held()) && !aborted
      modifies this
      ensures SessionStep(View(), r) == Handle(cfg, old(View()), AccusationMessage(from, accusation))
    {
      hide RoundsInv, Judge;
      RoundsFact();
      if from == cfg.self || from !in cfg.parties || epoch.None? || !proofsSent { return Rejected; }
      var blame := Judge(cfg, Held(), from, accusation);
      Destroy();
      r := Terminal(blame, {});
    }

    /** One delivery: the in-place update is the step of the session, and the invariant
        of the rounds is kept as long as it runs. */
    method Deliver(m: Inbound) returns (r: Reaction)
      requires SessionInv(cfg, View())
      modifies this
      ensures SessionStep(View(), r) == Handle(cfg, old(View()), m)
      ensures SessionInv(cfg, View())
    {
      hide RoundsInv, Receive, Judge;
      HandleKeeps(cfg, View(), m);
      if aborted { return Rejected; }
      match m
      case AccusationMessage(from, accusation) => r := TakeAccusation(from, accusation);
      case RoundMessage(round) =>
        RoundsFact();
        ghost var before := Held();
        var v := TakeRound(round);
        if v.ShareMismatch? {
          MismatchWitness(cfg, before, round);
          MismatchKeeps(cfg, before, round);
          var accusation := Accuse(cfg, Held(), round.from, round.direct);
          Destroy();
          return Terminal(DecryptionError(round.from), {AccusationSent(accusation)});
        }
        r := if v.Accepted? then Taken(v.out) else Rejected;
    }
  }

  lemma MismatchKeeps(cfg: Config, st: State, m: Message)
    requires cfg.curve.q > 1 && Receive(cfg, st, m).verdict.ShareMismatch?
    ensures Receive(cfg, st, m).state == st
  {
    hide ShareVerifies, ReceivedShare;
  }

  /** A whole run on a fresh state, refusals and failures included, ends where the
      session does. */
  method RunSession(cfg: Config, ms: seq<Inbound>) returns (s: AuxInfoState)
    requires ValidConfig(cfg)
    ensures fresh(s) && s.cfg == cfg && s.View() == SessionAfter(cfg, ms) && SessionInv(cfg, s.View())
  {
    hide RoundsInv, Handle;
    s := new AuxInfoState(cfg);
    for i := 0 to |ms|
      invariant fresh(s) && s.cfg == cfg && s.View() == SessionAfter(cfg, ms[..i]) && SessionInv(cfg, s.View())
    {
      var _ := s.Deliver(ms[i]);
      assert ms[..i + 1][..i] == ms[..i];
    }
    assert ms[..|ms|] == ms;
  }
}

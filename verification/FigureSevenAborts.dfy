/** Figure 7 with its failures: a share that does not verify and an accusation both
    end the run, with a party to blame, and nothing happens after that. */
module FigureSevenAborts {
  import opened FigureSevenShares
  import opened FigureSevenRounds
  import opened FigureSevenTheorems
  import opened FigureSevenBlame

  datatype Session = Running(state: State) | Aborted

  datatype Inbound = RoundMessage(message: Message) | AccusationMessage(from: Party, accusation: Accusation)

  datatype Reaction = Taken(out: set<Sent>) | Rejected | Terminal(blame: Blame, out: set<Sent>)

  datatype SessionStep = SessionStep(session: Session, reaction: Reaction)

  /** A party handles one message. A direct share that does not verify is answered with
      an accusation; an accusation is judged. Either destroys the state. */
  function Handle(cfg: Config, s: Session, m: Inbound): SessionStep
    requires cfg.curve.q > 1
  {
    match s
    case Aborted => SessionStep(Aborted, Rejected)
    case Running(st) =>
      match m
      case RoundMessage(round) =>
        var step := Receive(cfg, st, round);
        if step.verdict.ShareMismatch? && st.rid.Some? && st.epoch.Some? && round.from in cfg.dhSecrets && round.DirectMessage? then
          SessionStep(Aborted, Terminal(DecryptionError(round.from), {AccusationSent(Accuse(cfg, st, round.from, round.direct))}))
        else
          SessionStep(Running(step.state), if step.verdict.Accepted? then Taken(step.verdict.out) else Rejected)
      case AccusationMessage(from, accusation) =>
        if from == cfg.self || from !in cfg.parties || st.epoch.None? || !st.proofsSent then SessionStep(s, Rejected)
        else SessionStep(Aborted, Terminal(Judge(cfg, st, from, accusation), {}))
  }

  function SessionAfter(cfg: Config, ms: seq<Inbound>): Session
    requires cfg.curve.q > 1
  {
    if ms == [] then Running(Initial(cfg)) else Handle(cfg, SessionAfter(cfg, ms[..|ms| - 1]), ms[|ms| - 1]).session
  }

  /** The messages of the rounds among what was delivered. */
  function Rounds(ms: seq<Inbound>): seq<Message> {
    if ms == [] then []
    else
      var last := ms[|ms| - 1];
      Rounds(ms[..|ms| - 1]) + if last.RoundMessage? then [last.message] else []
  }

  ghost predicate SessionInv(cfg: Config, s: Session) {
    ValidConfig(cfg) && (s.Running? ==> RoundsInv(cfg, s.state))
  }

  lemma HandleKeeps(cfg: Config, s: Session, m: Inbound)
    requires SessionInv(cfg, s)
    ensures SessionInv(cfg, Handle(cfg, s, m).session)
  {
    hide RoundsInv, Receive, Judge;
    if s.Running? && m.RoundMessage? { ReceiveKeeps(cfg, s.state, m.message); }
  }

  /** Only a direct message leads to a mismatch, and then the witness is at hand, so
      that every mismatch ends the run. */
  lemma MismatchWitness(cfg: Config, st: State, m: Message)
    requires cfg.curve.q > 1 && Receive(cfg, st, m).verdict.ShareMismatch?
    ensures m.DirectMessage? && st.rid.Some? && st.epoch.Some? && m.from in cfg.dhSecrets
  {
    hide ShareVerifies, ReceivedShare;
  }

  /** As long as a session runs it is in the state its round messages lead to, so what
      is proved of every run of the rounds holds of it. */
  lemma {:induction false} RunningIsRounds(cfg: Config, ms: seq<Inbound>)
    requires ValidConfig(cfg)
    ensures SessionInv(cfg, SessionAfter(cfg, ms))
    ensures SessionAfter(cfg, ms).Running? ==> SessionAfter(cfg, ms).state == RunAll(cfg, Rounds(ms))
  {
    hide RoundsInv, Receive, Judge;
    if ms == [] {
      InitialInv(cfg);
    } else {
      var front, last := ms[..|ms| - 1], ms[|ms| - 1];
      RunningIsRounds(cfg, front);
      HandleKeeps(cfg, SessionAfter(cfg, front), last);
      if last.RoundMessage? {
        assert Rounds(ms)[..|Rounds(ms)| - 1] == Rounds(front);
      } else {
        assert Rounds(ms) == Rounds(front);
      }
    }
  }

  /** An aborted run stays aborted, sends nothing more and has no result. */
  lemma {:induction false} AbortIsFinal(cfg: Config, ms: seq<Inbound>, i: nat, m: Inbound)
    requires ValidConfig(cfg) && i <= |ms| && SessionAfter(cfg, ms[..i]).Aborted?
    ensures Handle(cfg, SessionAfter(cfg, ms), m) == SessionStep(Aborted, Rejected)
  {
    hide Handle;
    if i == |ms| {
      assert ms[..i] == ms;
      assert Handle(cfg, Aborted, m) == SessionStep(Aborted, Rejected) by { AbortedHandles(cfg, m); }
    } else {
      var front := ms[..|ms| - 1];
      assert front[..i] == ms[..i];
      AbortIsFinal(cfg, front, i, ms[|ms| - 1]);
      AbortedHandles(cfg, m);
    }
  }

  lemma AbortedHandles(cfg: Config, m: Inbound)
    requires cfg.curve.q > 1
    ensures Handle(cfg, Aborted, m) == SessionStep(Aborted, Rejected)
  {
  }

  /** A run is ended by exactly two things: a direct share that does not verify, and an
      accusation once all reveals are in. */
  lemma AbortCauses(cfg: Config, ms: seq<Inbound>, m: Inbound)
    requires ValidConfig(cfg) && SessionAfter(cfg, ms).Running?
    ensures var st := RunAll(cfg, Rounds(ms));
            Handle(cfg, SessionAfter(cfg, ms), m).session.Aborted? <==>
              || (m.RoundMessage? && Receive(cfg, st, m.message).verdict.ShareMismatch?)
              || (m.AccusationMessage? && m.from != cfg.self && m.from in cfg.parties && AllReveals(cfg, st.slots))
  {
    hide Receive, Judge, RunAll, AllReveals;
    RunningIsRounds(cfg, ms);
    SentIsRevealed(cfg, RunAll(cfg, Rounds(ms)));
    if m.RoundMessage? && Receive(cfg, RunAll(cfg, Rounds(ms)), m.message).verdict.ShareMismatch? { MismatchWitness(cfg, RunAll(cfg, Rounds(ms)), m.message); }
  }

  lemma SentIsRevealed(cfg: Config, st: State)
    requires RoundsInv(cfg, st)
    ensures st.proofsSent <==> AllReveals(cfg, st.slots)
    ensures st.proofsSent ==> st.epoch.Some? && st.rid.Some?
  {
  }

  /** What a receiver broadcasts on a mismatch is upheld by every observer of the run
      that holds the same reveals. */
  lemma MismatchUpheld(cfg: Config, ms: seq<Inbound>, m: Message, b: Config, sb: State)
    requires ValidConfig(cfg) && ValidConfig(b) && RoundsInv(b, sb) && sb.proofsSent && SessionAfter(cfg, ms).Running?
    requires SameRun(cfg, b) && SameReveals(cfg, SessionAfter(cfg, ms).state, sb)
    requires Receive(cfg, SessionAfter(cfg, ms).state, m).verdict.ShareMismatch? && m.DirectMessage?
    requires cfg.authentic(SignedDirect(m.from, cfg.self, m.direct))
    requires m.from in cfg.dhSecrets && 0 < cfg.dhSecrets[m.from] < cfg.curve.q && m.from in cfg.localReveal.keys
             && cfg.localReveal.keys[m.from] == cfg.curve.mul(cfg.dhSecrets[m.from], cfg.curve.g)
    ensures var step := Handle(cfg, SessionAfter(cfg, ms), RoundMessage(m));
            && step.reaction.Terminal? && step.reaction.blame == DecryptionError(m.from)
            && exists x :: step.reaction.out == {AccusationSent(x)} && Judge(b, sb, cfg.self, x) == DecryptionError(m.from)
  {
    hide RoundsInv, Judge, SessionAfter, SameRun, SameReveals;
    var st := SessionAfter(cfg, ms).state;
    RunningIsRounds(cfg, ms);
    MismatchWitness(cfg, st, m);
    HonestAccusationUpheld(cfg, st, m.from, m.direct, b, sb);
    assert Handle(cfg, SessionAfter(cfg, ms), RoundMessage(m)).reaction.out == {AccusationSent(Accuse(cfg, st, m.from, m.direct))};
  }
}

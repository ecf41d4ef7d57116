/** Compaction: terminal history of one lineage is replaced by tombstones.

    Each pass removes its candidates except those it retains. The retained sets
    are parameters here: the store takes the most recent candidates of each
    pass, and an empty set is what it retains when asked to retain none. */
module LifecycleCompaction {
  import opened LifecycleRecords
  import opened LifecycleState
  import opened LifecycleInvariant

  datatype Retained = Retained(attempts: set<string>, presigns: set<string>, leases: set<Token>,
                               cutovers: set<Token>, gens: set<Binding>)

  const RetainNone := Retained({}, {}, {}, {}, {})

  const TERMINAL_TOMB := "terminal"
  const RETIRED_TOMB := "retired"

  function AddTombs(tombs: map<TombKey, Tombstone>, added: set<TombKey>, keyId: string, state: string): map<TombKey, Tombstone> {
    tombs + (map x | x in added :: Tombstone(keyId, state))
  }

  // ------------------------------------------------------ terminal attempts

  predicate AttemptCandidate(s: State, keyId: string, id: string) {
    id in s.attempts && s.attempts[id].binding.keyId == keyId && s.attempts[id].Terminal()
  }

  /** An attempt leaves together with its presign. */
  predicate AttemptGone(s: State, keyId: string, keep: set<string>, id: string) {
    && AttemptCandidate(s, keyId, id) && id !in keep
    && s.attempts[id].presignId in s.presigns && !s.presigns[s.attempts[id].presignId].state.AvailablePresign?
  }

  function GoneAttempts(s: State, keyId: string, keep: set<string>): set<string> {
    set id | id in s.attempts && AttemptGone(s, keyId, keep, id)
  }

  function AttemptPresigns(s: State, gone: set<string>): (r: set<string>)
    ensures forall p :: p in r <==> exists id :: id in gone && id in s.attempts && s.attempts[id].presignId == p
  {
    set id | id in gone && id in s.attempts :: s.attempts[id].presignId
  }

  function AttemptTombs(gone: set<string>): (r: set<TombKey>)
    ensures forall x :: x in r <==> x.AttemptTomb? && x.attemptId in gone
  {
    set id | id in gone :: AttemptTomb(id)
  }

  function PresignTombs(s: State, gone: set<string>): (r: set<TombKey>)
    ensures forall x :: x in r <==>
      || (x.PresignTomb? && x.presignId in gone)
      || (x.ArtifactTomb? && exists id :: id in gone && id in s.presigns && s.presigns[id].artifact == x.artifact)
  {
    (set id | id in gone :: PresignTomb(id)) + (set id | id in gone && id in s.presigns :: ArtifactTomb(s.presigns[id].artifact))
  }

  function CompactAttempts(s: State, keyId: string, keep: set<string>): State {
    var gone := GoneAttempts(s, keyId, keep);
    var presigns := AttemptPresigns(s, gone);
    s.(attempts := s.attempts - gone, presigns := s.presigns - presigns,
       tombs := AddTombs(s.tombs, AttemptTombs(gone) + PresignTombs(s, presigns), keyId, TERMINAL_TOMB))
  }

  // ------------------------------------------------- unlinked burned presigns

  predicate PresignCandidate(s: State, keyId: string, id: string) {
    id in s.presigns && s.presigns[id].binding.keyId == keyId && s.presigns[id].state.BurnedPresign? && s.presigns[id].attemptId == ""
  }

  function GonePresigns(s: State, keyId: string, keep: set<string>): set<string> {
    set id | id in s.presigns && PresignCandidate(s, keyId, id) && id !in keep
  }

  function CompactPresigns(s: State, keyId: string, keep: set<string>): State {
    var gone := GonePresigns(s, keyId, keep);
    s.(presigns := s.presigns - gone, tombs := AddTombs(s.tombs, PresignTombs(s, gone), keyId, TERMINAL_TOMB))
  }

  // ---------------------------------------------------------- terminal leases

  predicate LeaseReferenced(s: State, session: SessionId) {
    exists id :: id in s.attempts && s.attempts[id].intent.session == session
  }

  predicate PresignHeld(s: State, t: Token) {
    t in s.effects && s.effects[t].kind.PresignEffect? && s.effects[t].kind.presignId in s.presigns
  }

  predicate LeaseCandidate(s: State, keyId: string, t: Token) {
    && t in s.leases && s.leases[t].binding.keyId == keyId && !s.leases[t].state.Active?
    && !LeaseReferenced(s, s.leases[t].session) && !PresignHeld(s, t)
  }

  function GoneLeases(s: State, keyId: string, keep: set<Token>): set<Token> {
    set t | t in s.leases && LeaseCandidate(s, keyId, t) && t !in keep
  }

  function LeaseSessions(s: State, gone: set<Token>): (r: set<SessionId>)
    ensures forall i :: i in r <==> exists t :: t in gone && t in s.leases && s.leases[t].session == i
  {
    set t | t in gone && t in s.leases :: s.leases[t].session
  }

  function SessionTombs(sessions: set<SessionId>): (r: set<TombKey>)
    ensures forall x :: x in r <==> x.SessionTomb? && x.session in sessions
  {
    set i | i in sessions :: SessionTomb(i)
  }

  function CompactLeases(s: State, keyId: string, keep: set<Token>): State {
    var gone := GoneLeases(s, keyId, keep);
    var sessions := LeaseSessions(s, gone);
    s.(leases := s.leases - gone, bySession := s.bySession - sessions, anchors := s.anchors - gone, effects := s.effects - gone,
       tombs := AddTombs(s.tombs, SessionTombs(sessions), keyId, TERMINAL_TOMB))
  }

  // -------------------------------------------------------- terminal cutovers

  predicate CutoverReferenced(s: State, c: Token) {
    exists t :: t in s.effects && s.effects[t].kind.CutoverEffect? && s.effects[t].kind.cutoverToken == c
  }

  predicate CutoverCandidate(s: State, keyId: string, c: Token) {
    && c in s.cutovers && s.cutovers[c].fence.source.keyId == keyId && !s.cutovers[c].state.ActiveCutover?
    && !CutoverReferenced(s, c)
  }

  function GoneCutovers(s: State, keyId: string, keep: set<Token>): set<Token> {
    set c | c in s.cutovers && CutoverCandidate(s, keyId, c) && c !in keep
  }

  function CutoverTombs(gone: set<Token>): (r: set<TombKey>)
    ensures forall x :: x in r <==> x.CutoverTomb? && x.token in gone
  {
    set c | c in gone :: CutoverTomb(c)
  }

  function CompactCutovers(s: State, keyId: string, keep: set<Token>): State {
    var gone := GoneCutovers(s, keyId, keep);
    s.(cutovers := s.cutovers - gone, tombs := AddTombs(s.tombs, CutoverTombs(gone), keyId, TERMINAL_TOMB))
  }

  // ------------------------------------------------------- retired generations

  predicate ReferencedBy(s: State, e: Effect, b: Binding) {
    (e.kind.HasTarget() && e.kind.target == b) || (e.leaseToken in s.leases && s.leases[e.leaseToken].binding == b)
  }

  predicate GenerationReferenced(s: State, b: Binding) {
    exists t :: t in s.effects && ReferencedBy(s, s.effects[t], b)
  }

  predicate GenerationCandidate(s: State, keyId: string, b: Binding) {
    b in s.gens && b.keyId == keyId && s.gens[b].status.RetiredGeneration? && !GenerationReferenced(s, b)
  }

  function GoneGenerations(s: State, keyId: string, keep: set<Binding>): set<Binding> {
    set b | b in s.gens && GenerationCandidate(s, keyId, b) && b !in keep
  }

  function GenerationTombs(gone: set<Binding>): (r: set<TombKey>)
    ensures forall x :: x in r <==>
      || (x.GenerationTomb? && x.binding in gone)
      || (x.GenerationNameTomb? && exists b :: b in gone && b.keyId == x.keyId && b.generation == x.generation)
  {
    (set b | b in gone :: GenerationTomb(b)) + (set b | b in gone :: GenerationNameTomb(b.keyId, b.generation))
  }

  function CompactGenerations(s: State, keyId: string, keep: set<Binding>): State {
    var gone := GoneGenerations(s, keyId, keep);
    s.(gens := s.gens - gone, tombs := AddTombs(s.tombs, GenerationTombs(gone), keyId, RETIRED_TOMB))
  }

  // ---------------------------------------------------------------- all passes

  function AfterLeases(s: State, keyId: string, keep: Retained): State {
    CompactLeases(CompactPresigns(CompactAttempts(s, keyId, keep.attempts), keyId, keep.presigns), keyId, keep.leases)
  }

  function AfterCutovers(s: State, keyId: string, keep: Retained): State {
    CompactCutovers(AfterLeases(s, keyId, keep), keyId, keep.cutovers)
  }

  function Compacted(s: State, keyId: string, keep: Retained): State {
    CompactGenerations(AfterCutovers(s, keyId, keep), keyId, keep.gens)
  }

  // ------------------------------------------------- the invariant in between

  /** The invariant without the references compaction can leave dangling: the
      presign behind a presign effect, and the generations behind a committed
      cutover. */
  predicate LooseEffects(effects: map<Token, Effect>, leases: map<Token, Lease>, presigns: map<string, Presign>,
                         cutovers: map<Token, Cutover>, disabled: map<string, DisabledRecord>, gens: map<Binding, Generation>)
  {
    forall t | t in effects ::
      && effects[t].leaseToken == t && t in leases && !leases[t].state.Active?
      && (if effects[t].kind.PresignEffect?
          then leases[t].kind.Presigning? && leases[t].state.Completed? && ValidText(effects[t].kind.presignId)
          else EffectOk(effects[t], leases[t], presigns, cutovers, disabled, gens))
  }

  predicate LooseCutover(c: Cutover, t: Token, cutoverByKey: map<string, Token>, nextCutover: nat, gens: map<Binding, Generation>,
                         current: map<string, Binding>, leases: map<Token, Lease>, attempts: map<string, Attempt>)
  {
    if c.state.CommittedCutover? then
      && c.fence.token == t && t <= nextCutover && ValidFence(c.fence)
      && c.targetBlob.Some? && c.targetMetadata.Some? && c.reason == ""
      && (c.fence.source in gens && c.fence.target in gens ==> CommittedOk(c, gens))
    else CutoverOk(c, t, cutoverByKey, nextCutover, gens, current, leases, attempts)
  }

  predicate LooseCutovers(cutovers: map<Token, Cutover>, cutoverByKey: map<string, Token>, nextCutover: nat,
                          gens: map<Binding, Generation>, current: map<string, Binding>, leases: map<Token, Lease>,
                          attempts: map<string, Attempt>)
  {
    && (forall t | t in cutovers :: LooseCutover(cutovers[t], t, cutoverByKey, nextCutover, gens, current, leases, attempts))
    && (forall k | k in cutoverByKey ::
          && cutoverByKey[k] in cutovers && cutovers[cutoverByKey[k]].state.ActiveCutover?
          && cutovers[cutoverByKey[k]].fence.source.keyId == k)
  }

  predicate Loose(s: State) {
    && GenerationsValid(s.gens, s.current)
    && LeasesValid(s.leases, s.bySession, s.nextLease)
    && HoldersValid(s.leases, s.anchors, s.gens, s.current, s.attempts, s.cutoverByKey, s.tombs)
    && LooseEffects(s.effects, s.leases, s.presigns, s.cutovers, s.disabled, s.gens)
    && DisabledValid(s.disabled, s.bySession, s.effects, s.tombs)
    && PresignsValid(s.presigns, s.attempts, s.gens, s.current)
    && AttemptsValid(s.attempts, s.presigns, s.leases, s.bySession, s.gens, s.current)
    && LooseCutovers(s.cutovers, s.cutoverByKey, s.nextCutover, s.gens, s.current, s.leases, s.attempts)
    && TombsValid(s.tombs)
    && Strong(s)
  }

  /** The presign of every presign effect is still stored. */
  predicate PresignsPresent(s: State) {
    forall t | t in s.effects && s.effects[t].kind.PresignEffect? :: s.effects[t].kind.presignId in s.presigns
  }

  /** Both generations of every committed cutover are still stored. */
  predicate GenerationsPresent(s: State) {
    forall t | t in s.cutovers && s.cutovers[t].state.CommittedCutover? :: s.cutovers[t].fence.source in s.gens && s.cutovers[t].fence.target in s.gens
  }

  lemma LooseEffectsTight(s: State)
    requires LooseEffects(s.effects, s.leases, s.presigns, s.cutovers, s.disabled, s.gens)
    ensures PresignsPresent(s) <==> EffectsValid(s.effects, s.leases, s.presigns, s.cutovers, s.disabled, s.gens)
  {
  }

  lemma LooseCutoversTight(s: State)
    requires LooseCutovers(s.cutovers, s.cutoverByKey, s.nextCutover, s.gens, s.current, s.leases, s.attempts)
    ensures GenerationsPresent(s) <==> CutoversValid(s.cutovers, s.cutoverByKey, s.nextCutover, s.gens, s.current, s.leases, s.attempts)
  {
  }

  lemma ValidEffectsLoose(s: State)
    requires EffectsValid(s.effects, s.leases, s.presigns, s.cutovers, s.disabled, s.gens)
    ensures LooseEffects(s.effects, s.leases, s.presigns, s.cutovers, s.disabled, s.gens) && PresignsPresent(s)
  {
  }

  lemma ValidCutoversLoose(s: State)
    requires CutoversValid(s.cutovers, s.cutoverByKey, s.nextCutover, s.gens, s.current, s.leases, s.attempts)
    ensures LooseCutovers(s.cutovers, s.cutoverByKey, s.nextCutover, s.gens, s.current, s.leases, s.attempts) && GenerationsPresent(s)
  {
  }

  lemma InvIsLoose(s: State)
    requires Inv(s)
    ensures Loose(s) && PresignsPresent(s) && GenerationsPresent(s)
  {
    ValidEffectsLoose(s);
    ValidCutoversLoose(s);
  }

  /** For a loose state the validator accepts exactly when nothing dangles. */
  lemma LooseTight(s: State)
    requires Loose(s)
    ensures PresignsPresent(s) && GenerationsPresent(s) <==> Valid(s)
    ensures Valid(s) ==> Inv(s)
  {
    LooseEffectsTight(s);
    LooseCutoversTight(s);
  }
}

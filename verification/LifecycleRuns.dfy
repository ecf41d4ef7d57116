/** Whole runs of the store: client operations and compactions, in any order. */
module LifecycleRuns {
  import opened LifecycleRecords
  import opened LifecycleState
  import opened LifecycleOps
  import opened LifecycleInvariant
  import opened LifecyclePreservation
  import opened LifecycleInductive
  import opened LifecycleCompaction
  import opened LifecycleCompactionTheorem

  datatype Event =
    | Client(op: Op)
    | Compact(keyId: string, expected: Binding, keep: Retained)

  /** Explicit compaction of one lineage: the caller names the generation it
      believes current, and the compacted state is validated before it counts. */
  function CompactLifecycle(s: State, keyId: string, expected: Binding, keep: Retained): Step {
    if !ValidText(keyId) || !ValidBinding(expected) || expected.keyId != keyId then Refuse(s, InvalidRecord)
    else if !IsCurrent(s, expected) then Refuse(s, GenerationNotCurrent)
    else if !Valid(Compacted(s, keyId, keep)) then Refuse(s, LifecycleCorrupt)
    else Answer(Compacted(s, keyId, keep), UnitReply)
  }

  function Next(s: State, e: Event): Step {
    match e
    case Client(op) => Apply(s, op)
    case Compact(keyId, expected, keep) => CompactLifecycle(s, keyId, expected, keep)
  }

  /** The state after a run that starts with the empty store. */
  function After(run: seq<Event>): State {
    if run == [] then Empty else Next(After(run[..|run| - 1]), run[|run| - 1]).state
  }

  lemma NextKeepsInv(s: State, e: Event)
    requires Inv(s)
    ensures Inv(Next(s, e).state)
  {
    hide Inv, Valid, Apply, Compacted;
    match e
    case Client(op) => StepKeepsInv(s, op);
    case Compact(keyId, expected, keep) => if ValidText(keyId) { CompactionValidIff(s, keyId, keep); }
  }

  /** Every reachable state satisfies the validator and its strengthening. */
  lemma {:induction false} ReachableInv(run: seq<Event>)
    ensures Inv(After(run))
  {
    hide Inv, Next;
    if run == [] {
      EmptyInv();
    } else {
      ReachableInv(run[..|run| - 1]);
      NextKeepsInv(After(run[..|run| - 1]), run[|run| - 1]);
    }
  }

  // ------------------------------------------------------- how records evolve

  predicate CountersGrow(s: State, s': State) {
    && s.nextLease <= s'.nextLease && s.nextCutover <= s'.nextCutover
    && (forall x | x in s.tombs :: x in s'.tombs)
    && (forall k | k in s.disabled :: k in s'.disabled && s'.disabled[k] == s.disabled[k])
  }

  predicate NameEntombed(tombs: map<TombKey, Tombstone>, b: Binding) {
    GenerationTomb(b) in tombs && GenerationNameTomb(b.keyId, b.generation) in tombs
  }

  /** A current generation keeps what it was installed with, retired is final, and a
      stored generation leaves only into tombstones. */
  predicate GensEvolve(gens: map<Binding, Generation>, gens': map<Binding, Generation>, tombs': map<TombKey, Tombstone>) {
    forall b | b in gens ::
      if b in gens' then gens[b].status.RetiredGeneration? || gens'[b].status.CurrentGeneration? ==> gens'[b] == gens[b]
      else NameEntombed(tombs', b)
  }

  predicate LeaseMoves(l: Lease, l': Lease) {
    l'.token == l.token && SameLease(l', l) && (!l.state.Active? ==> l' == l)
  }

  /** A finished lease is final; tokens are never reissued. */
  predicate LeasesEvolve(leases: map<Token, Lease>, nextLease: nat, leases': map<Token, Lease>, tombs': map<TombKey, Tombstone>) {
    && (forall t | t in leases ::
          if t in leases' then LeaseMoves(leases[t], leases'[t]) else SessionTomb(leases[t].session) in tombs')
    && (forall t | t in leases' && t !in leases :: t > nextLease)
  }

  predicate PresignMoves(p: Presign, p': Presign) {
    && p'.binding == p.binding && p'.artifact == p.artifact
    && match p.state
       case AvailablePresign => p'.state.AvailablePresign? ==> p' == p
       case ClaimedPresign => p'.attemptId == p.attemptId && !p'.state.AvailablePresign?
       case BurnedPresign => p' == p
  }

  /** Available, then claimed or burned, then burned; a claim is for one attempt. */
  predicate PresignsEvolve(presigns: map<string, Presign>, presigns': map<string, Presign>, tombs': map<TombKey, Tombstone>) {
    forall id | id in presigns ::
      if id in presigns' then PresignMoves(presigns[id], presigns'[id])
      else PresignTomb(id) in tombs' && ArtifactTomb(presigns[id].artifact) in tombs'
  }

  predicate AttemptMoves(a: Attempt, a': Attempt) {
    && a'.binding == a.binding && a'.presignId == a.presignId && a'.intent == a.intent && a'.outboxDigest == a.outboxDigest
    && a'.presignMetadata == a.presignMetadata
    && (a.delivered ==> a'.delivered && a'.delivery == a.delivery)
    && (a.completed ==> a'.completed && a'.completion == a.completion)
    && (a.Terminal() ==> a' == a)
    && (!a'.Terminal() ==> a'.exactOutbox == a.exactOutbox)
  }

  predicate AttemptsEvolve(attempts: map<string, Attempt>, attempts': map<string, Attempt>, tombs': map<TombKey, Tombstone>) {
    forall id | id in attempts ::
      if id in attempts' then AttemptMoves(attempts[id], attempts'[id])
      else AttemptTomb(id) in tombs' && PresignTomb(attempts[id].presignId) in tombs'
  }

  predicate Evolves(s: State, s': State) {
    && CountersGrow(s, s')
    && GensEvolve(s.gens, s'.gens, s'.tombs)
    && LeasesEvolve(s.leases, s.nextLease, s'.leases, s'.tombs)
    && PresignsEvolve(s.presigns, s'.presigns, s'.tombs)
    && AttemptsEvolve(s.attempts, s'.attempts, s'.tombs)
  }

  lemma EvolvesRefl(s: State)
    ensures Evolves(s, s)
  {
  }

  /** A tombstone and a live record never name the same thing. */
  lemma EntombedAbsent(s: State)
    requires TombsStrong(s.tombs, s.gens, s.bySession, s.presigns, s.attempts, s.cutovers, s.nextCutover)
    ensures forall b | GenerationTomb(b) in s.tombs :: b !in s.gens
    ensures forall id | PresignTomb(id) in s.tombs :: id !in s.presigns
    ensures forall id | AttemptTomb(id) in s.tombs :: id !in s.attempts
    ensures forall i | SessionTomb(i) in s.tombs :: i !in s.bySession
  {
    forall x | x in s.tombs ensures TombOk(x, s.tombs[x].keyId, s.gens, s.bySession, s.presigns, s.attempts, s.cutovers, s.nextCutover) {}
  }

  lemma GensTransitive(s: State, s': State, s'': State)
    requires GensEvolve(s.gens, s'.gens, s'.tombs) && GensEvolve(s'.gens, s''.gens, s''.tombs) && CountersGrow(s', s'')
    requires forall b | GenerationTomb(b) in s''.tombs :: b !in s''.gens
    ensures GensEvolve(s.gens, s''.gens, s''.tombs)
  {
  }

  lemma LeasesTransitive(s: State, s': State, s'': State)
    requires LeasesEvolve(s.leases, s.nextLease, s'.leases, s'.tombs) && LeasesEvolve(s'.leases, s'.nextLease, s''.leases, s''.tombs)
    requires CountersGrow(s, s') && CountersGrow(s', s'') && LeasesValid(s.leases, s.bySession, s.nextLease)
    ensures LeasesEvolve(s.leases, s.nextLease, s''.leases, s''.tombs)
  {
    hide ValidLease;
    forall t | t in s.leases && t !in s'.leases ensures t !in s''.leases {
      assert LeaseOk(s.leases[t], t, s.bySession, s.nextLease);
    }
  }

  lemma PresignsTransitive(s: State, s': State, s'': State)
    requires PresignsEvolve(s.presigns, s'.presigns, s'.tombs) && PresignsEvolve(s'.presigns, s''.presigns, s''.tombs) && CountersGrow(s', s'')
    requires forall id | PresignTomb(id) in s''.tombs :: id !in s''.presigns
    ensures PresignsEvolve(s.presigns, s''.presigns, s''.tombs)
  {
  }

  lemma AttemptsTransitive(s: State, s': State, s'': State)
    requires AttemptsEvolve(s.attempts, s'.attempts, s'.tombs) && AttemptsEvolve(s'.attempts, s''.attempts, s''.tombs) && CountersGrow(s', s'')
    requires forall id | AttemptTomb(id) in s''.tombs :: id !in s''.attempts
    ensures AttemptsEvolve(s.attempts, s''.attempts, s''.tombs)
  {
  }

  lemma EvolvesTransitive(s: State, s': State, s'': State)
    requires Inv(s) && Inv(s'') && Evolves(s, s') && Evolves(s', s'')
    ensures Evolves(s, s'')
  {
    hide GensEvolve, LeasesEvolve, PresignsEvolve, AttemptsEvolve, GenerationsValid, LeasesValid, HoldersValid, EffectsValid, DisabledValid,
         PresignsValid, AttemptsValid, CutoversValid, TombsValid, NamesUnique, EffectsStrong, MetadataKept, DisabledStrong, AttemptsStrong,
         FencesStrong, TombsStrong;
    EntombedAbsent(s'');
    GensTransitive(s, s', s'');
    LeasesTransitive(s, s', s'');
    PresignsTransitive(s, s', s'');
    AttemptsTransitive(s, s', s'');
  }
}

/** Compaction only shrinks a state: terminal records leave, each behind a
    tombstone, and nothing that is left refers to what is gone except the
    presign of a presign effect and the generations of a committed cutover.
    Shrinking in this sense keeps the loose invariant, and every pass shrinks. */
module LifecycleCompactionProof {
  import opened LifecycleRecords
  import opened LifecycleState
  import opened LifecycleInvariant
  import opened LifecycleCompaction

  predicate Sub<K, V(==)>(a: map<K, V>, b: map<K, V>) {
    forall k | k in a :: k in b && a[k] == b[k]
  }

  predicate SameRest(s: State, s': State) {
    && s'.current == s.current && s'.disabled == s.disabled && s'.anchors == s.anchors && s'.cutoverByKey == s.cutoverByKey
    && s'.nextLease == s.nextLease && s'.nextCutover == s.nextCutover
  }

  predicate GensShrink(s: State, s': State) {
    Sub(s'.gens, s.gens) && forall b | b in s.gens && b !in s'.gens :: s.gens[b].status.RetiredGeneration?
  }

  predicate LeasesShrink(s: State, s': State) {
    && Sub(s'.leases, s.leases) && Sub(s'.bySession, s.bySession) && Sub(s'.effects, s.effects)
    && (forall t | t in s.leases && t !in s'.leases :: !s.leases[t].state.Active?)
    && (forall i | i in s.bySession :: i in s'.bySession <==> s.bySession[i] in s'.leases)
    && (forall t | t in s.effects :: t in s'.effects <==> t in s'.leases)
  }

  predicate SessionsEntombed(s: State, s': State) {
    forall t | t in s.leases && t !in s'.leases ::
      SessionTomb(s.leases[t].session) in s'.tombs && s'.tombs[SessionTomb(s.leases[t].session)].keyId == s.leases[t].binding.keyId
  }

  predicate PairsShrink(s: State, s': State) {
    && Sub(s'.attempts, s.attempts) && Sub(s'.presigns, s.presigns)
    && (forall id | id in s'.attempts :: s'.attempts[id].presignId in s'.presigns && s'.attempts[id].intent.session in s'.bySession)
    && (forall id | id in s'.presigns :: s'.presigns[id].attemptId in s.attempts ==> s'.presigns[id].attemptId in s'.attempts)
  }

  predicate CutoversShrink(s: State, s': State) {
    Sub(s'.cutovers, s.cutovers) && forall t | t in s.cutovers && t !in s'.cutovers :: !s.cutovers[t].state.ActiveCutover?
  }

  predicate EffectClosed(e: Effect, l: Lease, s': State) {
    match e.kind
    case PresignEffect(_, _) => true
    case RefreshFailedEffect(_) => true
    case CutoverEffect(_, token) => token in s'.cutovers
    case ChildEffect(target, _) => target in s'.gens
    case ReceiverEffect(target, _) => target in s'.gens
    case RetirementEffect(_) => l.binding in s'.gens
  }

  predicate EffectsClosed(s: State, s': State) {
    forall t | t in s'.effects && t in s'.leases :: EffectClosed(s'.effects[t], s'.leases[t], s')
  }

  predicate NewTombOk(x: TombKey, tomb: Tombstone, s: State, s': State) {
    && ValidText(tomb.keyId) && tomb.state != ""
    && TombOk(x, tomb.keyId, s'.gens, s'.bySession, s'.presigns, s'.attempts, s'.cutovers, s'.nextCutover)
    && (x.GenerationNameTomb? ==> exists b :: b in s.gens && b.keyId == x.keyId && b.generation == x.generation)
    && (x.GenerationTomb? ==> GenerationNameTomb(x.binding.keyId, x.binding.generation) in s'.tombs)
    && (x.SessionTomb? ==> x.session in s.bySession)
  }

  predicate TombsGrow(s: State, s': State) {
    Sub(s.tombs, s'.tombs) && forall x | x in s'.tombs && x !in s.tombs :: NewTombOk(x, s'.tombs[x], s, s')
  }

  predicate Shrinks(s: State, s': State) {
    && SameRest(s, s') && GensShrink(s, s') && LeasesShrink(s, s') && SessionsEntombed(s, s') && PairsShrink(s, s')
    && CutoversShrink(s, s') && EffectsClosed(s, s') && TombsGrow(s, s')
  }

  // ----------------------------------------------- shrinking, section by section

  lemma ShrinkGenerations(s: State, s': State)
    requires GenerationsValid(s.gens, s.current) && NamesUnique(s.gens) && SameRest(s, s') && GensShrink(s, s')
    ensures GenerationsValid(s'.gens, s'.current) && NamesUnique(s'.gens)
    ensures forall b :: IsCurrentIn(s.gens, s.current, b) ==> IsCurrentIn(s'.gens, s'.current, b)
  {
  }

  lemma ShrinkLeases(s: State, s': State)
    requires LeasesValid(s.leases, s.bySession, s.nextLease) && SameRest(s, s') && LeasesShrink(s, s')
    ensures LeasesValid(s'.leases, s'.bySession, s'.nextLease)
  {
    forall t | t in s'.leases ensures LeaseOk(s'.leases[t], t, s'.bySession, s'.nextLease) {
      assert LeaseOk(s.leases[t], t, s.bySession, s.nextLease);
    }
  }

  /** No generation name becomes taken by shrinking. */
  lemma ShrinkNames(s: State, s': State, k: string, g: string)
    requires GensShrink(s, s') && TombsGrow(s, s')
    ensures HasKeyGeneration(s'.gens, s'.tombs, k, g) ==> HasKeyGeneration(s.gens, s.tombs, k, g)
  {
    var x := GenerationNameTomb(k, g);
    if x in s'.tombs && x !in s.tombs { assert NewTombOk(x, s'.tombs[x], s, s'); }
  }

  lemma ShrinkHolders(s: State, s': State)
    requires HoldersValid(s.leases, s.anchors, s.gens, s.current, s.attempts, s.cutoverByKey, s.tombs)
    requires SameRest(s, s') && GensShrink(s, s') && LeasesShrink(s, s') && PairsShrink(s, s') && TombsGrow(s, s')
    ensures HoldersValid(s'.leases, s'.anchors, s'.gens, s'.current, s'.attempts, s'.cutoverByKey, s'.tombs)
  {
    hide TombsGrow;
    forall t | t in s'.anchors
      ensures t in s'.leases && s'.leases[t].state.Active?
      ensures ReceiverOk(s'.leases[t], s'.anchors[t], s'.gens, s'.current, s'.attempts, s'.cutoverByKey, s'.tombs)
    {
      assert ReceiverOk(s.leases[t], s.anchors[t], s.gens, s.current, s.attempts, s.cutoverByKey, s.tombs);
      ShrinkNames(s, s', s.leases[t].binding.keyId, s.anchors[t].targetGeneration);
    }
  }

  lemma ShrinkEffects(s: State, s': State)
    requires LooseEffects(s.effects, s.leases, s.presigns, s.cutovers, s.disabled, s.gens)
    requires SameRest(s, s') && GensShrink(s, s') && LeasesShrink(s, s') && PairsShrink(s, s') && CutoversShrink(s, s') && EffectsClosed(s, s')
    ensures LooseEffects(s'.effects, s'.leases, s'.presigns, s'.cutovers, s'.disabled, s'.gens)
  {
  }

  lemma ShrinkEffectsStrong(s: State, s': State)
    requires EffectsStrong(s.effects, s.leases, s.presigns) && MetadataKept(s.presigns) && LeasesShrink(s, s') && PairsShrink(s, s')
    ensures EffectsStrong(s'.effects, s'.leases, s'.presigns) && MetadataKept(s'.presigns)
  {
  }

  lemma ShrinkDisabled(s: State, s': State)
    requires DisabledValid(s.disabled, s.bySession, s.effects, s.tombs) && LeasesValid(s.leases, s.bySession, s.nextLease)
    requires SameRest(s, s') && LeasesShrink(s, s') && SessionsEntombed(s, s') && Sub(s.tombs, s'.tombs)
    ensures DisabledValid(s'.disabled, s'.bySession, s'.effects, s'.tombs)
  {
    forall k | k in s'.disabled ensures DisabledOk(s'.disabled[k], k, s'.bySession, s'.effects, s'.tombs) {
      assert DisabledOk(s.disabled[k], k, s.bySession, s.effects, s.tombs);
    }
  }

  lemma ShrinkDisabledStrong(s: State, s': State)
    requires DisabledValid(s.disabled, s.bySession, s.effects, s.tombs) && LeasesValid(s.leases, s.bySession, s.nextLease)
    requires DisabledStrong(s.disabled, s.bySession, s.leases, s.tombs)
    requires SameRest(s, s') && LeasesShrink(s, s') && SessionsEntombed(s, s') && Sub(s.tombs, s'.tombs)
    ensures DisabledStrong(s'.disabled, s'.bySession, s'.leases, s'.tombs)
  {
    forall k | k in s'.disabled ensures MarkerOwned(s'.disabled[k], k, s'.bySession, s'.leases, s'.tombs) {
      assert DisabledOk(s.disabled[k], k, s.bySession, s.effects, s.tombs);
      assert MarkerOwned(s.disabled[k], k, s.bySession, s.leases, s.tombs);
    }
  }

  lemma ShrinkPresigns(s: State, s': State)
    requires PresignsValid(s.presigns, s.attempts, s.gens, s.current) && PairsShrink(s, s')
    requires forall b :: IsCurrentIn(s.gens, s.current, b) ==> IsCurrentIn(s'.gens, s'.current, b)
    ensures PresignsValid(s'.presigns, s'.attempts, s'.gens, s'.current)
  {
    forall id | id in s'.presigns ensures PresignOk(s'.presigns[id], id, s'.attempts, s'.gens, s'.current) {
      assert PresignOk(s.presigns[id], id, s.attempts, s.gens, s.current);
    }
  }

  lemma ShrinkAttempts(s: State, s': State)
    requires AttemptsValid(s.attempts, s.presigns, s.leases, s.bySession, s.gens, s.current) && AttemptsStrong(s.attempts)
    requires LeasesShrink(s, s') && PairsShrink(s, s')
    requires forall b :: IsCurrentIn(s.gens, s.current, b) ==> IsCurrentIn(s'.gens, s'.current, b)
    ensures AttemptsValid(s'.attempts, s'.presigns, s'.leases, s'.bySession, s'.gens, s'.current) && AttemptsStrong(s'.attempts)
  {
    forall id | id in s'.attempts ensures AttemptOk(s'.attempts[id], id, s'.presigns, s'.leases, s'.bySession, s'.gens, s'.current) {
      assert AttemptOk(s.attempts[id], id, s.presigns, s.leases, s.bySession, s.gens, s.current);
    }
  }

  lemma ShrinkFenced(s: State, s': State, c: Cutover, t: Token)
    requires FencedOk(c, t, s.cutoverByKey, s.gens, s.current, s.leases, s.attempts)
    requires SameRest(s, s') && GensShrink(s, s') && LeasesShrink(s, s') && PairsShrink(s, s')
    ensures FencedOk(c, t, s'.cutoverByKey, s'.gens, s'.current, s'.leases, s'.attempts)
  {
  }

  lemma ShrinkCutovers(s: State, s': State)
    requires LooseCutovers(s.cutovers, s.cutoverByKey, s.nextCutover, s.gens, s.current, s.leases, s.attempts)
    requires SameRest(s, s') && GensShrink(s, s') && LeasesShrink(s, s') && PairsShrink(s, s') && CutoversShrink(s, s')
    ensures LooseCutovers(s'.cutovers, s'.cutoverByKey, s'.nextCutover, s'.gens, s'.current, s'.leases, s'.attempts)
  {
    hide LeasesShrink, PairsShrink, FencedOk;
    forall t | t in s'.cutovers
      ensures LooseCutover(s'.cutovers[t], t, s'.cutoverByKey, s'.nextCutover, s'.gens, s'.current, s'.leases, s'.attempts)
    {
      assert LooseCutover(s.cutovers[t], t, s.cutoverByKey, s.nextCutover, s.gens, s.current, s.leases, s.attempts);
      if s.cutovers[t].state.ActiveCutover? { ShrinkFenced(s, s', s.cutovers[t], t); }
    }
  }

  lemma ShrinkFences(s: State, s': State)
    requires FencesStrong(s.cutovers, s.gens, s.tombs) && GensShrink(s, s') && CutoversShrink(s, s') && TombsGrow(s, s')
    ensures FencesStrong(s'.cutovers, s'.gens, s'.tombs)
  {
    hide TombsGrow;
    forall t | t in s'.cutovers && s'.cutovers[t].state.ActiveCutover?
      ensures !HasKeyGeneration(s'.gens, s'.tombs, s'.cutovers[t].fence.target.keyId, s'.cutovers[t].fence.target.generation)
    {
      ShrinkNames(s, s', s.cutovers[t].fence.target.keyId, s.cutovers[t].fence.target.generation);
    }
  }

  lemma ShrinkTombs(s: State, s': State)
    requires TombsValid(s.tombs) && TombsStrong(s.tombs, s.gens, s.bySession, s.presigns, s.attempts, s.cutovers, s.nextCutover)
    requires SameRest(s, s') && GensShrink(s, s') && LeasesShrink(s, s') && PairsShrink(s, s') && CutoversShrink(s, s') && TombsGrow(s, s')
    ensures TombsValid(s'.tombs) && TombsStrong(s'.tombs, s'.gens, s'.bySession, s'.presigns, s'.attempts, s'.cutovers, s'.nextCutover)
  {
    forall x | x in s'.tombs
      ensures TombOk(x, s'.tombs[x].keyId, s'.gens, s'.bySession, s'.presigns, s'.attempts, s'.cutovers, s'.nextCutover)
    {
      if x in s.tombs {
        assert TombOk(x, s.tombs[x].keyId, s.gens, s.bySession, s.presigns, s.attempts, s.cutovers, s.nextCutover);
      } else {
        assert NewTombOk(x, s'.tombs[x], s, s');
      }
    }
  }

  lemma ShrinkKeeps(s: State, s': State)
    requires Loose(s) && Shrinks(s, s')
    ensures Loose(s')
  {
    hide SameRest, GensShrink, LeasesShrink, SessionsEntombed, PairsShrink, CutoversShrink, EffectsClosed, Sub;
    hide GenerationsValid, LeasesValid, HoldersValid, LooseEffects, DisabledValid, PresignsValid, AttemptsValid, LooseCutovers,
         TombsValid, NamesUnique, EffectsStrong, MetadataKept, DisabledStrong, AttemptsStrong, FencesStrong, TombsStrong;
    ShrinkGenerations(s, s');
    ShrinkLeases(s, s');
    ShrinkHolders(s, s');
    ShrinkEffects(s, s');
    ShrinkEffectsStrong(s, s');
    ShrinkDisabled(s, s');
    ShrinkDisabledStrong(s, s');
    ShrinkPresigns(s, s');
    ShrinkAttempts(s, s');
    ShrinkCutovers(s, s');
    ShrinkFences(s, s');
    ShrinkTombs(s, s');
  }
}

/** The remaining elementary changes: generations, presigns, attempts, fences. */
module LifecycleChanges {
  import opened LifecycleRecords
  import opened LifecycleState
  import opened LifecycleOps
  import opened LifecycleInvariant

  // -------------------------------------------------- installing a generation

  predicate Installable(s: State, g: Generation) {
    && ValidBinding(g.binding) && g.status.CurrentGeneration? && g.blob != []
    && g.binding.keyId !in s.current
    && !HasActiveLeaseForKey(s.leases, g.binding.keyId)
    && !HasKeyGeneration(s.gens, s.tombs, g.binding.keyId, g.binding.generation)
  }

  lemma InstallGenerations(s: State, g: Generation)
    requires GenerationsValid(s.gens, s.current) && NamesUnique(s.gens) && Installable(s, g)
    ensures GenerationsValid(InstallCurrent(s, g).gens, InstallCurrent(s, g).current)
    ensures NamesUnique(InstallCurrent(s, g).gens)
    ensures g.binding !in s.gens
  {
    hide ValidBinding, HasActiveLeaseForKey;
    var s' := InstallCurrent(s, g);
    forall b | b in s'.gens ensures GenerationOk(s'.gens[b], b, s'.current) {
      if b != g.binding { assert GenerationOk(s.gens[b], b, s.current); }
    }
  }

  lemma InstallHolders(s: State, g: Generation)
    requires HoldersValid(s.leases, s.anchors, s.gens, s.current, s.attempts, s.cutoverByKey, s.tombs) && Installable(s, g)
    ensures HoldersValid(s.leases, s.anchors, InstallCurrent(s, g).gens, InstallCurrent(s, g).current, s.attempts, s.cutoverByKey, s.tombs)
  {
    var s' := InstallCurrent(s, g);
    forall t | t in s.anchors
      ensures ReceiverOk(s.leases[t], s.anchors[t], s'.gens, s'.current, s.attempts, s.cutoverByKey, s.tombs)
    {
      assert ActiveOnKey(s.leases[t], s.leases[t].binding.keyId);
    }
    forall t | t in s.leases && s.leases[t].state.Active? && t !in s.anchors
      ensures HolderOk(s.leases[t], s'.gens, s'.current)
    {
      assert ActiveOnKey(s.leases[t], s.leases[t].binding.keyId);
    }
  }

  lemma InstallEffects(s: State, g: Generation)
    requires EffectsValid(s.effects, s.leases, s.presigns, s.cutovers, s.disabled, s.gens) && Installable(s, g) && g.binding !in s.gens
    ensures EffectsValid(s.effects, s.leases, s.presigns, s.cutovers, s.disabled, InstallCurrent(s, g).gens)
  {
  }

  lemma InstallPresigns(s: State, g: Generation)
    requires PresignsValid(s.presigns, s.attempts, s.gens, s.current) && Installable(s, g)
    ensures PresignsValid(s.presigns, s.attempts, InstallCurrent(s, g).gens, InstallCurrent(s, g).current)
  {
  }

  lemma InstallAttempts(s: State, g: Generation)
    requires AttemptsValid(s.attempts, s.presigns, s.leases, s.bySession, s.gens, s.current) && Installable(s, g)
    ensures AttemptsValid(s.attempts, s.presigns, s.leases, s.bySession, InstallCurrent(s, g).gens, InstallCurrent(s, g).current)
  {
  }

  lemma InstallCutovers(s: State, g: Generation)
    requires CutoversValid(s.cutovers, s.cutoverByKey, s.nextCutover, s.gens, s.current, s.leases, s.attempts)
    requires Installable(s, g) && g.binding !in s.gens
    ensures CutoversValid(s.cutovers, s.cutoverByKey, s.nextCutover, InstallCurrent(s, g).gens, InstallCurrent(s, g).current, s.leases, s.attempts)
  {
    var s' := InstallCurrent(s, g);
    forall t | t in s.cutovers
      ensures CutoverOk(s.cutovers[t], t, s.cutoverByKey, s.nextCutover, s'.gens, s'.current, s.leases, s.attempts)
    {
      assert CutoverOk(s.cutovers[t], t, s.cutoverByKey, s.nextCutover, s.gens, s.current, s.leases, s.attempts);
    }
  }

  lemma InstallFences(s: State, g: Generation)
    requires CutoversValid(s.cutovers, s.cutoverByKey, s.nextCutover, s.gens, s.current, s.leases, s.attempts)
    requires FencesStrong(s.cutovers, s.gens, s.tombs) && Installable(s, g)
    ensures FencesStrong(s.cutovers, InstallCurrent(s, g).gens, s.tombs)
  {
    forall t | t in s.cutovers && s.cutovers[t].state.ActiveCutover?
      ensures s.cutovers[t].fence.target.keyId != g.binding.keyId
    {
      assert CutoverOk(s.cutovers[t], t, s.cutoverByKey, s.nextCutover, s.gens, s.current, s.leases, s.attempts);
    }
  }

  lemma InstallTombs(s: State, g: Generation)
    requires TombsStrong(s.tombs, s.gens, s.bySession, s.presigns, s.attempts, s.cutovers, s.nextCutover) && Installable(s, g)
    ensures TombsStrong(s.tombs, InstallCurrent(s, g).gens, s.bySession, s.presigns, s.attempts, s.cutovers, s.nextCutover)
  {
  }

  lemma InstallKeeps(s: State, g: Generation)
    requires Inv(s) && Installable(s, g)
    ensures Inv(InstallCurrent(s, g))
  {
    InstallGenerations(s, g);
    InstallHolders(s, g);
    InstallEffects(s, g);
    InstallPresigns(s, g);
    InstallAttempts(s, g);
    InstallCutovers(s, g);
    InstallFences(s, g);
    InstallTombs(s, g);
  }

  // ---------------------------------------------------- retiring a generation

  /** The source is retired and its key is left without a current generation. */
  function Retired(s: State, b: Binding, reason: string): State
    requires b in s.gens
  {
    Retire(s, b, reason).(current := s.current - {b.keyId})
  }

  predicate Retirable(s: State, b: Binding) {
    && IsCurrent(s, b) && b.keyId !in s.cutoverByKey
    && !HasActiveLeaseForKey(s.leases, b.keyId) && !HasNonTerminalAttempt(s.attempts, b)
  }

  lemma RetireGenerations(s: State, b: Binding, reason: string)
    requires GenerationsValid(s.gens, s.current) && Retirable(s, b)
    ensures GenerationsValid(Retired(s, b, reason).gens, Retired(s, b, reason).current)
  {
    var s' := Retired(s, b, reason);
    forall c | c in s'.gens
      ensures GenerationOk(s'.gens[c], c, s'.current)
    {
      assert GenerationOk(s.gens[c], c, s.current);
    }
  }

  lemma RetireNames(s: State, b: Binding, reason: string)
    requires NamesUnique(s.gens) && b in s.gens
    ensures NamesUnique(Retired(s, b, reason).gens)
  {
  }

  lemma RetireHolders(s: State, b: Binding, reason: string)
    requires HoldersValid(s.leases, s.anchors, s.gens, s.current, s.attempts, s.cutoverByKey, s.tombs) && Retirable(s, b)
    ensures HoldersValid(s.leases, s.anchors, Retired(s, b, reason).gens, Retired(s, b, reason).current, s.attempts, s.cutoverByKey, s.tombs)
  {
    var s' := Retired(s, b, reason);
    forall t | t in s.leases && s.leases[t].state.Active? && t !in s.anchors
      ensures HolderOk(s.leases[t], s'.gens, s'.current)
    {
      assert ActiveOnKey(s.leases[t], s.leases[t].binding.keyId);
    }
  }

  lemma RetireEffects(s: State, b: Binding, reason: string)
    requires EffectsValid(s.effects, s.leases, s.presigns, s.cutovers, s.disabled, s.gens)
    requires EffectsStrong(s.effects, s.leases, s.presigns) && Retirable(s, b)
    ensures EffectsValid(s.effects, s.leases, Retired(s, b, reason).presigns, s.cutovers, s.disabled, Retired(s, b, reason).gens)
    ensures EffectsStrong(s.effects, s.leases, Retired(s, b, reason).presigns)
  {
  }

  /** After the burn nothing bound to `b` is usable, and nothing else changed. */
  lemma BurnedPresignOk(p: Presign, id: string, attempts: map<string, Attempt>, gens: map<Binding, Generation>, current: map<string, Binding>,
                        b: Binding, gens': map<Binding, Generation>, current': map<string, Binding>, reason: string)
    requires PresignOk(p, id, attempts, gens, current) && IsCurrentIn(gens, current, b)
    requires !HasNonTerminalAttempt(attempts, b) && ValidText(reason)
    requires forall c | c != b && IsCurrentIn(gens, current, c) :: IsCurrentIn(gens', current', c)
    ensures PresignOk(BurnOnCutover(p, attempts, b.keyId, b.epochId, reason), id, attempts, gens', current')
  {
    if p.state.ClaimedPresign? && p.binding == b { assert attempts[p.attemptId].Terminal(); }
  }

  lemma BurnedPresignsOk(presigns: map<string, Presign>, attempts: map<string, Attempt>, gens: map<Binding, Generation>, current: map<string, Binding>,
                         b: Binding, gens': map<Binding, Generation>, current': map<string, Binding>, reason: string)
    requires PresignsValid(presigns, attempts, gens, current) && IsCurrentIn(gens, current, b)
    requires !HasNonTerminalAttempt(attempts, b) && ValidText(reason)
    requires forall c | c != b && IsCurrentIn(gens, current, c) :: IsCurrentIn(gens', current', c)
    ensures PresignsValid(BurnEpochPresigns(presigns, attempts, b.keyId, b.epochId, reason), attempts, gens', current')
  {
    forall id | id in presigns
      ensures PresignOk(BurnOnCutover(presigns[id], attempts, b.keyId, b.epochId, reason), id, attempts, gens', current')
    {
      BurnedPresignOk(presigns[id], id, attempts, gens, current, b, gens', current', reason);
    }
  }

  lemma RetirePresigns(s: State, b: Binding, reason: string)
    requires PresignsValid(s.presigns, s.attempts, s.gens, s.current) && MetadataKept(s.presigns) && Retirable(s, b) && ValidText(reason)
    ensures PresignsValid(Retired(s, b, reason).presigns, s.attempts, Retired(s, b, reason).gens, Retired(s, b, reason).current)
    ensures MetadataKept(Retired(s, b, reason).presigns)
  {
    BurnedPresignsOk(s.presigns, s.attempts, s.gens, s.current, b, Retired(s, b, reason).gens, Retired(s, b, reason).current, reason);
  }

  lemma RetireAttempts(s: State, b: Binding, reason: string)
    requires AttemptsValid(s.attempts, s.presigns, s.leases, s.bySession, s.gens, s.current)
    requires GenerationsValid(s.gens, s.current) && Retirable(s, b)
    ensures AttemptsValid(s.attempts, Retired(s, b, reason).presigns, s.leases, s.bySession, Retired(s, b, reason).gens, Retired(s, b, reason).current)
  {
    var s' := Retired(s, b, reason);
    forall id | id in s.attempts
      ensures AttemptOk(s.attempts[id], id, s'.presigns, s.leases, s.bySession, s'.gens, s'.current)
    {
      assert AttemptOk(s.attempts[id], id, s.presigns, s.leases, s.bySession, s.gens, s.current);
    }
  }

  lemma RetireCutovers(s: State, b: Binding, reason: string)
    requires CutoversValid(s.cutovers, s.cutoverByKey, s.nextCutover, s.gens, s.current, s.leases, s.attempts)
    requires FencesStrong(s.cutovers, s.gens, s.tombs) && Retirable(s, b)
    ensures CutoversValid(s.cutovers, s.cutoverByKey, s.nextCutover, Retired(s, b, reason).gens, Retired(s, b, reason).current, s.leases, s.attempts)
    ensures FencesStrong(s.cutovers, Retired(s, b, reason).gens, s.tombs)
  {
    hide ValidFence, HasActiveLeaseForKey, HasNonTerminalAttempt, BurnEpochPresigns;
    var s' := Retired(s, b, reason);
    forall t | t in s.cutovers
      ensures CutoverOk(s.cutovers[t], t, s.cutoverByKey, s.nextCutover, s'.gens, s'.current, s.leases, s.attempts)
    {
      assert CutoverOk(s.cutovers[t], t, s.cutoverByKey, s.nextCutover, s.gens, s.current, s.leases, s.attempts);
    }
  }

  lemma RetireTombs(s: State, b: Binding, reason: string)
    requires TombsStrong(s.tombs, s.gens, s.bySession, s.presigns, s.attempts, s.cutovers, s.nextCutover) && Retirable(s, b)
    ensures TombsStrong(s.tombs, Retired(s, b, reason).gens, s.bySession, Retired(s, b, reason).presigns, s.attempts, s.cutovers, s.nextCutover)
  {
  }

  lemma RetireKeeps(s: State, b: Binding, reason: string)
    requires Inv(s) && Retirable(s, b) && ValidText(reason)
    ensures Inv(Retired(s, b, reason))
  {
    RetireGenerations(s, b, reason);
    RetireNames(s, b, reason);
    RetireHolders(s, b, reason);
    RetireEffects(s, b, reason);
    RetirePresigns(s, b, reason);
    RetireAttempts(s, b, reason);
    RetireCutovers(s, b, reason);
    RetireTombs(s, b, reason);
  }

  // ------------------------------------------------------- presign life cycle

  predicate NewPresign(s: State, id: string, p: Presign) {
    && id !in s.presigns && p.state.AvailablePresign? && p.metadata != []
    && PresignOk(p, id, s.attempts, s.gens, s.current)
    && !HasConflictingArtifact(s.presigns, id, p.artifact)
    && PresignTomb(id) !in s.tombs && ArtifactTomb(p.artifact) !in s.tombs
  }

  lemma AddPresignKeeps(s: State, id: string, p: Presign)
    requires Inv(s) && NewPresign(s, id, p)
    ensures Inv(PutPresign(s, id, p))
  {
    AddPresignEffects(s, id, p);
    AddPresignPresigns(s, id, p);
    AddPresignAttempts(s, id, p);
    AddPresignTombs(s, id, p);
  }

  lemma AddPresignEffects(s: State, id: string, p: Presign)
    requires EffectsValid(s.effects, s.leases, s.presigns, s.cutovers, s.disabled, s.gens)
    requires EffectsStrong(s.effects, s.leases, s.presigns) && id !in s.presigns
    ensures EffectsValid(s.effects, s.leases, PutPresign(s, id, p).presigns, s.cutovers, s.disabled, s.gens)
    ensures EffectsStrong(s.effects, s.leases, PutPresign(s, id, p).presigns)
  {
  }

  lemma AddPresignPresigns(s: State, id: string, p: Presign)
    requires PresignsValid(s.presigns, s.attempts, s.gens, s.current) && MetadataKept(s.presigns) && NewPresign(s, id, p)
    ensures PresignsValid(PutPresign(s, id, p).presigns, s.attempts, s.gens, s.current)
    ensures MetadataKept(PutPresign(s, id, p).presigns)
  {
  }

  lemma AddPresignAttempts(s: State, id: string, p: Presign)
    requires AttemptsValid(s.attempts, s.presigns, s.leases, s.bySession, s.gens, s.current) && id !in s.presigns
    ensures AttemptsValid(s.attempts, PutPresign(s, id, p).presigns, s.leases, s.bySession, s.gens, s.current)
  {
  }

  lemma AddPresignTombs(s: State, id: string, p: Presign)
    requires TombsStrong(s.tombs, s.gens, s.bySession, s.presigns, s.attempts, s.cutovers, s.nextCutover) && NewPresign(s, id, p)
    ensures TombsStrong(s.tombs, s.gens, s.bySession, PutPresign(s, id, p).presigns, s.attempts, s.cutovers, s.nextCutover)
  {
  }

  /** An attempt and its presign move together: claiming, aborting, burning and
      recording progress all replace one presign and one attempt. */
  predicate Pairable(s: State, id: string, p: Presign, aid: string, a: Attempt) {
    && id in s.presigns && p.binding == s.presigns[id].binding && p.artifact == s.presigns[id].artifact
    && p.attemptId == aid && a.presignId == id && a.binding == p.binding
    && !p.state.AvailablePresign? && PresignOk(p, id, s.attempts[aid := a], s.gens, s.current)
    && AttemptOk(a, aid, s.presigns[id := p], s.leases, s.bySession, s.gens, s.current)
    && !(a.aborted && a.delivered && a.completed)
    && (if aid in s.attempts
        then s.attempts[aid].presignId == id && s.presigns[id].attemptId == aid && (s.attempts[aid].Terminal() ==> a.Terminal())
        else s.presigns[id].attemptId == "" && AttemptTomb(aid) !in s.tombs
             && a.binding.keyId !in s.cutoverByKey)
  }

  lemma PairEffects(s: State, id: string, p: Presign, aid: string, a: Attempt)
    requires EffectsValid(s.effects, s.leases, s.presigns, s.cutovers, s.disabled, s.gens)
    requires EffectsStrong(s.effects, s.leases, s.presigns) && Pairable(s, id, p, aid, a)
    ensures EffectsValid(s.effects, s.leases, PutPair(s, id, p, aid, a).presigns, s.cutovers, s.disabled, s.gens)
    ensures EffectsStrong(s.effects, s.leases, PutPair(s, id, p, aid, a).presigns)
  {
  }

  lemma PairHolders(s: State, id: string, p: Presign, aid: string, a: Attempt)
    requires HoldersValid(s.leases, s.anchors, s.gens, s.current, s.attempts, s.cutoverByKey, s.tombs) && Pairable(s, id, p, aid, a)
    ensures HoldersValid(s.leases, s.anchors, s.gens, s.current, PutPair(s, id, p, aid, a).attempts, s.cutoverByKey, s.tombs)
  {
  }

  lemma PairPresigns(s: State, id: string, p: Presign, aid: string, a: Attempt)
    requires PresignsValid(s.presigns, s.attempts, s.gens, s.current) && MetadataKept(s.presigns)
    requires Pairable(s, id, p, aid, a)
    ensures PresignsValid(PutPair(s, id, p, aid, a).presigns, PutPair(s, id, p, aid, a).attempts, s.gens, s.current)
    ensures MetadataKept(PutPair(s, id, p, aid, a).presigns)
  {
    var s' := PutPair(s, id, p, aid, a);
    forall jd | jd in s'.presigns
      ensures PresignOk(s'.presigns[jd], jd, s'.attempts, s.gens, s.current)
    {
      if jd != id { assert PresignOk(s.presigns[jd], jd, s.attempts, s.gens, s.current); }
    }
  }

  lemma PairAttempts(s: State, id: string, p: Presign, aid: string, a: Attempt)
    requires AttemptsValid(s.attempts, s.presigns, s.leases, s.bySession, s.gens, s.current) && AttemptsStrong(s.attempts)
    requires Pairable(s, id, p, aid, a)
    ensures AttemptsValid(PutPair(s, id, p, aid, a).attempts, PutPair(s, id, p, aid, a).presigns, s.leases, s.bySession, s.gens, s.current)
    ensures AttemptsStrong(PutPair(s, id, p, aid, a).attempts)
  {
    var s' := PutPair(s, id, p, aid, a);
    forall bid | bid in s'.attempts
      ensures AttemptOk(s'.attempts[bid], bid, s'.presigns, s.leases, s.bySession, s.gens, s.current)
    {
      if bid != aid { assert AttemptOk(s.attempts[bid], bid, s.presigns, s.leases, s.bySession, s.gens, s.current); }
    }
  }

  lemma PairCutovers(s: State, id: string, p: Presign, aid: string, a: Attempt)
    requires CutoversValid(s.cutovers, s.cutoverByKey, s.nextCutover, s.gens, s.current, s.leases, s.attempts)
    requires Pairable(s, id, p, aid, a)
    requires aid in s.attempts ==> s.attempts[aid].binding == a.binding
    ensures CutoversValid(s.cutovers, s.cutoverByKey, s.nextCutover, s.gens, s.current, s.leases, PutPair(s, id, p, aid, a).attempts)
  {
  }

  lemma PairTombs(s: State, id: string, p: Presign, aid: string, a: Attempt)
    requires TombsStrong(s.tombs, s.gens, s.bySession, s.presigns, s.attempts, s.cutovers, s.nextCutover) && Pairable(s, id, p, aid, a)
    ensures TombsStrong(s.tombs, s.gens, s.bySession, PutPair(s, id, p, aid, a).presigns, PutPair(s, id, p, aid, a).attempts, s.cutovers, s.nextCutover)
  {
  }

  lemma PairKeeps(s: State, id: string, p: Presign, aid: string, a: Attempt)
    requires Inv(s) && Pairable(s, id, p, aid, a)
    ensures Inv(PutPair(s, id, p, aid, a))
  {
    if aid in s.attempts { assert AttemptOk(s.attempts[aid], aid, s.presigns, s.leases, s.bySession, s.gens, s.current); }
    PairEffects(s, id, p, aid, a);
    PairHolders(s, id, p, aid, a);
    PairPresigns(s, id, p, aid, a);
    PairAttempts(s, id, p, aid, a);
    PairCutovers(s, id, p, aid, a);
    PairTombs(s, id, p, aid, a);
  }

  // ------------------------------------------------ burning an unused presign

  predicate Burnable(s: State, id: string, p: Presign) {
    && id in s.presigns && s.presigns[id].state.AvailablePresign?
    && p == s.presigns[id].(blob := [], metadata := [], state := BurnedPresign, reason := p.reason) && ValidText(p.reason)
  }

  lemma BurnEffects(s: State, id: string, p: Presign)
    requires EffectsValid(s.effects, s.leases, s.presigns, s.cutovers, s.disabled, s.gens)
    requires EffectsStrong(s.effects, s.leases, s.presigns) && Burnable(s, id, p)
    ensures EffectsValid(s.effects, s.leases, PutPresign(s, id, p).presigns, s.cutovers, s.disabled, s.gens)
    ensures EffectsStrong(s.effects, s.leases, PutPresign(s, id, p).presigns)
  {
  }

  lemma BurnPresigns(s: State, id: string, p: Presign)
    requires PresignsValid(s.presigns, s.attempts, s.gens, s.current) && MetadataKept(s.presigns) && Burnable(s, id, p)
    ensures PresignsValid(PutPresign(s, id, p).presigns, s.attempts, s.gens, s.current)
    ensures MetadataKept(PutPresign(s, id, p).presigns)
  {
    assert PresignOk(s.presigns[id], id, s.attempts, s.gens, s.current);
  }

  lemma BurnAttempts(s: State, id: string, p: Presign)
    requires AttemptsValid(s.attempts, s.presigns, s.leases, s.bySession, s.gens, s.current) && Burnable(s, id, p)
    ensures AttemptsValid(s.attempts, PutPresign(s, id, p).presigns, s.leases, s.bySession, s.gens, s.current)
  {
  }

  lemma BurnTombs(s: State, id: string, p: Presign)
    requires TombsStrong(s.tombs, s.gens, s.bySession, s.presigns, s.attempts, s.cutovers, s.nextCutover) && Burnable(s, id, p)
    ensures TombsStrong(s.tombs, s.gens, s.bySession, PutPresign(s, id, p).presigns, s.attempts, s.cutovers, s.nextCutover)
  {
  }

  lemma BurnKeeps(s: State, id: string, p: Presign)
    requires Inv(s) && Burnable(s, id, p)
    ensures Inv(PutPresign(s, id, p))
  {
    BurnEffects(s, id, p);
    BurnPresigns(s, id, p);
    BurnAttempts(s, id, p);
    BurnTombs(s, id, p);
  }

  // ------------------------------------------------------------------- fences

  predicate Fenceable(s: State, f: Fence) {
    && ValidFence(f) && f.token == s.nextCutover + 1 && f.source.keyId !in s.cutoverByKey
    && IsCurrent(s, f.source)
    && !HasKeyGeneration(s.gens, s.tombs, f.target.keyId, f.target.generation)
    && !HasActiveLeaseForKey(s.leases, f.source.keyId) && !HasNonTerminalAttempt(s.attempts, f.source)
  }

  lemma FenceFresh(s: State, f: Fence)
    requires CutoversValid(s.cutovers, s.cutoverByKey, s.nextCutover, s.gens, s.current, s.leases, s.attempts) && Fenceable(s, f)
    ensures f.token !in s.cutovers
  {
  }

  lemma FenceCutovers(s: State, f: Fence)
    requires CutoversValid(s.cutovers, s.cutoverByKey, s.nextCutover, s.gens, s.current, s.leases, s.attempts)
    requires Fenceable(s, f) && f.token !in s.cutovers
    ensures CutoversValid(RaiseFence(s, f).cutovers, RaiseFence(s, f).cutoverByKey, f.token, s.gens, s.current, s.leases, s.attempts)
  {
    var s' := RaiseFence(s, f);
    forall t | t in s.cutovers
      ensures CutoverOk(s.cutovers[t], t, s'.cutoverByKey, f.token, s.gens, s.current, s.leases, s.attempts)
    {
      assert CutoverOk(s.cutovers[t], t, s.cutoverByKey, s.nextCutover, s.gens, s.current, s.leases, s.attempts);
    }
    assert CutoverOk(s'.cutovers[f.token], f.token, s'.cutoverByKey, f.token, s.gens, s.current, s.leases, s.attempts);
  }

  lemma FenceEffects(s: State, f: Fence)
    requires EffectsValid(s.effects, s.leases, s.presigns, s.cutovers, s.disabled, s.gens) && f.token !in s.cutovers
    ensures EffectsValid(s.effects, s.leases, s.presigns, RaiseFence(s, f).cutovers, s.disabled, s.gens)
  {
  }

  lemma FenceHolders(s: State, f: Fence)
    requires HoldersValid(s.leases, s.anchors, s.gens, s.current, s.attempts, s.cutoverByKey, s.tombs) && Fenceable(s, f)
    ensures HoldersValid(s.leases, s.anchors, s.gens, s.current, s.attempts, RaiseFence(s, f).cutoverByKey, s.tombs)
  {
  }

  lemma FenceStrong(s: State, f: Fence)
    requires FencesStrong(s.cutovers, s.gens, s.tombs) && Fenceable(s, f)
    ensures FencesStrong(RaiseFence(s, f).cutovers, s.gens, s.tombs)
  {
  }

  lemma FenceTombs(s: State, f: Fence)
    requires TombsStrong(s.tombs, s.gens, s.bySession, s.presigns, s.attempts, s.cutovers, s.nextCutover) && Fenceable(s, f)
    ensures TombsStrong(s.tombs, s.gens, s.bySession, s.presigns, s.attempts, RaiseFence(s, f).cutovers, f.token)
  {
  }

  lemma FenceKeeps(s: State, f: Fence)
    requires Inv(s) && Fenceable(s, f)
    ensures Inv(RaiseFence(s, f))
  {
    FenceFresh(s, f);
    FenceCutovers(s, f);
    FenceEffects(s, f);
    FenceHolders(s, f);
    FenceStrong(s, f);
    FenceTombs(s, f);
  }

  /** An active fence is lowered, or an abandoned cutover is rewritten in place. */
  predicate Settles(s: State, t: Token, c: Cutover) {
    && t in s.cutovers && c.fence == s.cutovers[t].fence && !c.state.ActiveCutover?
    && CutoverOk(c, t, s.cutoverByKey, s.nextCutover, s.gens, s.current, s.leases, s.attempts)
    && (c.fence.source.keyId in s.cutoverByKey ==> s.cutoverByKey[c.fence.source.keyId] == t)
  }

  lemma SettleCutovers(s: State, t: Token, c: Cutover)
    requires CutoversValid(s.cutovers, s.cutoverByKey, s.nextCutover, s.gens, s.current, s.leases, s.attempts) && Settles(s, t, c)
    ensures CutoversValid(PutCutover(s, t, c).cutovers, PutCutover(s, t, c).cutoverByKey, s.nextCutover, s.gens, s.current, s.leases, s.attempts)
  {
    var s' := PutCutover(s, t, c);
    forall u | u in s'.cutovers
      ensures CutoverOk(s'.cutovers[u], u, s'.cutoverByKey, s.nextCutover, s.gens, s.current, s.leases, s.attempts)
    {
      if u != t { assert CutoverOk(s.cutovers[u], u, s.cutoverByKey, s.nextCutover, s.gens, s.current, s.leases, s.attempts); }
    }
  }

  lemma SettleRest(s: State, t: Token, c: Cutover)
    requires EffectsValid(s.effects, s.leases, s.presigns, s.cutovers, s.disabled, s.gens)
    requires HoldersValid(s.leases, s.anchors, s.gens, s.current, s.attempts, s.cutoverByKey, s.tombs)
    requires FencesStrong(s.cutovers, s.gens, s.tombs) && Settles(s, t, c)
    ensures EffectsValid(s.effects, s.leases, s.presigns, PutCutover(s, t, c).cutovers, s.disabled, s.gens)
    ensures HoldersValid(s.leases, s.anchors, s.gens, s.current, s.attempts, PutCutover(s, t, c).cutoverByKey, s.tombs)
    ensures FencesStrong(PutCutover(s, t, c).cutovers, s.gens, s.tombs)
  {
  }

  lemma SettleTombs(s: State, t: Token, c: Cutover)
    requires TombsStrong(s.tombs, s.gens, s.bySession, s.presigns, s.attempts, s.cutovers, s.nextCutover) && Settles(s, t, c)
    ensures TombsStrong(s.tombs, s.gens, s.bySession, s.presigns, s.attempts, PutCutover(s, t, c).cutovers, s.nextCutover)
  {
  }

  lemma SettleKeeps(s: State, t: Token, c: Cutover)
    requires Inv(s) && Settles(s, t, c)
    ensures Inv(PutCutover(s, t, c))
  {
    SettleCutovers(s, t, c);
    SettleRest(s, t, c);
    SettleTombs(s, t, c);
  }
}

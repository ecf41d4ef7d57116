/** What compaction guarantees. */
module LifecycleCompactionTheorem {
  import opened LifecycleRecords
  import opened LifecycleState
  import opened LifecycleInvariant
  import opened LifecycleCompaction
  import opened LifecycleCompactionProof
  import opened LifecycleCompactionPasses

  function AfterPresigns(s: State, keyId: string, keep: Retained): State {
    CompactPresigns(CompactAttempts(s, keyId, keep.attempts), keyId, keep.presigns)
  }

  lemma PassesLoose(s: State, keyId: string, keep: Retained)
    requires Loose(s) && ValidText(keyId)
    ensures Loose(AfterPresigns(s, keyId, keep)) && Loose(AfterLeases(s, keyId, keep))
    ensures Loose(AfterCutovers(s, keyId, keep)) && Loose(Compacted(s, keyId, keep))
  {
    hide Loose, Shrinks, ValidText, CompactAttempts, CompactPresigns, CompactLeases, CompactCutovers, CompactGenerations;
    var s1 := CompactAttempts(s, keyId, keep.attempts);
    AttemptPassShrinks(s, keyId, keep.attempts);
    ShrinkKeeps(s, s1);
    PresignPassShrinks(s1, keyId, keep.presigns);
    var s2 := AfterPresigns(s, keyId, keep);
    ShrinkKeeps(s1, s2);
    LeasePassShrinks(s2, keyId, keep.leases);
    var s3 := AfterLeases(s, keyId, keep);
    ShrinkKeeps(s2, s3);
    CutoverPassShrinks(s3, keyId, keep.cutovers);
    var s4 := AfterCutovers(s, keyId, keep);
    ShrinkKeeps(s3, s4);
    GenerationPassShrinks(s4, keyId, keep.gens);
    ShrinkKeeps(s4, Compacted(s, keyId, keep));
  }

  // ------------------------------------------------------------------ what stays

  /** A terminal attempt of the lineage goes unless it is retained. */
  predicate AttemptStays(s: State, keyId: string, keep: Retained, id: string) {
    id in s.attempts && (s.attempts[id].binding.keyId == keyId && s.attempts[id].Terminal() ==> id in keep.attempts)
  }

  /** A presign that an attempt used goes with the attempt; a burned one that none used
      goes unless it is retained. */
  predicate PresignStays(s: State, keyId: string, keep: Retained, id: string) {
    && id in s.presigns
    && (if s.presigns[id].attemptId != "" then AttemptStays(s, keyId, keep, s.presigns[id].attemptId)
        else s.presigns[id].binding.keyId == keyId && s.presigns[id].state.BurnedPresign? ==> id in keep.presigns)
  }

  /** A finished lease of the lineage goes unless it is retained, an attempt that stays
      ran under it, or the presign it produced stays. */
  predicate LeaseStays(s: State, keyId: string, keep: Retained, t: Token) {
    && t in s.leases
    && (|| s.leases[t].binding.keyId != keyId || s.leases[t].state.Active? || t in keep.leases
        || (exists id :: id in s.attempts && AttemptStays(s, keyId, keep, id) && s.attempts[id].intent.session == s.leases[t].session)
        || (t in s.effects && s.effects[t].kind.PresignEffect? && PresignStays(s, keyId, keep, s.effects[t].kind.presignId)))
  }

  /** A retired generation of the lineage goes unless it is retained or the effect of a
      lease that stays refers to it. */
  predicate GenerationStays(s: State, keyId: string, keep: Retained, b: Binding) {
    && b in s.gens
    && (|| b.keyId != keyId || s.gens[b].status.CurrentGeneration? || b in keep.gens
        || exists t :: t in s.effects && LeaseStays(s, keyId, keep, t) && ReferencedBy(s, s.effects[t], b))
  }

  /** A retained lease whose presign effect names a presign that goes. */
  predicate LeaseDangles(s: State, keyId: string, keep: Retained, t: Token) {
    && t in keep.leases && t in s.leases && s.leases[t].binding.keyId == keyId
    && t in s.effects && s.effects[t].kind.PresignEffect? && !PresignStays(s, keyId, keep, s.effects[t].kind.presignId)
  }

  /** A retained committed cutover one of whose generations goes. */
  predicate CutoverDangles(s: State, keyId: string, keep: Retained, c: Token) {
    && c in keep.cutovers && c in s.cutovers && s.cutovers[c].fence.source.keyId == keyId && s.cutovers[c].state.CommittedCutover?
    && !(GenerationStays(s, keyId, keep, s.cutovers[c].fence.source) && GenerationStays(s, keyId, keep, s.cutovers[c].fence.target))
  }

  predicate NothingDangles(s: State, keyId: string, keep: Retained) {
    && (forall t | t in keep.leases :: !LeaseDangles(s, keyId, keep, t))
    && (forall c | c in keep.cutovers :: !CutoverDangles(s, keyId, keep, c))
  }

  // ------------------------------------------------- what stays, pass by pass

  lemma AttemptsStay(s: State, keyId: string, keep: Retained, id: string)
    requires PresignsValid(s.presigns, s.attempts, s.gens, s.current) && AttemptsValid(s.attempts, s.presigns, s.leases, s.bySession, s.gens, s.current)
    ensures id in CompactAttempts(s, keyId, keep.attempts).attempts <==> AttemptStays(s, keyId, keep, id)
  {
    hide AddTombs, PresignTombs, AttemptTombs, AttemptPresigns, PresignsValid, AttemptsValid, GoneAttempts, AttemptStays;
    if id in s.attempts {
      AttemptGoes(s, keyId, keep, id);
    } else {
      assert !AttemptStays(s, keyId, keep, id) by { StaysIsStored(s, keyId, keep, id); }
    }
  }

  lemma StaysIsStored(s: State, keyId: string, keep: Retained, id: string)
    ensures AttemptStays(s, keyId, keep, id) ==> id in s.attempts
  {
  }

  /** The attempt of a presign, and the presign of an attempt, name each other. */
  lemma PresignGoesWith(s: State, keyId: string, keep: Retained, id: string)
    requires PresignsValid(s.presigns, s.attempts, s.gens, s.current) && AttemptsValid(s.attempts, s.presigns, s.leases, s.bySession, s.gens, s.current)
    requires id in s.presigns
    ensures id in CompactAttempts(s, keyId, keep.attempts).presigns <==>
              (s.presigns[id].attemptId != "" ==> AttemptStays(s, keyId, keep, s.presigns[id].attemptId))
  {
    hide CompactAttempts, PresignsValid, AttemptsValid, GoneAttempts, AttemptStays;
    var a := s.presigns[id].attemptId;
    OneAttempt(s, id);
    PresignPass(s, keyId, keep, id);
    if a != "" { AttemptGoes(s, keyId, keep, a); }
  }

  lemma PresignPass(s: State, keyId: string, keep: Retained, id: string)
    requires id in s.presigns
    ensures id in CompactAttempts(s, keyId, keep.attempts).presigns <==>
              forall a | a in s.attempts && s.attempts[a].presignId == id :: a !in GoneAttempts(s, keyId, keep.attempts)
  {
    hide AddTombs, PresignTombs, AttemptTombs, AttemptPresigns, GoneAttempts;
  }

  lemma AttemptGoes(s: State, keyId: string, keep: Retained, id: string)
    requires PresignsValid(s.presigns, s.attempts, s.gens, s.current) && AttemptsValid(s.attempts, s.presigns, s.leases, s.bySession, s.gens, s.current)
    requires id in s.attempts
    ensures id in GoneAttempts(s, keyId, keep.attempts) <==> !AttemptStays(s, keyId, keep, id)
  {
    hide ProgressOk;
    assert AttemptOk(s.attempts[id], id, s.presigns, s.leases, s.bySession, s.gens, s.current);
    assert PresignOk(s.presigns[s.attempts[id].presignId], s.attempts[id].presignId, s.attempts, s.gens, s.current);
  }

  lemma OneAttempt(s: State, id: string)
    requires PresignsValid(s.presigns, s.attempts, s.gens, s.current) && AttemptsValid(s.attempts, s.presigns, s.leases, s.bySession, s.gens, s.current)
    requires id in s.presigns
    ensures forall a | a in s.attempts && s.attempts[a].presignId == id :: s.presigns[id].attemptId == a && a != ""
    ensures s.presigns[id].attemptId != "" ==> s.presigns[id].attemptId in s.attempts && s.attempts[s.presigns[id].attemptId].presignId == id
  {
    hide ProgressOk;
    assert PresignOk(s.presigns[id], id, s.attempts, s.gens, s.current);
    forall a | a in s.attempts && s.attempts[a].presignId == id ensures s.presigns[id].attemptId == a && a != "" {
      assert AttemptOk(s.attempts[a], a, s.presigns, s.leases, s.bySession, s.gens, s.current);
    }
  }

  lemma PresignsStay(s: State, keyId: string, keep: Retained, id: string)
    requires PresignsValid(s.presigns, s.attempts, s.gens, s.current) && AttemptsValid(s.attempts, s.presigns, s.leases, s.bySession, s.gens, s.current)
    ensures id in AfterPresigns(s, keyId, keep).presigns <==> PresignStays(s, keyId, keep, id)
  {
    hide AddTombs, PresignTombs, AttemptTombs, AttemptPresigns, GoneAttempts, AttemptStays, PresignsValid, AttemptsValid;
    if id in s.presigns { PresignGoesWith(s, keyId, keep, id); }
  }

  lemma LeasesStay(s: State, keyId: string, keep: Retained, t: Token)
    requires PresignsValid(s.presigns, s.attempts, s.gens, s.current) && AttemptsValid(s.attempts, s.presigns, s.leases, s.bySession, s.gens, s.current)
    ensures t in AfterLeases(s, keyId, keep).leases <==> LeaseStays(s, keyId, keep, t)
    ensures t in AfterLeases(s, keyId, keep).effects <==> t in s.effects && (t in s.leases ==> LeaseStays(s, keyId, keep, t))
  {
    hide AfterPresigns, AfterLeases, CompactLeases, LeaseReferenced, PresignsValid, AttemptsValid, PresignStays, AttemptStays;
    LeasePass(s, keyId, keep, t);
    PassesKeepLeases(s, keyId, keep);
    if t in s.effects && s.effects[t].kind.PresignEffect? { PresignsStay(s, keyId, keep, s.effects[t].kind.presignId); }
    if t in s.leases { SessionStays(s, keyId, keep, s.leases[t].session); }
  }

  lemma LeasePass(s: State, keyId: string, keep: Retained, t: Token)
    ensures var s2 := AfterPresigns(s, keyId, keep);
            && (t in AfterLeases(s, keyId, keep).leases <==> t in s2.leases && (LeaseCandidate(s2, keyId, t) ==> t in keep.leases))
            && (t in AfterLeases(s, keyId, keep).effects <==> t in s2.effects && (LeaseCandidate(s2, keyId, t) ==> t in keep.leases))
  {
    hide AddTombs, SessionTombs, LeaseSessions, CompactAttempts, CompactPresigns, LeaseReferenced, PresignHeld;
  }

  lemma PassesKeepAttempts(s: State, keyId: string, keep: Retained)
    ensures AfterPresigns(s, keyId, keep).attempts == CompactAttempts(s, keyId, keep.attempts).attempts
    ensures forall id | id in AfterPresigns(s, keyId, keep).attempts :: id in s.attempts && AfterPresigns(s, keyId, keep).attempts[id] == s.attempts[id]
  {
    hide AddTombs, PresignTombs, AttemptTombs, AttemptPresigns, GoneAttempts;
  }

  lemma SessionStays(s: State, keyId: string, keep: Retained, session: SessionId)
    requires PresignsValid(s.presigns, s.attempts, s.gens, s.current) && AttemptsValid(s.attempts, s.presigns, s.leases, s.bySession, s.gens, s.current)
    ensures LeaseReferenced(AfterPresigns(s, keyId, keep), session) <==> exists id :: id in s.attempts && AttemptStays(s, keyId, keep, id) && s.attempts[id].intent.session == session
  {
    hide CompactAttempts, CompactPresigns, PresignsValid, AttemptsValid;
    PassesKeepAttempts(s, keyId, keep);
    var s2 := AfterPresigns(s, keyId, keep);
    forall id ensures id in s2.attempts <==> AttemptStays(s, keyId, keep, id) { AttemptsStay(s, keyId, keep, id); }
    if id :| id in s.attempts && AttemptStays(s, keyId, keep, id) && s.attempts[id].intent.session == session {
      assert id in s2.attempts && s2.attempts[id].intent.session == session;
    }
    if LeaseReferenced(s2, session) {
      var id :| id in s2.attempts && s2.attempts[id].intent.session == session;
      assert AttemptStays(s, keyId, keep, id);
    }
  }

  lemma PassesKeepLeases(s: State, keyId: string, keep: Retained)
    ensures var s2 := AfterPresigns(s, keyId, keep);
            s2.leases == s.leases && s2.effects == s.effects && s2.cutovers == s.cutovers && s2.gens == s.gens && s2.bySession == s.bySession
  {
  }

  // ---------------------------------------------- presigns behind kept leases

  /** No attempt runs under a presigning lease. */
  lemma PresignLeaseUnreferenced(s: State, t: Token)
    requires AttemptsValid(s.attempts, s.presigns, s.leases, s.bySession, s.gens, s.current)
    requires LeasesValid(s.leases, s.bySession, s.nextLease)
    requires t in s.leases && !s.leases[t].kind.Signing?
    ensures !LeaseReferenced(s, s.leases[t].session)
  {
    assert LeaseOk(s.leases[t], t, s.bySession, s.nextLease);
    forall id | id in s.attempts ensures s.attempts[id].intent.session != s.leases[t].session {
      assert AttemptOk(s.attempts[id], id, s.presigns, s.leases, s.bySession, s.gens, s.current);
    }
  }

  /** A presign of another lineage stays. */
  lemma OtherPresignStays(s: State, keyId: string, keep: Retained, id: string)
    requires PresignsValid(s.presigns, s.attempts, s.gens, s.current) && id in s.presigns && s.presigns[id].binding.keyId != keyId
    ensures PresignStays(s, keyId, keep, id)
  {
    assert PresignOk(s.presigns[id], id, s.attempts, s.gens, s.current);
  }

  /** Of the leases that stay, only a retained one can have lost its presign. */
  lemma PresignBehindLease(s: State, keyId: string, keep: Retained, t: Token)
    requires Inv(s) && t in s.effects && s.effects[t].kind.PresignEffect? && LeaseStays(s, keyId, keep, t)
    ensures PresignStays(s, keyId, keep, s.effects[t].kind.presignId) <==> !LeaseDangles(s, keyId, keep, t)
  {
    hide Inv, PresignStays, AttemptStays;
    EffectParts(s, t);
    if s.leases[t].binding.keyId != keyId {
      OtherPresignStays(s, keyId, keep, s.effects[t].kind.presignId);
    } else {
      PresignLeaseUnreferenced(s, t);
      assert forall id | id in s.attempts :: s.attempts[id].intent.session != s.leases[t].session;
    }
  }

  lemma EffectParts(s: State, t: Token)
    requires Inv(s) && t in s.effects
    ensures s.effects[t].leaseToken == t && t in s.leases && !s.leases[t].state.Active?
    ensures EffectOk(s.effects[t], s.leases[t], s.presigns, s.cutovers, s.disabled, s.gens)
    ensures s.effects[t].kind.PresignEffect? ==>
              s.effects[t].kind.presignId in s.presigns && s.presigns[s.effects[t].kind.presignId].binding == s.leases[t].binding
    ensures PresignsValid(s.presigns, s.attempts, s.gens, s.current) && AttemptsValid(s.attempts, s.presigns, s.leases, s.bySession, s.gens, s.current)
    ensures LeasesValid(s.leases, s.bySession, s.nextLease)
  {
    hide GenerationsValid, LeasesValid, HoldersValid, DisabledValid, PresignsValid, AttemptsValid, CutoversValid, TombsValid;
    hide NamesUnique, MetadataKept, DisabledStrong, AttemptsStrong, FencesStrong, TombsStrong;
    assert s.effects[t].kind.PresignEffect? ==> PresignEffectStrong(s.effects[t], s.leases[t], s.presigns);
  }

  lemma ArtifactParts(s: State)
    requires Inv(s)
    ensures PresignsValid(s.presigns, s.attempts, s.gens, s.current) && AttemptsValid(s.attempts, s.presigns, s.leases, s.bySession, s.gens, s.current)
  {
    hide PresignsValid, AttemptsValid;
  }

  lemma LaterPasses(s: State, keyId: string, keep: Retained)
    ensures var s3, s5 := AfterLeases(s, keyId, keep), Compacted(s, keyId, keep);
            && s5.effects == s3.effects && s5.presigns == AfterPresigns(s, keyId, keep).presigns && s5.leases == s3.leases
            && (forall t | t in s3.effects :: t in s.effects && s3.effects[t] == s.effects[t])
            && (forall t | t in s3.leases :: t in s.leases && s3.leases[t] == s.leases[t])
            && s3.cutovers == s.cutovers && AfterCutovers(s, keyId, keep).gens == s.gens
            && AfterCutovers(s, keyId, keep).effects == s3.effects && AfterCutovers(s, keyId, keep).leases == s3.leases
  {
    hide AddTombs, SessionTombs, LeaseSessions, CutoverTombs, GenerationTombs, CompactAttempts, CompactPresigns, GoneLeases, GoneCutovers, GoneGenerations;
    PassesKeepLeases(s, keyId, keep);
  }

  lemma PresignsPresentIff(s: State, keyId: string, keep: Retained)
    requires Inv(s)
    ensures PresignsPresent(Compacted(s, keyId, keep)) <==> forall t | t in keep.leases :: !LeaseDangles(s, keyId, keep, t)
  {
    hide Inv, AfterPresigns, AfterLeases, AfterCutovers, Compacted, LeaseStays, PresignStays;
    var s5 := Compacted(s, keyId, keep);
    LaterPasses(s, keyId, keep);
    ArtifactParts(s);
    forall t | t in s.effects && s.effects[t].kind.PresignEffect?
      ensures t in s5.effects && s5.effects[t].kind.presignId !in s5.presigns <==> LeaseDangles(s, keyId, keep, t)
    {
      PresignSwept(s, keyId, keep, t);
    }
    forall t | t in keep.leases && LeaseDangles(s, keyId, keep, t) ensures t in s5.effects {}
  }

  lemma PresignSwept(s: State, keyId: string, keep: Retained, t: Token)
    requires Inv(s) && t in s.effects && s.effects[t].kind.PresignEffect?
    ensures var s5 := Compacted(s, keyId, keep); t in s5.effects && s5.effects[t].kind.presignId !in s5.presigns <==> LeaseDangles(s, keyId, keep, t)
  {
    hide Inv, AfterPresigns, AfterLeases, AfterCutovers, Compacted, PresignStays;
    LaterPasses(s, keyId, keep);
    EffectParts(s, t);
    LeasesStay(s, keyId, keep, t);
    PresignsStay(s, keyId, keep, s.effects[t].kind.presignId);
    if LeaseStays(s, keyId, keep, t) { PresignBehindLease(s, keyId, keep, t); }
  }

  // --------------------------------------- generations behind kept cutovers

  /** Both ends of a fence carry the same key. */
  predicate CutoverKeysAgree(s: State) {
    forall c | c in s.cutovers :: s.cutovers[c].fence.source.keyId == s.cutovers[c].fence.target.keyId
  }

  lemma LooseKeysAgree(s: State)
    requires Loose(s)
    ensures CutoverKeysAgree(s)
  {
    forall c | c in s.cutovers ensures s.cutovers[c].fence.source.keyId == s.cutovers[c].fence.target.keyId {
      assert LooseCutover(s.cutovers[c], c, s.cutoverByKey, s.nextCutover, s.gens, s.current, s.leases, s.attempts);
    }
  }

  lemma GenerationsStay(s: State, keyId: string, keep: Retained, b: Binding)
    requires Inv(s)
    ensures b in Compacted(s, keyId, keep).gens <==> GenerationStays(s, keyId, keep, b)
  {
    hide Inv, AfterPresigns, AfterLeases, LeaseStays, GenerationReferenced;
    ReferenceStays(s, keyId, keep, b);
    GenerationPass(s, keyId, keep, b);
    LaterPasses(s, keyId, keep);
  }

  lemma GenerationPass(s: State, keyId: string, keep: Retained, b: Binding)
    ensures var s4 := AfterCutovers(s, keyId, keep);
            b in Compacted(s, keyId, keep).gens <==> b in s4.gens && (GenerationCandidate(s4, keyId, b) ==> b in keep.gens)
  {
    hide AfterCutovers, GenerationReferenced, AddTombs, GenerationTombs;
  }

  lemma ReferenceStays(s: State, keyId: string, keep: Retained, b: Binding)
    requires Inv(s)
    ensures GenerationReferenced(AfterCutovers(s, keyId, keep), b) <==> exists t :: t in s.effects && LeaseStays(s, keyId, keep, t) && ReferencedBy(s, s.effects[t], b)
  {
    hide Inv, AfterPresigns, AfterLeases, AfterCutovers, LeaseStays, EffectOk;
    var s4 := AfterCutovers(s, keyId, keep);
    LaterPasses(s, keyId, keep);
    ArtifactParts(s);
    if t :| t in s.effects && LeaseStays(s, keyId, keep, t) && ReferencedBy(s, s.effects[t], b) {
      EffectParts(s, t);
      LeasesStay(s, keyId, keep, t);
      assert ReferencedBy(s4, s4.effects[t], b);
    }
    if GenerationReferenced(s4, b) {
      var t :| t in s4.effects && ReferencedBy(s4, s4.effects[t], b);
      EffectParts(s, t);
      LeasesStay(s, keyId, keep, t);
      assert ReferencedBy(s, s.effects[t], b);
    }
  }

  lemma CutoverPass(s: State, keyId: string, keep: Retained, c: Token)
    ensures var s3, s5 := AfterLeases(s, keyId, keep), Compacted(s, keyId, keep);
            && (c in s5.cutovers <==> c in s.cutovers && (CutoverCandidate(s3, keyId, c) ==> c in keep.cutovers))
            && (c in s5.cutovers ==> s5.cutovers[c] == s.cutovers[c])
  {
    hide AfterLeases, AddTombs, CutoverTombs, GenerationTombs, GoneGenerations, CutoverReferenced;
    LaterPasses(s, keyId, keep);
  }

  /** A cutover that the effect of a lease that stays refers to has both its generations. */
  lemma ReferencedCutover(s: State, keyId: string, keep: Retained, c: Token)
    requires Inv(s) && c in s.cutovers && CutoverReferenced(AfterLeases(s, keyId, keep), c)
    requires s.cutovers[c].fence.source in s.gens && s.cutovers[c].fence.target in s.gens
    ensures GenerationStays(s, keyId, keep, s.cutovers[c].fence.source) && GenerationStays(s, keyId, keep, s.cutovers[c].fence.target)
  {
    hide Inv, AfterPresigns, AfterLeases, AfterCutovers, Compacted, LeaseStays;
    LaterPasses(s, keyId, keep);
    var s3 := AfterLeases(s, keyId, keep);
    var t :| t in s3.effects && s3.effects[t].kind.CutoverEffect? && s3.effects[t].kind.cutoverToken == c;
    EffectParts(s, t);
    LeasesStay(s, keyId, keep, t);
    assert ReferencedBy(s, s.effects[t], s.cutovers[c].fence.source);
    assert ReferencedBy(s, s.effects[t], s.cutovers[c].fence.target);
  }

  lemma CutoverSwept(s: State, keyId: string, keep: Retained, c: Token)
    requires Inv(s) && CutoverKeysAgree(s) && c in s.cutovers && s.cutovers[c].state.CommittedCutover?
    requires s.cutovers[c].fence.source in s.gens && s.cutovers[c].fence.target in s.gens
    ensures var s5 := Compacted(s, keyId, keep);
            c in s5.cutovers && !(s.cutovers[c].fence.source in s5.gens && s.cutovers[c].fence.target in s5.gens) <==> CutoverDangles(s, keyId, keep, c)
  {
    hide Inv, AfterLeases, Compacted, LeaseStays, CutoverReferenced, GenerationReferenced, ReferencedBy;
    CutoverPass(s, keyId, keep, c);
    GenerationsStay(s, keyId, keep, s.cutovers[c].fence.source);
    GenerationsStay(s, keyId, keep, s.cutovers[c].fence.target);
    LaterPasses(s, keyId, keep);
    if CutoverReferenced(AfterLeases(s, keyId, keep), c) { ReferencedCutover(s, keyId, keep, c); }
  }

  lemma CutoverGenerationsIff(s: State, keyId: string, keep: Retained)
    requires Inv(s) && GenerationsPresent(s) && CutoverKeysAgree(s)
    ensures GenerationsPresent(Compacted(s, keyId, keep)) <==> forall c | c in keep.cutovers :: !CutoverDangles(s, keyId, keep, c)
  {
    hide Inv, Compacted, GenerationStays, AfterLeases, CutoverReferenced;
    var s5 := Compacted(s, keyId, keep);
    forall c | c in s.cutovers && s.cutovers[c].state.CommittedCutover?
      ensures c in s5.cutovers && !(s.cutovers[c].fence.source in s5.gens && s.cutovers[c].fence.target in s5.gens) <==> CutoverDangles(s, keyId, keep, c)
    {
      CutoverSwept(s, keyId, keep, c);
    }
    forall c | c in s5.cutovers ensures c in s.cutovers && s5.cutovers[c] == s.cutovers[c] { CutoverPass(s, keyId, keep, c); }
    forall c | c in keep.cutovers && CutoverDangles(s, keyId, keep, c) ensures c in s5.cutovers {}
  }

  // -------------------------------------------------------------- the theorems

  /** The validator that follows compaction accepts exactly when no retained
      lease and no retained cutover is left with a dangling reference; and then
      the whole invariant holds. */
  lemma CompactionValidIff(s: State, keyId: string, keep: Retained)
    requires Inv(s) && ValidText(keyId)
    ensures Valid(Compacted(s, keyId, keep)) <==> NothingDangles(s, keyId, keep)
    ensures Valid(Compacted(s, keyId, keep)) ==> Inv(Compacted(s, keyId, keep))
  {
    hide Inv, Valid, Loose, Compacted, AfterPresigns, AfterLeases, AfterCutovers, PresignsPresent, GenerationsPresent, CutoverKeysAgree, ValidText,
         LeaseDangles, CutoverDangles;
    InvIsLoose(s);
    LooseKeysAgree(s);
    PassesLoose(s, keyId, keep);
    PresignsPresentIff(s, keyId, keep);
    CutoverGenerationsIff(s, keyId, keep);
    LooseTight(Compacted(s, keyId, keep));
  }

  /** Retaining nothing, compaction is never refused and keeps the invariant. */
  lemma CompactionRetainNone(s: State, keyId: string)
    requires Inv(s) && ValidText(keyId)
    ensures Inv(Compacted(s, keyId, RetainNone))
  {
    hide Inv, Valid, ValidText, Compacted;
    CompactionValidIff(s, keyId, RetainNone);
  }
}

/** Each pass of compaction shrinks the state, so the passes together keep the
    loose invariant; the final validator check refuses exactly when the retained
    records leave a reference dangling, and never when nothing is retained. */
module LifecycleCompactionPasses {
  import opened LifecycleRecords
  import opened LifecycleState
  import opened LifecycleInvariant
  import opened LifecycleCompaction
  import opened LifecycleCompactionProof

  /** A tombstone is only written for a live record, which has none yet. */
  lemma FreshTombs(tombs: map<TombKey, Tombstone>, added: set<TombKey>, keyId: string, state: string)
    requires forall x | x in tombs :: x !in added
    ensures Sub(tombs, AddTombs(tombs, added, keyId, state))
    ensures forall x | x in AddTombs(tombs, added, keyId, state) && x !in tombs :: x in added && AddTombs(tombs, added, keyId, state)[x] == Tombstone(keyId, state)
    ensures forall x | x in added :: x in AddTombs(tombs, added, keyId, state) && AddTombs(tombs, added, keyId, state)[x] == Tombstone(keyId, state)
  {
  }

  lemma GrowTombs(s: State, s': State, added: set<TombKey>, keyId: string, state: string)
    requires s'.tombs == AddTombs(s.tombs, added, keyId, state)
    requires forall x | x in s.tombs :: x !in added
    requires forall x | x in added :: NewTombOk(x, Tombstone(keyId, state), s, s')
    ensures TombsGrow(s, s')
  {
    hide NewTombOk;
    FreshTombs(s.tombs, added, keyId, state);
  }

  // ------------------------------------------------------------- attempts pass

  /** Attempts and linked presigns are in one-to-one correspondence. */
  lemma PairFacts(s: State)
    requires PresignsValid(s.presigns, s.attempts, s.gens, s.current)
    requires AttemptsValid(s.attempts, s.presigns, s.leases, s.bySession, s.gens, s.current)
    ensures forall id | id in s.attempts ::
      s.attempts[id].presignId in s.presigns && s.presigns[s.attempts[id].presignId].attemptId == id && s.attempts[id].intent.session in s.bySession && id != ""
    ensures forall id | id in s.presigns && s.presigns[id].attemptId in s.attempts :: s.attempts[s.presigns[id].attemptId].presignId == id
  {
    forall id | id in s.presigns && s.presigns[id].attemptId in s.attempts ensures s.attempts[s.presigns[id].attemptId].presignId == id {
      assert PresignOk(s.presigns[id], id, s.attempts, s.gens, s.current);
      assert AttemptOk(s.attempts[s.presigns[id].attemptId], s.presigns[id].attemptId, s.presigns, s.leases, s.bySession, s.gens, s.current);
    }
    forall id | id in s.attempts
      ensures AttemptOk(s.attempts[id], id, s.presigns, s.leases, s.bySession, s.gens, s.current)
    {
    }
  }

  lemma AttemptPassPairs(s: State, keyId: string, keep: set<string>)
    requires PresignsValid(s.presigns, s.attempts, s.gens, s.current)
    requires AttemptsValid(s.attempts, s.presigns, s.leases, s.bySession, s.gens, s.current)
    ensures PairsShrink(s, CompactAttempts(s, keyId, keep))
    ensures AttemptPresigns(s, GoneAttempts(s, keyId, keep)) <= s.presigns.Keys
  {
    PairFacts(s);
    hide PresignsValid, AttemptsValid, AttemptPresigns;
  }

  lemma GonePresignTombs(s: State, gone: set<string>, presigns: map<string, Presign>)
    requires PresignsValid(s.presigns, s.attempts, s.gens, s.current) && gone <= s.presigns.Keys && presigns == s.presigns - gone
    requires TombsStrong(s.tombs, s.gens, s.bySession, s.presigns, s.attempts, s.cutovers, s.nextCutover)
    ensures forall x | x in s.tombs :: x !in PresignTombs(s, gone)
    ensures forall x | x in PresignTombs(s, gone) ::
      && (x.PresignTomb? || x.ArtifactTomb?)
      && (x.PresignTomb? ==> x.presignId !in presigns)
      && (x.ArtifactTomb? ==> forall id | id in presigns :: presigns[id].artifact != x.artifact)
  {
    hide PresignTombs;
    forall x | x in s.tombs ensures x !in PresignTombs(s, gone) {
      assert TombOk(x, s.tombs[x].keyId, s.gens, s.bySession, s.presigns, s.attempts, s.cutovers, s.nextCutover);
    }
  }

  lemma AttemptPassTombs(s: State, keyId: string, keep: set<string>)
    requires PresignsValid(s.presigns, s.attempts, s.gens, s.current) && ValidText(keyId)
    requires TombsStrong(s.tombs, s.gens, s.bySession, s.presigns, s.attempts, s.cutovers, s.nextCutover)
    requires AttemptPresigns(s, GoneAttempts(s, keyId, keep)) <= s.presigns.Keys
    ensures TombsGrow(s, CompactAttempts(s, keyId, keep))
  {
    hide ValidText, PresignTombs, AttemptTombs, AttemptPresigns, PresignsValid, AddTombs;
    var s' := CompactAttempts(s, keyId, keep);
    var gone := GoneAttempts(s, keyId, keep);
    var presigns := AttemptPresigns(s, gone);
    GonePresignTombs(s, presigns, s'.presigns);
    var added := AttemptTombs(gone) + PresignTombs(s, presigns);
    GrowTombs(s, s', added, keyId, TERMINAL_TOMB);
  }

  lemma SameLeases(s: State, s': State)
    requires LooseEffects(s.effects, s.leases, s.presigns, s.cutovers, s.disabled, s.gens)
    requires LeasesValid(s.leases, s.bySession, s.nextLease)
    requires s'.effects == s.effects && s'.leases == s.leases && s'.bySession == s.bySession
    ensures LeasesShrink(s, s') && SessionsEntombed(s, s')
    ensures s'.gens == s.gens && s'.cutovers == s.cutovers ==> EffectsClosed(s, s')
  {
  }

  lemma AttemptPassShrinks(s: State, keyId: string, keep: set<string>)
    requires Loose(s) && ValidText(keyId)
    ensures Shrinks(s, CompactAttempts(s, keyId, keep))
  {
    hide GenerationsValid, LeasesValid, HoldersValid, LooseEffects, DisabledValid, PresignsValid, AttemptsValid, LooseCutovers,
         TombsValid, TombsStrong, NamesUnique, ValidText;
    hide LeasesShrink, PairsShrink, TombsGrow, EffectsClosed, SessionsEntombed;
    AttemptPassPairs(s, keyId, keep);
    AttemptPassTombs(s, keyId, keep);
    SameLeases(s, CompactAttempts(s, keyId, keep));
  }

  // ------------------------------------------------------------- presigns pass

  lemma PresignPassShrinks(s: State, keyId: string, keep: set<string>)
    requires Loose(s) && ValidText(keyId)
    ensures Shrinks(s, CompactPresigns(s, keyId, keep))
  {
    hide GenerationsValid, LeasesValid, HoldersValid, LooseEffects, DisabledValid, PresignsValid, AttemptsValid, LooseCutovers,
         TombsValid, TombsStrong, NamesUnique, ValidText;
    hide LeasesShrink, TombsGrow, EffectsClosed, SessionsEntombed;
    var s' := CompactPresigns(s, keyId, keep);
    PairFacts(s);
    SameLeases(s, s');
    PresignPassTombs(s, keyId, keep);
  }

  lemma PresignPassTombs(s: State, keyId: string, keep: set<string>)
    requires PresignsValid(s.presigns, s.attempts, s.gens, s.current) && ValidText(keyId)
    requires TombsStrong(s.tombs, s.gens, s.bySession, s.presigns, s.attempts, s.cutovers, s.nextCutover)
    ensures TombsGrow(s, CompactPresigns(s, keyId, keep))
  {
    hide ValidText, PresignTombs, PresignsValid, AddTombs;
    var s' := CompactPresigns(s, keyId, keep);
    var gone := GonePresigns(s, keyId, keep);
    GonePresignTombs(s, gone, s'.presigns);
    GrowTombs(s, s', PresignTombs(s, gone), keyId, TERMINAL_TOMB);
  }

  // --------------------------------------------------------------- leases pass

  lemma LeasePassAnchors(s: State, keyId: string, keep: set<Token>)
    requires HoldersValid(s.leases, s.anchors, s.gens, s.current, s.attempts, s.cutoverByKey, s.tombs)
    ensures CompactLeases(s, keyId, keep).anchors == s.anchors
  {
    hide LeaseReferenced, PresignHeld, ReceiverOk, HolderOk, ExclusiveAlone, LeaseSessions, AddTombs;
  }

  lemma LeasePassLeases(s: State, keyId: string, keep: set<Token>)
    requires LooseEffects(s.effects, s.leases, s.presigns, s.cutovers, s.disabled, s.gens)
    requires LeasesValid(s.leases, s.bySession, s.nextLease)
    ensures LeasesShrink(s, CompactLeases(s, keyId, keep))
  {
    hide LeaseSessions, LeaseReferenced, PresignHeld, AddTombs, EffectOk, ValidText, ValidLease;
    var s' := CompactLeases(s, keyId, keep);
    forall i | i in s.bySession ensures i in s'.bySession <==> s.bySession[i] in s'.leases {
      assert LeaseOk(s.leases[s.bySession[i]], s.bySession[i], s.bySession, s.nextLease);
    }
  }

  lemma LeasePassPairs(s: State, keyId: string, keep: set<Token>)
    requires PresignsValid(s.presigns, s.attempts, s.gens, s.current)
    requires AttemptsValid(s.attempts, s.presigns, s.leases, s.bySession, s.gens, s.current)
    ensures PairsShrink(s, CompactLeases(s, keyId, keep))
  {
    hide LeaseSessions, PresignsValid, AttemptsValid;
    PairFacts(s);
  }

  lemma LeasePassClosed(s: State, keyId: string, keep: set<Token>)
    requires LooseEffects(s.effects, s.leases, s.presigns, s.cutovers, s.disabled, s.gens)
    ensures EffectsClosed(s, CompactLeases(s, keyId, keep))
  {
    hide LeaseSessions;
  }

  lemma LeasePassTombs(s: State, keyId: string, keep: set<Token>)
    requires LeasesValid(s.leases, s.bySession, s.nextLease) && ValidText(keyId)
    requires TombsStrong(s.tombs, s.gens, s.bySession, s.presigns, s.attempts, s.cutovers, s.nextCutover)
    ensures TombsGrow(s, CompactLeases(s, keyId, keep)) && SessionsEntombed(s, CompactLeases(s, keyId, keep))
  {
    hide ValidText, LeaseSessions, SessionTombs, AddTombs;
    var s' := CompactLeases(s, keyId, keep);
    var gone := GoneLeases(s, keyId, keep);
    var added := SessionTombs(LeaseSessions(s, gone));
    forall x | x in s.tombs ensures x !in added {
      assert TombOk(x, s.tombs[x].keyId, s.gens, s.bySession, s.presigns, s.attempts, s.cutovers, s.nextCutover);
    }
    GrowTombs(s, s', added, keyId, TERMINAL_TOMB);
    FreshTombs(s.tombs, added, keyId, TERMINAL_TOMB);
  }

  lemma LeasePassShrinks(s: State, keyId: string, keep: set<Token>)
    requires Loose(s) && ValidText(keyId)
    ensures Shrinks(s, CompactLeases(s, keyId, keep))
  {
    hide GenerationsValid, LeasesValid, HoldersValid, LooseEffects, DisabledValid, PresignsValid, AttemptsValid, LooseCutovers,
         TombsValid, TombsStrong, NamesUnique, ValidText;
    hide LeasesShrink, PairsShrink, TombsGrow, EffectsClosed, SessionsEntombed;
    LeasePassLeases(s, keyId, keep);
    LeasePassAnchors(s, keyId, keep);
    LeasePassPairs(s, keyId, keep);
    LeasePassClosed(s, keyId, keep);
    LeasePassTombs(s, keyId, keep);
  }

  // ------------------------------------------------------------- cutovers pass

  lemma SamePairs(s: State, s': State)
    requires PresignsValid(s.presigns, s.attempts, s.gens, s.current)
    requires AttemptsValid(s.attempts, s.presigns, s.leases, s.bySession, s.gens, s.current)
    requires s'.presigns == s.presigns && s'.attempts == s.attempts && s'.bySession == s.bySession
    ensures PairsShrink(s, s')
  {
    hide PresignsValid, AttemptsValid;
    PairFacts(s);
  }

  lemma CutoverPassClosed(s: State, keyId: string, keep: set<Token>)
    requires LooseEffects(s.effects, s.leases, s.presigns, s.cutovers, s.disabled, s.gens)
    ensures EffectsClosed(s, CompactCutovers(s, keyId, keep))
  {
  }

  lemma CutoverPassTombs(s: State, keyId: string, keep: set<Token>)
    requires LooseCutovers(s.cutovers, s.cutoverByKey, s.nextCutover, s.gens, s.current, s.leases, s.attempts) && ValidText(keyId)
    requires TombsStrong(s.tombs, s.gens, s.bySession, s.presigns, s.attempts, s.cutovers, s.nextCutover)
    ensures TombsGrow(s, CompactCutovers(s, keyId, keep))
  {
    hide ValidText, CutoverTombs, AddTombs;
    var s' := CompactCutovers(s, keyId, keep);
    var added := CutoverTombs(GoneCutovers(s, keyId, keep));
    forall x | x in s.tombs ensures x !in added {
      assert TombOk(x, s.tombs[x].keyId, s.gens, s.bySession, s.presigns, s.attempts, s.cutovers, s.nextCutover);
    }
    GrowTombs(s, s', added, keyId, TERMINAL_TOMB);
  }

  lemma CutoverPassShrinks(s: State, keyId: string, keep: set<Token>)
    requires Loose(s) && ValidText(keyId)
    ensures Shrinks(s, CompactCutovers(s, keyId, keep))
  {
    hide GenerationsValid, LeasesValid, HoldersValid, LooseEffects, DisabledValid, PresignsValid, AttemptsValid, LooseCutovers,
         TombsValid, TombsStrong, NamesUnique, ValidText;
    hide LeasesShrink, PairsShrink, TombsGrow, EffectsClosed, SessionsEntombed;
    SameLeases(s, CompactCutovers(s, keyId, keep));
    SamePairs(s, CompactCutovers(s, keyId, keep));
    CutoverPassClosed(s, keyId, keep);
    CutoverPassTombs(s, keyId, keep);
  }

  // ---------------------------------------------------------- generations pass

  lemma GenerationPassClosed(s: State, keyId: string, keep: set<Binding>)
    requires LooseEffects(s.effects, s.leases, s.presigns, s.cutovers, s.disabled, s.gens)
    ensures EffectsClosed(s, CompactGenerations(s, keyId, keep))
  {
    var s' := CompactGenerations(s, keyId, keep);
    forall t | t in s'.effects && t in s'.leases ensures EffectClosed(s'.effects[t], s'.leases[t], s') {
      assert forall b | ReferencedBy(s, s.effects[t], b) :: GenerationReferenced(s, b);
    }
  }

  lemma GenerationPassTombs(s: State, keyId: string, keep: set<Binding>)
    requires NamesUnique(s.gens) && ValidText(keyId)
    requires TombsStrong(s.tombs, s.gens, s.bySession, s.presigns, s.attempts, s.cutovers, s.nextCutover)
    ensures TombsGrow(s, CompactGenerations(s, keyId, keep))
  {
    hide ValidText, GenerationTombs, AddTombs, GenerationReferenced;
    var s' := CompactGenerations(s, keyId, keep);
    var gone := GoneGenerations(s, keyId, keep);
    var added := GenerationTombs(gone);
    forall x | x in s.tombs ensures x !in added {
      assert TombOk(x, s.tombs[x].keyId, s.gens, s.bySession, s.presigns, s.attempts, s.cutovers, s.nextCutover);
    }
    FreshTombs(s.tombs, added, keyId, RETIRED_TOMB);
    GrowTombs(s, s', added, keyId, RETIRED_TOMB);
  }

  lemma GenerationPassShrinks(s: State, keyId: string, keep: set<Binding>)
    requires Loose(s) && ValidText(keyId)
    ensures Shrinks(s, CompactGenerations(s, keyId, keep))
  {
    hide GenerationsValid, LeasesValid, HoldersValid, LooseEffects, DisabledValid, PresignsValid, AttemptsValid, LooseCutovers,
         TombsValid, TombsStrong, NamesUnique, ValidText;
    hide LeasesShrink, PairsShrink, TombsGrow, EffectsClosed, SessionsEntombed;
    SameLeases(s, CompactGenerations(s, keyId, keep));
    SamePairs(s, CompactGenerations(s, keyId, keep));
    GenerationPassClosed(s, keyId, keep);
    GenerationPassTombs(s, keyId, keep);
  }
}

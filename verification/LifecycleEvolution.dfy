/** Every event moves every record forward, and whole runs do too. */
module LifecycleEvolution {
  import opened LifecycleRecords
  import opened LifecycleState
  import opened LifecycleOps
  import opened LifecycleInvariant
  import opened LifecycleInductive
  import opened LifecycleCompaction
  import opened LifecycleCompactionTheorem
  import opened LifecycleRuns

  // ------------------------------------------------------- one kind of record

  lemma Untouched(s: State, s': State)
    ensures s'.gens == s.gens ==> GensEvolve(s.gens, s'.gens, s'.tombs)
    ensures s'.leases == s.leases ==> LeasesEvolve(s.leases, s.nextLease, s'.leases, s'.tombs)
    ensures s'.presigns == s.presigns ==> PresignsEvolve(s.presigns, s'.presigns, s'.tombs)
    ensures s'.attempts == s.attempts ==> AttemptsEvolve(s.attempts, s'.attempts, s'.tombs)
  {
  }

  lemma GenerationAdded(gens: map<Binding, Generation>, g: Generation, tombs: map<TombKey, Tombstone>)
    requires g.binding !in gens
    ensures GensEvolve(gens, gens[g.binding := g], tombs)
  {
  }

  lemma GenerationRetired(gens: map<Binding, Generation>, b: Binding, g: Generation, tombs: map<TombKey, Tombstone>)
    requires b in gens && gens[b].status.CurrentGeneration? && g.status.RetiredGeneration?
    ensures GensEvolve(gens, gens[b := g], tombs)
  {
  }

  lemma GenerationReplaced(gens: map<Binding, Generation>, b: Binding, g: Generation, h: Generation, tombs: map<TombKey, Tombstone>)
    requires b in gens && gens[b].status.CurrentGeneration? && g.status.RetiredGeneration? && h.binding !in gens
    ensures GensEvolve(gens, gens[b := g][h.binding := h], tombs)
  {
  }

  lemma LeaseAdded(s: State, l: Lease, tombs: map<TombKey, Tombstone>)
    requires Inv(s) && l.token == s.nextLease + 1
    ensures LeasesEvolve(s.leases, s.nextLease, s.leases[l.token := l], tombs)
  {
    hide Inv;
    if l.token in s.leases { LeaseFact(s, l.token); }
  }

  lemma LeaseEnded(s: State, t: Token, state: LeaseState, tombs: map<TombKey, Tombstone>)
    requires t in s.leases && s.leases[t].state.Active?
    ensures LeasesEvolve(s.leases, s.nextLease, EndLease(s, t, state).leases, tombs)
  {
  }

  lemma PresignPut(presigns: map<string, Presign>, id: string, p: Presign, tombs: map<TombKey, Tombstone>)
    requires id in presigns ==> PresignMoves(presigns[id], p)
    ensures PresignsEvolve(presigns, presigns[id := p], tombs)
  {
  }

  lemma PresignsBurned(s: State, keyId: string, epochId: EpochId, reason: string, tombs: map<TombKey, Tombstone>)
    ensures PresignsEvolve(s.presigns, BurnEpochPresigns(s.presigns, s.attempts, keyId, epochId, reason), tombs)
  {
  }

  lemma AttemptPut(attempts: map<string, Attempt>, id: string, a: Attempt, tombs: map<TombKey, Tombstone>)
    requires id in attempts ==> AttemptMoves(attempts[id], a)
    ensures AttemptsEvolve(attempts, attempts[id := a], tombs)
  {
  }

  // -------------------------------------------------------------- client steps

  lemma InstallInitialEvolves(s: State, binding: Binding, blob: Bytes, metadata: Bytes)
    ensures Evolves(s, InstallInitialGeneration(s, binding, blob, metadata).state)
  {
    hide GensEvolve, LeasesEvolve, PresignsEvolve, AttemptsEvolve, ValidBinding, HasActiveLeaseForKey;
    var r := InstallInitialGeneration(s, binding, blob, metadata);
    Untouched(s, r.state);
    if r.state != s { GenerationAdded(s.gens, r.result.value.generation, s.tombs); }
  }

  lemma AcquireEvolves(s: State, binding: Binding, kind: RunKind, session: SessionId)
    requires Inv(s)
    ensures Evolves(s, AcquireRunLease(s, binding, kind, session).state)
  {
    hide GensEvolve, LeasesEvolve, PresignsEvolve, AttemptsEvolve, Inv, ValidBinding, HasIncompatibleLease, HasActiveLeaseForKey, HasGenerationForKey,
         IsCurrent;
    var r := AcquireRunLease(s, binding, kind, session);
    Untouched(s, r.state);
    if r.state != s { LeaseAdded(s, r.result.value.lease, s.tombs); }
  }

  lemma AcquireReceiverEvolves(s: State, anchor: ReceiverAnchor)
    requires Inv(s)
    ensures Evolves(s, AcquireReshareReceiverLease(s, anchor).state)
  {
    hide GensEvolve, LeasesEvolve, PresignsEvolve, AttemptsEvolve, Inv, ValidAnchor, HasActiveLeaseForKey, HasKeyGeneration,
         HasNonTerminalAttemptForKey;
    var r := AcquireReshareReceiverLease(s, anchor);
    Untouched(s, r.state);
    if r.state != s { LeaseAdded(s, r.result.value.lease, s.tombs); }
  }

  lemma FinishEvolves(s: State, lease: Lease, outcome: LeaseOutcome)
    ensures Evolves(s, FinishRunLease(s, lease, outcome).state)
  {
    hide GensEvolve, LeasesEvolve, PresignsEvolve, AttemptsEvolve, ValidLease;
    var r := FinishRunLease(s, lease, outcome);
    Untouched(s, r.state);
    if r.state != s { LeaseEnded(s, lease.token, r.state.leases[lease.token].state, s.tombs); }
  }

  lemma RefreshFailedEvolves(s: State, lease: Lease, reason: string)
    ensures Evolves(s, MarkProtocolRefreshFailed(s, lease, reason).state)
  {
    hide GensEvolve, LeasesEvolve, PresignsEvolve, AttemptsEvolve, ValidLease, ValidText;
    var r := MarkProtocolRefreshFailed(s, lease, reason);
    Untouched(s, r.state);
    if r.state != s { LeaseEnded(s, lease.token, Aborted, s.tombs); }
  }

  lemma CommitPresignEvolves(s: State, lease: Lease, presignId: string, blob: Bytes, metadata: Bytes)
    ensures Evolves(s, CommitAvailablePresign(s, lease, presignId, blob, metadata).state)
  {
    hide GensEvolve, LeasesEvolve, PresignsEvolve, AttemptsEvolve, ValidLease, ValidPresignInput, IsCurrent,
         HasConflictingArtifact;
    var r := CommitAvailablePresign(s, lease, presignId, blob, metadata);
    Untouched(s, r.state);
    if r.state != s {
      PresignPut(s.presigns, presignId, r.state.presigns[presignId], s.tombs);
      LeaseEnded(s, lease.token, Completed, s.tombs);
    }
  }

  lemma BurnPresignEvolves(s: State, binding: Binding, presignId: string, reason: string)
    ensures Evolves(s, BurnPresign(s, binding, presignId, reason).state)
  {
    hide GensEvolve, LeasesEvolve, PresignsEvolve, AttemptsEvolve, ValidBinding, ValidText;
    var r := BurnPresign(s, binding, presignId, reason);
    Untouched(s, r.state);
    if r.state != s { PresignPut(s.presigns, presignId, r.state.presigns[presignId], s.tombs); }
  }

  lemma CommitAttemptEvolves(s: State, binding: Binding, presignId: string, intent: Intent, outbox: Bytes)
    ensures Evolves(s, CommitSignAttempt(s, binding, presignId, intent, outbox).state)
  {
    hide GensEvolve, LeasesEvolve, PresignsEvolve, AttemptsEvolve, ValidBinding, ValidText, ValidIntent, IsCurrent,
         HasActiveSignLease;
    var r := CommitSignAttempt(s, binding, presignId, intent, outbox);
    Untouched(s, r.state);
    if r.state != s {
      PresignPut(s.presigns, presignId, r.state.presigns[presignId], s.tombs);
      AttemptPut(s.attempts, intent.attemptId, r.state.attempts[intent.attemptId], s.tombs);
    }
  }

  lemma ProgressEvolves(s: State, query: AttemptQuery, value: Bytes, kind: ProgressKind)
    requires Inv(s)
    ensures Evolves(s, RecordAttemptProgress(s, query, value, kind).state)
  {
    hide GensEvolve, LeasesEvolve, PresignsEvolve, AttemptsEvolve, Inv, ValidQuery, ValidText;
    var r := RecordAttemptProgress(s, query, value, kind);
    Untouched(s, r.state);
    if r.state != s {
      AttemptFact(s, query.attemptId);
      AttemptPut(s.attempts, query.attemptId, r.state.attempts[query.attemptId], s.tombs);
    }
  }

  lemma AbortAttemptEvolves(s: State, query: AttemptQuery, reason: string)
    requires Inv(s)
    ensures Evolves(s, AbortAttempt(s, query, reason).state)
  {
    hide GensEvolve, LeasesEvolve, PresignsEvolve, AttemptsEvolve, Inv, ValidQuery, ValidText;
    var r := AbortAttempt(s, query, reason);
    Untouched(s, r.state);
    if r.state != s {
      var pid := s.attempts[query.attemptId].presignId;
      AttemptFact(s, query.attemptId);
      AttemptPut(s.attempts, query.attemptId, r.state.attempts[query.attemptId], s.tombs);
      PresignPut(s.presigns, pid, r.state.presigns[pid], s.tombs);
    }
  }

  lemma BeginCutoverEvolves(s: State, source: Binding, target: Binding)
    ensures Evolves(s, BeginCutover(s, source, target).state)
  {
    hide GensEvolve, LeasesEvolve, PresignsEvolve, AttemptsEvolve, ValidCutoverBindings, HasKeyGeneration, HasActiveLease,
         HasNonTerminalAttempt, IsCurrent;
    var r := BeginCutover(s, source, target);
    Untouched(s, r.state);
  }

  lemma CutoverFromLeaseEvolves(s: State, lease: Lease, target: Binding)
    ensures Evolves(s, BeginCutoverFromLease(s, lease, target).state)
  {
    hide GensEvolve, LeasesEvolve, PresignsEvolve, AttemptsEvolve, ValidLease, ValidCutoverBindings, HasKeyGeneration,
         HasOtherActiveLease, HasNonTerminalAttempt, IsCurrent;
    var r := BeginCutoverFromLease(s, lease, target);
    Untouched(s, r.state);
    if r.state != s { LeaseEnded(s, lease.token, Completed, s.tombs); }
  }

  lemma PutCutoverEvolves(s: State, t: Token, c: Cutover)
    ensures Evolves(s, PutCutover(s, t, c))
  {
    hide GensEvolve, LeasesEvolve, PresignsEvolve, AttemptsEvolve;
    Untouched(s, PutCutover(s, t, c));
  }

  lemma AbortCutoverEvolves(s: State, fence: Fence, reason: string)
    ensures Evolves(s, AbortCutover(s, fence, reason).state)
  {
    hide Evolves, ValidFence, ValidText, PutCutover;
    EvolvesRefl(s);
    if fence.token in s.cutovers {
      PutCutoverEvolves(s, fence.token, s.cutovers[fence.token].(state := AbortedCutover, reason := reason));
    }
  }

  lemma CommitChildEvolves(s: State, lease: Lease, child: Binding, blob: Bytes, metadata: Bytes)
    ensures Evolves(s, CommitChildGeneration(s, lease, child, blob, metadata).state)
  {
    hide GensEvolve, LeasesEvolve, PresignsEvolve, AttemptsEvolve, ValidLease, ValidBinding, HasActiveLeaseForKey,
         HasKeyGeneration, IsCurrent;
    var r := CommitChildGeneration(s, lease, child, blob, metadata);
    Untouched(s, r.state);
    if r.state != s {
      GenerationAdded(s.gens, r.result.value.generation, s.tombs);
      LeaseEnded(s, lease.token, Completed, s.tombs);
    }
  }

  lemma CommitReshareEvolves(s: State, lease: Lease, target: Binding, blob: Bytes, metadata: Bytes)
    ensures Evolves(s, CommitReshareGeneration(s, lease, target, blob, metadata).state)
  {
    hide GensEvolve, LeasesEvolve, PresignsEvolve, AttemptsEvolve, ValidLease, ValidBinding, HasOtherActiveLeaseForKey,
         HasNonTerminalAttemptForKey;
    var r := CommitReshareGeneration(s, lease, target, blob, metadata);
    Untouched(s, r.state);
    if r.state != s {
      GenerationAdded(s.gens, r.result.value.generation, s.tombs);
      LeaseEnded(s, lease.token, Completed, s.tombs);
    }
  }

  lemma RetirementEvolves(s: State, lease: Lease, target: Binding)
    ensures Evolves(s, CommitRetirementFromLease(s, lease, target).state)
  {
    hide GensEvolve, LeasesEvolve, PresignsEvolve, AttemptsEvolve, ValidLease, ValidCutoverBindings, HasOtherActiveLease, HasNonTerminalAttempt,
         HasKeyGeneration, BurnEpochPresigns;
    var r := CommitRetirementFromLease(s, lease, target);
    Untouched(s, r.state);
    if r.state != s {
      PresignsBurned(s, lease.binding.keyId, lease.binding.epochId, CUTOVER_REASON, s.tombs);
      GenerationRetired(s.gens, lease.binding, r.state.gens[lease.binding], s.tombs);
      LeaseEnded(s, lease.token, Completed, s.tombs);
    }
  }

  lemma CommitCutoverEvolves(s: State, fence: Fence, blob: Bytes, metadata: Bytes)
    ensures Evolves(s, CommitCutover(s, fence, blob, metadata).state)
  {
    hide GensEvolve, LeasesEvolve, PresignsEvolve, AttemptsEvolve, ValidFence, HasActiveLease, HasNonTerminalAttempt, BurnEpochPresigns;
    var r := CommitCutover(s, fence, blob, metadata);
    Untouched(s, r.state);
    if r.state != s {
      var retired := s.gens[fence.source].(status := RetiredGeneration, blob := [], metadata := []);
      PresignsBurned(s, fence.source.keyId, fence.source.epochId, CUTOVER_REASON, s.tombs);
      GenerationReplaced(s.gens, fence.source, retired, r.result.value.generation, s.tombs);
    }
  }

  lemma StepEvolves(s: State, op: Op)
    requires Inv(s)
    ensures Evolves(s, Apply(s, op).state)
  {
    hide Inv, Evolves, InstallInitialGeneration, AcquireRunLease, AcquireReshareReceiverLease, FinishRunLease,
         MarkProtocolRefreshFailed, CommitAvailablePresign, CommitSignAttempt, RecordAttemptProgress, AbortAttempt, BurnPresign,
         BeginCutover, BeginCutoverFromLease, CommitRetirementFromLease, CommitCutover, AbortCutover, CommitChildGeneration,
         CommitReshareGeneration;
    match op
    case OpInstallInitial(binding, blob, metadata) => InstallInitialEvolves(s, binding, blob, metadata);
    case OpLoadCurrent(keyId) => EvolvesRefl(s);
    case OpAcquireLease(binding, kind, session) => AcquireEvolves(s, binding, kind, session);
    case OpAcquireReceiver(anchor) => AcquireReceiverEvolves(s, anchor);
    case OpQueryLease(binding, kind, session) => EvolvesRefl(s);
    case OpFinishLease(lease, outcome) => FinishEvolves(s, lease, outcome);
    case OpRefreshFailed(lease, reason) => RefreshFailedEvolves(s, lease, reason);
    case OpCommitPresign(lease, presignId, blob, metadata) => CommitPresignEvolves(s, lease, presignId, blob, metadata);
    case OpPrepareCandidate(binding, presignId) => EvolvesRefl(s);
    case OpCommitAttempt(binding, presignId, intent, outbox) => CommitAttemptEvolves(s, binding, presignId, intent, outbox);
    case OpQueryAttempt(query) => EvolvesRefl(s);
    case OpProgress(query, value, progress) => ProgressEvolves(s, query, value, progress);
    case OpAbortAttempt(query, reason) => AbortAttemptEvolves(s, query, reason);
    case OpBurnPresign(binding, presignId, reason) => BurnPresignEvolves(s, binding, presignId, reason);
    case OpBeginCutover(source, target) => BeginCutoverEvolves(s, source, target);
    case OpCutoverFromLease(lease, target) => CutoverFromLeaseEvolves(s, lease, target);
    case OpRetirement(lease, target) => RetirementEvolves(s, lease, target);
    case OpCommitCutover(fence, blob, metadata) => CommitCutoverEvolves(s, fence, blob, metadata);
    case OpAbortCutover(fence, reason) => AbortCutoverEvolves(s, fence, reason);
    case OpCommitChild(lease, target, blob, metadata) => CommitChildEvolves(s, lease, target, blob, metadata);
    case OpCommitReshare(lease, target, blob, metadata) => CommitReshareEvolves(s, lease, target, blob, metadata);
  }

  // ---------------------------------------------------------------- compaction

  lemma TombsAdded(tombs: map<TombKey, Tombstone>, added: set<TombKey>, keyId: string, state: string)
    ensures forall x | x in tombs || x in added :: x in AddTombs(tombs, added, keyId, state)
  {
  }

  lemma AttemptPassPresigns(s: State, keyId: string, keep: set<string>)
    ensures PresignsEvolve(s.presigns, CompactAttempts(s, keyId, keep).presigns, CompactAttempts(s, keyId, keep).tombs)
  {
    hide AddTombs, AttemptTombs, PresignTombs, AttemptPresigns, AttemptGone;
    var gone := GoneAttempts(s, keyId, keep);
    TombsAdded(s.tombs, AttemptTombs(gone) + PresignTombs(s, AttemptPresigns(s, gone)), keyId, TERMINAL_TOMB);
  }

  lemma AttemptPassAttempts(s: State, keyId: string, keep: set<string>)
    ensures AttemptsEvolve(s.attempts, CompactAttempts(s, keyId, keep).attempts, CompactAttempts(s, keyId, keep).tombs)
  {
    hide AddTombs, AttemptTombs, PresignTombs, AttemptPresigns, AttemptGone;
    var gone := GoneAttempts(s, keyId, keep);
    TombsAdded(s.tombs, AttemptTombs(gone) + PresignTombs(s, AttemptPresigns(s, gone)), keyId, TERMINAL_TOMB);
  }

  lemma AttemptPassEvolves(s: State, keyId: string, keep: set<string>)
    ensures Evolves(s, CompactAttempts(s, keyId, keep))
  {
    hide AddTombs, AttemptTombs, PresignTombs, AttemptPresigns, LeasesEvolve, GensEvolve, PresignsEvolve, AttemptsEvolve;
    var gone := GoneAttempts(s, keyId, keep);
    Untouched(s, CompactAttempts(s, keyId, keep));
    AttemptPassPresigns(s, keyId, keep);
    AttemptPassAttempts(s, keyId, keep);
    TombsAdded(s.tombs, AttemptTombs(gone) + PresignTombs(s, AttemptPresigns(s, gone)), keyId, TERMINAL_TOMB);
  }

  lemma PresignPassEvolves(s: State, keyId: string, keep: set<string>)
    ensures Evolves(s, CompactPresigns(s, keyId, keep))
  {
    hide AddTombs, PresignTombs, LeasesEvolve, GensEvolve, AttemptsEvolve;
    Untouched(s, CompactPresigns(s, keyId, keep));
    TombsAdded(s.tombs, PresignTombs(s, GonePresigns(s, keyId, keep)), keyId, TERMINAL_TOMB);
  }

  lemma LeasePassEvolves(s: State, keyId: string, keep: set<Token>)
    ensures Evolves(s, CompactLeases(s, keyId, keep))
  {
    hide AddTombs, SessionTombs, LeaseSessions, PresignsEvolve, GensEvolve, AttemptsEvolve, LeaseReferenced, PresignHeld;
    Untouched(s, CompactLeases(s, keyId, keep));
    TombsAdded(s.tombs, SessionTombs(LeaseSessions(s, GoneLeases(s, keyId, keep))), keyId, TERMINAL_TOMB);
  }

  lemma CutoverPassEvolves(s: State, keyId: string, keep: set<Token>)
    ensures Evolves(s, CompactCutovers(s, keyId, keep))
  {
    hide AddTombs, CutoverTombs, PresignsEvolve, GensEvolve, AttemptsEvolve, LeasesEvolve;
    Untouched(s, CompactCutovers(s, keyId, keep));
    TombsAdded(s.tombs, CutoverTombs(GoneCutovers(s, keyId, keep)), keyId, TERMINAL_TOMB);
  }

  lemma GenerationPassEvolves(s: State, keyId: string, keep: set<Binding>)
    ensures Evolves(s, CompactGenerations(s, keyId, keep))
  {
    hide AddTombs, GenerationTombs, PresignsEvolve, AttemptsEvolve, LeasesEvolve, GenerationReferenced;
    Untouched(s, CompactGenerations(s, keyId, keep));
    TombsAdded(s.tombs, GenerationTombs(GoneGenerations(s, keyId, keep)), keyId, RETIRED_TOMB);
  }

  lemma CompactedEvolves(s: State, keyId: string, keep: Retained)
    requires Loose(s) && ValidText(keyId)
    ensures Evolves(s, Compacted(s, keyId, keep))
  {
    hide Loose, ValidText, Evolves, CompactAttempts, CompactPresigns, CompactLeases, CompactCutovers, CompactGenerations;
    var s1, s2, s3, s4 := CompactAttempts(s, keyId, keep.attempts), AfterPresigns(s, keyId, keep), AfterLeases(s, keyId, keep), AfterCutovers(s, keyId, keep);
    PassesLoose(s, keyId, keep);
    AttemptPassEvolves(s, keyId, keep.attempts);
    PresignPassEvolves(s1, keyId, keep.presigns);
    LooseTransitive(s, s1, s2);
    LeasePassEvolves(s2, keyId, keep.leases);
    LooseTransitive(s, s2, s3);
    CutoverPassEvolves(s3, keyId, keep.cutovers);
    LooseTransitive(s, s3, s4);
    GenerationPassEvolves(s4, keyId, keep.gens);
    LooseTransitive(s, s4, Compacted(s, keyId, keep));
  }

  lemma LooseTransitive(s: State, s': State, s'': State)
    requires Loose(s) && Loose(s'') && Evolves(s, s') && Evolves(s', s'')
    ensures Evolves(s, s'')
  {
    hide GensEvolve, LeasesEvolve, PresignsEvolve, AttemptsEvolve, GenerationsValid, LeasesValid, HoldersValid, LooseEffects, DisabledValid,
         PresignsValid, AttemptsValid, LooseCutovers, TombsValid, NamesUnique, EffectsStrong, MetadataKept, DisabledStrong, AttemptsStrong,
         FencesStrong, TombsStrong;
    EntombedAbsent(s'');
    GensTransitive(s, s', s'');
    LeasesTransitive(s, s', s'');
    PresignsTransitive(s, s', s'');
    AttemptsTransitive(s, s', s'');
  }

  // ---------------------------------------------------------------- whole runs

  lemma NextEvolves(s: State, e: Event)
    requires Inv(s)
    ensures Evolves(s, Next(s, e).state)
  {
    hide Inv, Valid, Loose, Evolves, Apply, Compacted;
    EvolvesRefl(s);
    match e
    case Client(op) => StepEvolves(s, op);
    case Compact(keyId, expected, keep) =>
      InvIsLoose(s);
      if ValidText(keyId) { CompactedEvolves(s, keyId, keep); }
  }

  /** From any point of a run to any later point every record has only moved forward. */
  lemma {:induction false} RunEvolves(run: seq<Event>, i: nat, j: nat)
    requires i <= j <= |run|
    ensures Evolves(After(run[..i]), After(run[..j]))
    decreases j
  {
    hide Inv, Evolves, Next;
    if i == j {
      EvolvesRefl(After(run[..i]));
    } else {
      RunEvolves(run, i, j - 1);
      assert run[..j][..j - 1] == run[..j - 1] && run[..j][j - 1] == run[j - 1];
      ReachableInv(run[..i]);
      ReachableInv(run[..j - 1]);
      ReachableInv(run[..j]);
      NextEvolves(After(run[..j - 1]), run[j - 1]);
      EvolvesTransitive(After(run[..i]), After(run[..j - 1]), After(run[..j]));
    }
  }
}

/** Locality of the operations that replace, retire or install generations, and
    of every operation at once. */
module LifecycleLocalityCutovers {
  import opened Options
  import opened LifecycleRecords
  import opened LifecycleState
  import opened LifecycleOps
  import opened LifecycleInvariant
  import opened LifecycleInductive
  import opened LifecycleSlices
  import opened LifecycleSliceChanges
  import opened LifecycleLocality
  import opened LifecycleLocalityArtifacts

  // ----------------------------------------------------------------- cutovers

  lemma BeginAgrees(s: State, source: Binding, target: Binding, keys: set<string>)
    requires Inv(s) && source.keyId in keys && target.keyId in keys
    ensures Agree(BeginCutover(s, source, target), BeginCutover(Restrict(s, keys), source, target), keys, true, true)
  {
    hide Inv, Restrict, GensOf, ByKeyOf, LeasesOf, SessionsOf, EffectsOf, AnchorsOf, PresignsOf, AttemptsOf, CutoversOf, TombsOf;
    hide ValidCutoverBindings, IsCurrent, HasKeyGeneration, HasActiveLease, HasNonTerminalAttempt, RaiseFence;
    RestrictFields(s, keys);
    if source.keyId in s.cutoverByKey {
      FenceFact(s, source.keyId);
    } else {
      CurrentGuards(s, keys, source);
      GenerationGuards(s, keys, target.keyId);
      LeaseGuards(s, keys, source.keyId);
      AttemptGuards(s, keys, source.keyId);
      var fence := Fence(s.nextCutover + 1, source, target);
      FreshFence(s, fence);
      SliceRaiseFence(s, fence, keys);
    }
  }

  lemma BeginFramed(s: State, source: Binding, target: Binding, away: set<string>)
    requires Inv(s) && source.keyId !in away
    ensures Framed(s, BeginCutover(s, source, target), away)
  {
    hide Inv, Restrict, ValidCutoverBindings, IsCurrent, HasKeyGeneration, HasActiveLease, HasNonTerminalAttempt, RaiseFence;
    var fence := Fence(s.nextCutover + 1, source, target);
    FreshFence(s, fence);
    SliceRaiseFence(s, fence, away);
  }

  lemma CutoverRetryAgrees(s: State, lease: Lease, target: Binding, keys: set<string>)
    requires Inv(s) && lease.binding.keyId in keys && target.keyId in keys && lease.token in s.effects
    ensures Agree(BeginCutoverFromLease(s, lease, target), BeginCutoverFromLease(Restrict(s, keys), lease, target), keys, TokenIn(s, lease, keys), true)
  {
    hide Inv, Restrict, GensOf, ByKeyOf, LeasesOf, SessionsOf, EffectsOf, AnchorsOf, PresignsOf, AttemptsOf, CutoversOf, TombsOf;
    hide ValidLease, ValidCutoverBindings, IsCurrent, HasKeyGeneration, HasOtherActiveLease, HasNonTerminalAttempt, FenceFromLease, CutoverKind;
    RestrictFields(s, keys);
    EffectFact(s, lease.token);
  }

  lemma CutoverFreshAgrees(s: State, lease: Lease, target: Binding, keys: set<string>)
    requires Inv(s) && lease.binding.keyId in keys && target.keyId in keys && lease.token !in s.effects
    ensures Agree(BeginCutoverFromLease(s, lease, target), BeginCutoverFromLease(Restrict(s, keys), lease, target), keys, TokenIn(s, lease, keys), true)
  {
    hide Inv, Restrict, GensOf, ByKeyOf, LeasesOf, SessionsOf, EffectsOf, AnchorsOf, PresignsOf, AttemptsOf, CutoversOf, TombsOf;
    hide ValidLease, ValidCutoverBindings, IsCurrent, HasKeyGeneration, HasOtherActiveLease, HasNonTerminalAttempt, FenceFromLease, CutoverKind;
    RestrictFields(s, keys);
    CurrentGuards(s, keys, lease.binding);
    GenerationGuards(s, keys, target.keyId);
    LeaseGuards(s, keys, lease.binding.keyId);
    AttemptGuards(s, keys, lease.binding.keyId);
    if lease.token in s.leases && SameLease(s.leases[lease.token], lease) {
      var fence := Fence(s.nextCutover + 1, lease.binding, target);
      FreshFence(s, fence);
      SliceFenceFromLease(s, lease.token, fence, keys);
    }
  }

  lemma CutoverFramed(s: State, lease: Lease, target: Binding, away: set<string>)
    requires Inv(s) && lease.binding.keyId !in away
    ensures Framed(s, BeginCutoverFromLease(s, lease, target), away)
  {
    hide Inv, Restrict, ValidLease, ValidCutoverBindings, IsCurrent, HasKeyGeneration, HasOtherActiveLease, HasNonTerminalAttempt, CutoverKind, FenceFromLease;
    if lease.token in s.leases && SameLease(s.leases[lease.token], lease) {
      var fence := Fence(s.nextCutover + 1, lease.binding, target);
      FreshFence(s, fence);
      SliceFenceFromLease(s, lease.token, fence, away);
    }
  }

  lemma RetirementRetryAgrees(s: State, lease: Lease, target: Binding, keys: set<string>)
    requires Inv(s) && lease.binding.keyId in keys && target.keyId in keys && lease.token in s.effects
    ensures Agree(CommitRetirementFromLease(s, lease, target), CommitRetirementFromLease(Restrict(s, keys), lease, target), keys, TokenIn(s, lease, keys), true)
  {
    hide Inv, Restrict, GensOf, ByKeyOf, LeasesOf, SessionsOf, EffectsOf, AnchorsOf, PresignsOf, AttemptsOf, CutoversOf, TombsOf;
    hide ValidLease, ValidCutoverBindings, IsCurrent, HasKeyGeneration, HasOtherActiveLease, HasNonTerminalAttempt, RetireFromLease;
    RestrictFields(s, keys);
    EffectFact(s, lease.token);
  }

  lemma RetirementFreshAgrees(s: State, lease: Lease, target: Binding, keys: set<string>)
    requires Inv(s) && lease.binding.keyId in keys && target.keyId in keys && lease.token !in s.effects
    ensures Agree(CommitRetirementFromLease(s, lease, target), CommitRetirementFromLease(Restrict(s, keys), lease, target), keys, TokenIn(s, lease, keys), true)
  {
    hide Inv, Restrict, GensOf, ByKeyOf, LeasesOf, SessionsOf, EffectsOf, AnchorsOf, PresignsOf, AttemptsOf, CutoversOf, TombsOf;
    hide ValidLease, ValidCutoverBindings, HasKeyGeneration, HasOtherActiveLease, HasNonTerminalAttempt, RetireFromLease;
    RestrictFields(s, keys);
    CurrentGuards(s, keys, lease.binding);
    GenerationGuards(s, keys, target.keyId);
    LeaseGuards(s, keys, lease.binding.keyId);
    AttemptGuards(s, keys, lease.binding.keyId);
    LocalAnchor(s, lease.token, keys);
    PresignFacts(s);
    if lease.token in s.leases && SameLease(s.leases[lease.token], lease) && lease.binding in s.gens {
      SliceRetireFromLease(s, lease.token, target, CUTOVER_REASON, keys);
    }
  }

  lemma RetirementFramed(s: State, lease: Lease, target: Binding, away: set<string>)
    requires Inv(s) && lease.binding.keyId !in away
    ensures Framed(s, CommitRetirementFromLease(s, lease, target), away)
  {
    hide Inv, Restrict, ValidLease, ValidCutoverBindings, HasKeyGeneration, HasOtherActiveLease, HasNonTerminalAttempt, PresignsValid, RetireFromLease;
    PresignFacts(s);
    if lease.token in s.leases && SameLease(s.leases[lease.token], lease) && lease.binding in s.gens {
      SliceRetireFromLease(s, lease.token, target, CUTOVER_REASON, away);
    }
  }

  lemma CommitCutoverAgrees(s: State, fence: Fence, blob: Bytes, metadata: Bytes, keys: set<string>)
    requires Inv(s) && fence.source.keyId in keys && fence.target.keyId in keys
    ensures Agree(CommitCutover(s, fence, blob, metadata), CommitCutover(Restrict(s, keys), fence, blob, metadata), keys, true, true)
  {
    hide Inv, Restrict, GensOf, ByKeyOf, LeasesOf, SessionsOf, EffectsOf, AnchorsOf, PresignsOf, AttemptsOf, CutoversOf, TombsOf;
    hide ValidBlob, HasActiveLease, HasNonTerminalAttempt, Replace, PresignsValid;
    RestrictFields(s, keys);
    CurrentGuards(s, keys, fence.source);
    LeaseGuards(s, keys, fence.source.keyId);
    AttemptGuards(s, keys, fence.source.keyId);
    PresignFacts(s);
    if fence.token in s.cutovers && s.cutovers[fence.token].fence == fence && fence.source in s.gens && ValidFence(fence) {
      var committed := s.cutovers[fence.token].(state := CommittedCutover, targetBlob := Some(Sha256(blob)), targetMetadata := Some(Sha256(metadata)));
      SliceReplace(s, committed, Generation(fence.target, blob, metadata, CurrentGeneration), CUTOVER_REASON, keys);
    }
  }

  lemma CommitCutoverFramed(s: State, fence: Fence, blob: Bytes, metadata: Bytes, away: set<string>)
    requires Inv(s) && fence.source.keyId !in away
    ensures Framed(s, CommitCutover(s, fence, blob, metadata), away)
  {
    hide Inv, Restrict, ValidBlob, HasActiveLease, HasNonTerminalAttempt, PresignsValid, Replace;
    PresignFacts(s);
    if fence.token in s.cutovers && s.cutovers[fence.token].fence == fence && fence.source in s.gens && ValidFence(fence) {
      var committed := s.cutovers[fence.token].(state := CommittedCutover, targetBlob := Some(Sha256(blob)), targetMetadata := Some(Sha256(metadata)));
      SliceReplace(s, committed, Generation(fence.target, blob, metadata, CurrentGeneration), CUTOVER_REASON, away);
    }
  }

  lemma AbortCutoverAgrees(s: State, fence: Fence, reason: string, keys: set<string>)
    requires Inv(s) && fence.source.keyId in keys
    ensures Agree(AbortCutover(s, fence, reason), AbortCutover(Restrict(s, keys), fence, reason), keys, true, true)
  {
    hide Inv, Restrict, GensOf, ByKeyOf, LeasesOf, SessionsOf, EffectsOf, AnchorsOf, PresignsOf, AttemptsOf, CutoversOf, TombsOf;
    hide ValidFence, ValidText, PutCutover;
    RestrictFields(s, keys);
    if fence.token in s.cutovers {
      SlicePutCutover(s, fence.token, s.cutovers[fence.token].(state := AbortedCutover, reason := reason), keys);
    }
  }

  lemma AbortCutoverFramed(s: State, fence: Fence, reason: string, away: set<string>)
    requires fence.source.keyId !in away
    ensures Framed(s, AbortCutover(s, fence, reason), away)
  {
    hide Restrict, ValidFence, ValidText, PutCutover;
    if fence.token in s.cutovers {
      SlicePutCutover(s, fence.token, s.cutovers[fence.token].(state := AbortedCutover, reason := reason), away);
    }
  }

  // ------------------------------------------------- installation from a lease

  lemma ChildRetryAgrees(s: State, lease: Lease, child: Binding, blob: Bytes, metadata: Bytes, keys: set<string>)
    requires Inv(s) && lease.binding.keyId in keys && child.keyId in keys && lease.token in s.effects
    ensures Agree(CommitChildGeneration(s, lease, child, blob, metadata), CommitChildGeneration(Restrict(s, keys), lease, child, blob, metadata), keys,
                  TokenIn(s, lease, keys), true)
  {
    hide Inv, Restrict, GensOf, ByKeyOf, LeasesOf, SessionsOf, EffectsOf, AnchorsOf, PresignsOf, AttemptsOf, CutoversOf, TombsOf;
    hide ValidLease, ValidBinding, ValidBlob, IsCurrent, HasKeyGeneration, HasGenerationForKey, HasActiveLeaseForKey, InstallChild, EffectDigest;
    RestrictFields(s, keys);
    EffectFact(s, lease.token);
  }

  lemma ChildFreshAgrees(s: State, lease: Lease, child: Binding, blob: Bytes, metadata: Bytes, keys: set<string>)
    requires Inv(s) && lease.binding.keyId in keys && child.keyId in keys && lease.token !in s.effects
    ensures Agree(CommitChildGeneration(s, lease, child, blob, metadata), CommitChildGeneration(Restrict(s, keys), lease, child, blob, metadata), keys,
                  TokenIn(s, lease, keys), true)
  {
    hide Inv, Restrict, GensOf, ByKeyOf, LeasesOf, SessionsOf, EffectsOf, AnchorsOf, PresignsOf, AttemptsOf, CutoversOf, TombsOf;
    hide ValidLease, ValidBinding, ValidBlob, IsCurrent, HasKeyGeneration, HasGenerationForKey, HasActiveLeaseForKey, InstallChild, EffectDigest;
    RestrictFields(s, keys);
    CurrentGuards(s, keys, lease.binding);
    GenerationGuards(s, keys, child.keyId);
    LeaseGuards(s, keys, child.keyId);
    if lease.token in s.leases && SameLease(s.leases[lease.token], lease) {
      SliceInstallChild(s, lease.token, Generation(child, blob, metadata, CurrentGeneration),
                        EffectDigest(ChildGenerationLabel, child, child.keyId, blob, metadata), keys);
    }
  }

  lemma ChildFramed(s: State, lease: Lease, child: Binding, blob: Bytes, metadata: Bytes, away: set<string>)
    requires lease.binding.keyId !in away && child.keyId !in away
    ensures Framed(s, CommitChildGeneration(s, lease, child, blob, metadata), away)
  {
    hide Restrict, ValidLease, ValidBinding, ValidBlob, IsCurrent, HasKeyGeneration, HasGenerationForKey, HasActiveLeaseForKey, EffectDigest, InstallChild;
    if lease.token in s.leases && SameLease(s.leases[lease.token], lease) {
      SliceInstallChild(s, lease.token, Generation(child, blob, metadata, CurrentGeneration),
                        EffectDigest(ChildGenerationLabel, child, child.keyId, blob, metadata), away);
    }
  }

  lemma ReshareRetryAgrees(s: State, lease: Lease, target: Binding, blob: Bytes, metadata: Bytes, keys: set<string>)
    requires Inv(s) && lease.binding.keyId in keys && target.keyId in keys && lease.token in s.effects
    ensures Agree(CommitReshareGeneration(s, lease, target, blob, metadata), CommitReshareGeneration(Restrict(s, keys), lease, target, blob, metadata), keys,
                  TokenIn(s, lease, keys), true)
  {
    hide Inv, Restrict, GensOf, ByKeyOf, LeasesOf, SessionsOf, EffectsOf, AnchorsOf, PresignsOf, AttemptsOf, CutoversOf, TombsOf;
    hide ValidLease, ValidBinding, ValidBlob, HasKeyGeneration, HasOtherActiveLeaseForKey, HasNonTerminalAttemptForKey, InstallReceived, EffectDigest;
    RestrictFields(s, keys);
    EffectFact(s, lease.token);
    LocalAnchor(s, lease.token, keys);
  }

  lemma ReshareFreshAgrees(s: State, lease: Lease, target: Binding, blob: Bytes, metadata: Bytes, keys: set<string>)
    requires Inv(s) && lease.binding.keyId in keys && target.keyId in keys && lease.token !in s.effects
    ensures Agree(CommitReshareGeneration(s, lease, target, blob, metadata), CommitReshareGeneration(Restrict(s, keys), lease, target, blob, metadata), keys,
                  TokenIn(s, lease, keys), true)
  {
    hide Inv, Restrict, GensOf, ByKeyOf, LeasesOf, SessionsOf, EffectsOf, AnchorsOf, PresignsOf, AttemptsOf, CutoversOf, TombsOf;
    hide ValidLease, ValidBinding, ValidBlob, HasKeyGeneration, HasOtherActiveLeaseForKey, HasNonTerminalAttemptForKey, InstallReceived, EffectDigest;
    RestrictFields(s, keys);
    GenerationGuards(s, keys, target.keyId);
    LeaseGuards(s, keys, target.keyId);
    AttemptGuards(s, keys, target.keyId);
    LocalAnchor(s, lease.token, keys);
    if lease.token in s.leases && SameLease(s.leases[lease.token], lease) && target.keyId == lease.binding.keyId {
      SliceInstallReceived(s, lease.token, Generation(target, blob, metadata, CurrentGeneration),
                           EffectDigest(ReceiverGenerationLabel, target, target.keyId, blob, metadata), keys);
    }
  }

  lemma ReshareFramed(s: State, lease: Lease, target: Binding, blob: Bytes, metadata: Bytes, away: set<string>)
    requires Inv(s) && lease.binding.keyId !in away && target.keyId !in away
    ensures Framed(s, CommitReshareGeneration(s, lease, target, blob, metadata), away)
  {
    hide Inv, Restrict, ValidLease, ValidBinding, ValidBlob, HasKeyGeneration, HasOtherActiveLeaseForKey, HasNonTerminalAttemptForKey, EffectDigest, InstallReceived;
    LocalAnchor(s, lease.token, away);
    if lease.token in s.leases && SameLease(s.leases[lease.token], lease) && target.keyId == lease.binding.keyId {
      SliceInstallReceived(s, lease.token, Generation(target, blob, metadata, CurrentGeneration),
                           EffectDigest(ReceiverGenerationLabel, target, target.keyId, blob, metadata), away);
    }
  }

  // --------------------------------------------------------- every operation

  /** An operation on the lineages it names does to them what it does to them
      within the whole state. The whole store accepts it, for a lease of these
      lineages, exactly when they accept it and no other lineage owns an
      identifier it claims. */
  lemma OpAgrees(s: State, op: Op, keys: set<string>)
    requires Inv(s) && KeysOf(op) <= keys
    ensures Agree(Apply(s, op), Apply(Restrict(s, keys), op), keys, LeaseIn(s, op, keys), ClaimsOwned(s, op, keys))
  {
    hide Inv, Restrict, Agree, OwnedIn, TokenIn;
    hide InstallInitialGeneration, LoadCurrentGeneration, AcquireRunLease, AcquireReshareReceiverLease, QueryRunLease, FinishRunLease,
      MarkProtocolRefreshFailed, CommitAvailablePresign, PreparePresignCandidate, CommitSignAttempt, QueryAttemptOutcome, RecordAttemptProgress,
      AbortAttempt, BurnPresign, BeginCutover, BeginCutoverFromLease, CommitRetirementFromLease, CommitCutover, AbortCutover,
      CommitChildGeneration, CommitReshareGeneration;
    match op
    case OpInstallInitial(binding, blob, metadata) => InstallAgrees(s, binding, blob, metadata, keys);
    case OpLoadCurrent(keyId) => LoadCurrentAgrees(s, keyId, keys);
    case OpAcquireLease(binding, kind, session) =>
      assert SessionTomb(session) in ClaimsOf(op);
      if session in s.bySession { AcquireKnownAgrees(s, binding, kind, session, keys); } else { AcquireFreshAgrees(s, binding, kind, session, keys); }
    case OpAcquireReceiver(anchor) =>
      assert SessionTomb(anchor.session) in ClaimsOf(op);
      if anchor.session in s.bySession { ReceiverKnownAgrees(s, anchor, keys); } else { ReceiverFreshAgrees(s, anchor, keys); }
    case OpQueryLease(binding, kind, session) => QueryLeaseAgrees(s, binding, kind, session, keys);
    case OpFinishLease(lease, outcome) => FinishAgrees(s, lease, outcome, keys);
    case OpRefreshFailed(lease, reason) => RefreshFailedAgrees(s, lease, reason, keys);
    case OpCommitPresign(lease, presignId, blob, metadata) =>
      assert PresignTomb(presignId) in ClaimsOf(op) && ArtifactTomb(Sha256(metadata)) in ClaimsOf(op);
      if lease.token in s.effects { CommitPresignRetryAgrees(s, lease, presignId, blob, metadata, keys); }
      else { CommitPresignFreshAgrees(s, lease, presignId, blob, metadata, keys); }
    case OpPrepareCandidate(binding, presignId) => PrepareAgrees(s, binding, presignId, keys);
    case OpCommitAttempt(binding, presignId, intent, outbox) =>
      assert AttemptTomb(intent.attemptId) in ClaimsOf(op);
      if intent.attemptId in s.attempts { CommitAttemptKnownAgrees(s, binding, presignId, intent, outbox, keys); }
      else { CommitAttemptFreshAgrees(s, binding, presignId, intent, outbox, keys); }
    case OpQueryAttempt(query) => QueryAttemptAgrees(s, query, keys);
    case OpProgress(query, value, kind) => ProgressAgrees(s, query, value, kind, keys);
    case OpAbortAttempt(query, reason) => AbortAgrees(s, query, reason, keys);
    case OpBurnPresign(binding, presignId, reason) => BurnAgrees(s, binding, presignId, reason, keys);
    case OpBeginCutover(source, target) => BeginAgrees(s, source, target, keys);
    case OpCutoverFromLease(lease, target) =>
      if lease.token in s.effects { CutoverRetryAgrees(s, lease, target, keys); } else { CutoverFreshAgrees(s, lease, target, keys); }
    case OpRetirement(lease, target) =>
      if lease.token in s.effects { RetirementRetryAgrees(s, lease, target, keys); } else { RetirementFreshAgrees(s, lease, target, keys); }
    case OpCommitCutover(fence, blob, metadata) => CommitCutoverAgrees(s, fence, blob, metadata, keys);
    case OpAbortCutover(fence, reason) => AbortCutoverAgrees(s, fence, reason, keys);
    case OpCommitChild(lease, child, blob, metadata) =>
      if lease.token in s.effects { ChildRetryAgrees(s, lease, child, blob, metadata, keys); }
      else { ChildFreshAgrees(s, lease, child, blob, metadata, keys); }
    case OpCommitReshare(lease, target, blob, metadata) =>
      if lease.token in s.effects { ReshareRetryAgrees(s, lease, target, blob, metadata, keys); }
      else { ReshareFreshAgrees(s, lease, target, blob, metadata, keys); }
  }

  lemma QueryFramed(s: State, op: Op, away: set<string>)
    requires op.OpLoadCurrent? || op.OpQueryLease? || op.OpPrepareCandidate? || op.OpQueryAttempt?
    ensures Framed(s, Apply(s, op), away)
  {
    hide Slice, ValidText, ValidBinding, ValidQuery, ValidKind, ValidSession, IsCurrent, SameQuery;
  }

  /** No operation touches a lineage it does not name. */
  lemma OpFramed(s: State, op: Op, away: set<string>)
    requires Inv(s) && KeysOf(op) !! away
    ensures Framed(s, Apply(s, op), away)
  {
    hide Inv, Restrict, Framed;
    hide InstallInitialGeneration, LoadCurrentGeneration, AcquireRunLease, AcquireReshareReceiverLease, QueryRunLease, FinishRunLease,
      MarkProtocolRefreshFailed, CommitAvailablePresign, PreparePresignCandidate, CommitSignAttempt, QueryAttemptOutcome, RecordAttemptProgress,
      AbortAttempt, BurnPresign, BeginCutover, BeginCutoverFromLease, CommitRetirementFromLease, CommitCutover, AbortCutover,
      CommitChildGeneration, CommitReshareGeneration;
    match op
    case OpInstallInitial(binding, blob, metadata) => InstallFramed(s, binding, blob, metadata, away);
    case OpAcquireLease(binding, kind, session) => AcquireFramed(s, binding, kind, session, away);
    case OpAcquireReceiver(anchor) => ReceiverFramed(s, anchor, away);
    case OpFinishLease(lease, outcome) => FinishFramed(s, lease, outcome, away);
    case OpRefreshFailed(lease, reason) => RefreshFailedFramed(s, lease, reason, away);
    case OpCommitPresign(lease, presignId, blob, metadata) => CommitPresignFramed(s, lease, presignId, blob, metadata, away);
    case OpCommitAttempt(binding, presignId, intent, outbox) => CommitAttemptFramed(s, binding, presignId, intent, outbox, away);
    case OpProgress(query, value, kind) => ProgressFramed(s, query, value, kind, away);
    case OpAbortAttempt(query, reason) => AbortFramed(s, query, reason, away);
    case OpBurnPresign(binding, presignId, reason) => BurnFramed(s, binding, presignId, reason, away);
    case OpBeginCutover(source, target) => BeginFramed(s, source, target, away);
    case OpCutoverFromLease(lease, target) => CutoverFramed(s, lease, target, away);
    case OpRetirement(lease, target) => RetirementFramed(s, lease, target, away);
    case OpCommitCutover(fence, blob, metadata) => CommitCutoverFramed(s, fence, blob, metadata, away);
    case OpAbortCutover(fence, reason) => AbortCutoverFramed(s, fence, reason, away);
    case OpCommitChild(lease, child, blob, metadata) => ChildFramed(s, lease, child, blob, metadata, away);
    case OpCommitReshare(lease, target, blob, metadata) => ReshareFramed(s, lease, target, blob, metadata, away);
    case _ => QueryFramed(s, op, away);
  }
}

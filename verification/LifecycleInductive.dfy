/** The invariant is inductive: the empty store has it and every operation keeps
    it, on every path. Under it a refusal never changes the state. */
module LifecycleInductive {
  import opened Options
  import opened LifecycleRecords
  import opened LifecycleState
  import opened LifecycleOps
  import opened LifecycleInvariant
  import opened LifecyclePreservation
  import opened LifecycleChanges

  // ------------------------------------------- what the invariant says of a record

  lemma LeaseFact(s: State, t: Token)
    requires Inv(s) && t in s.leases
    ensures LeaseOk(s.leases[t], t, s.bySession, s.nextLease)
    ensures t in s.effects ==> !s.leases[t].state.Active?
    ensures t in s.anchors ==> s.leases[t].kind.Reshare? && s.leases[t].state.Active?
  {
  }

  lemma EffectFact(s: State, t: Token)
    requires Inv(s) && t in s.effects
    ensures s.effects[t].leaseToken == t && t in s.leases && !s.leases[t].state.Active?
    ensures EffectOk(s.effects[t], s.leases[t], s.presigns, s.cutovers, s.disabled, s.gens)
    ensures PresignEffectStrong(s.effects[t], s.leases[t], s.presigns)
  {
  }

  lemma PresignFact(s: State, id: string)
    requires Inv(s) && id in s.presigns
    ensures PresignOk(s.presigns[id], id, s.attempts, s.gens, s.current)
    ensures s.presigns[id].state.AvailablePresign? ==> s.presigns[id].metadata != []
  {
  }

  lemma AttemptFact(s: State, id: string)
    requires Inv(s) && id in s.attempts
    ensures AttemptOk(s.attempts[id], id, s.presigns, s.leases, s.bySession, s.gens, s.current)
    ensures PresignOk(s.presigns[s.attempts[id].presignId], s.attempts[id].presignId, s.attempts, s.gens, s.current)
    ensures !(s.attempts[id].aborted && s.attempts[id].delivered && s.attempts[id].completed)
  {
  }

  lemma CutoverFact(s: State, t: Token)
    requires Inv(s) && t in s.cutovers
    ensures CutoverOk(s.cutovers[t], t, s.cutoverByKey, s.nextCutover, s.gens, s.current, s.leases, s.attempts)
    ensures s.cutovers[t].state.ActiveCutover? ==>
      !HasKeyGeneration(s.gens, s.tombs, s.cutovers[t].fence.target.keyId, s.cutovers[t].fence.target.generation)
  {
  }

  lemma AnchorFact(s: State, t: Token)
    requires Inv(s) && t in s.anchors
    ensures t in s.leases && s.leases[t].state.Active?
    ensures ReceiverOk(s.leases[t], s.anchors[t], s.gens, s.current, s.attempts, s.cutoverByKey, s.tombs)
  {
  }

  /** Active work on a key with a current generation is bound to that generation. */
  lemma ActiveOnCurrent(s: State, t: Token)
    requires Inv(s)
    requires t in s.leases && s.leases[t].state.Active? && s.leases[t].binding.keyId in s.current
    ensures IsCurrent(s, s.leases[t].binding) && t !in s.anchors && !s.leases[t].kind.Keygen?
  {
  }

  lemma FencedKeyIsCurrent(s: State, k: string)
    requires Inv(s) && k in s.cutoverByKey
    ensures k in s.current && HasGenerationForKey(s.gens, k)
  {
    CutoverFact(s, s.cutoverByKey[k]);
  }

  lemma ActiveIsOnCurrent(s: State, b: Binding)
    requires Inv(s) && IsCurrent(s, b)
    ensures forall t | t in s.leases && ActiveOnKey(s.leases[t], b.keyId) :: ActiveOn(s.leases[t], b)
  {
    hide Inv;
    forall t | t in s.leases && ActiveOnKey(s.leases[t], b.keyId) ensures ActiveOn(s.leases[t], b) {
      ActiveOnCurrent(s, t);
    }
  }

  lemma OnlyLeaseOfCurrent(s: State, b: Binding, except: Token)
    requires Inv(s) && IsCurrent(s, b) && !HasOtherActiveLease(s.leases, b, except)
    ensures !HasOtherActiveLeaseForKey(s.leases, b.keyId, except)
  {
    hide Inv;
    ActiveIsOnCurrent(s, b);
  }

  lemma NoLeaseOfCurrent(s: State, b: Binding)
    requires Inv(s) && IsCurrent(s, b) && !HasActiveLease(s.leases, b)
    ensures !HasActiveLeaseForKey(s.leases, b.keyId)
  {
    hide Inv;
    ActiveIsOnCurrent(s, b);
  }

  /** Exclusive work is alone on its key. */
  lemma ExclusiveFact(s: State, t: Token, u: Token)
    requires Inv(s) && t in s.leases && u in s.leases && Overlap(s.leases[t], s.leases[u])
    ensures t == u
  {
  }

  // ------------------------------------------------------------------- leases

  lemma AcquireFresh(s: State, l: Lease)
    requires Inv(s) && l.state.Active?
    requires if l.kind.Keygen? then l.binding.keyId !in s.current && !HasActiveLeaseForKey(s.leases, l.binding.keyId)
             else IsCurrent(s, l.binding) && !HasIncompatibleLease(s.leases, l.binding, l.kind)
    ensures forall t | t in s.leases :: !Overlap(s.leases[t], l) && !Overlap(l, s.leases[t])
  {
    hide Inv;
    forall t | t in s.leases ensures !Overlap(s.leases[t], l) && !Overlap(l, s.leases[t]) {
      if ActiveOnKey(s.leases[t], l.binding.keyId) && !l.kind.Keygen? {
        ActiveOnCurrent(s, t);
        assert ActiveOn(s.leases[t], l.binding);
      }
    }
  }

  lemma AcquireKeeps(s: State, binding: Binding, kind: RunKind, session: SessionId)
    requires Inv(s)
    ensures Inv(AcquireRunLease(s, binding, kind, session).state)
  {
    hide Inv;
    var r := AcquireRunLease(s, binding, kind, session);
    if r.state != s {
      var l := r.result.value.lease;
      if binding.keyId in s.cutoverByKey { FencedKeyIsCurrent(s, binding.keyId); }
      AcquireFresh(s, l);
      GrantKeeps(s, l);
    }
  }

  lemma AcquireReceiverKeeps(s: State, anchor: ReceiverAnchor)
    requires Inv(s)
    ensures Inv(AcquireReshareReceiverLease(s, anchor).state)
  {
    hide Inv;
    var r := AcquireReshareReceiverLease(s, anchor);
    if r.state != s {
      var l := r.result.value.lease;
      assert forall t | t in s.leases :: Overlap(s.leases[t], l) || Overlap(l, s.leases[t]) ==> ActiveOnKey(s.leases[t], anchor.source.keyId);
      GrantReceiverKeeps(s, l, anchor);
    }
  }

  lemma FinishKeeps(s: State, lease: Lease, outcome: LeaseOutcome)
    requires Inv(s)
    ensures Inv(FinishRunLease(s, lease, outcome).state)
  {
    hide Inv;
    var r := FinishRunLease(s, lease, outcome);
    if r.state != s {
      EndKeeps(s, lease.token, if outcome.LeaseAborted? then Aborted else Completed);
    }
  }

  /** A lease outside every reshare join ends without touching the anchors. */
  lemma EndUnanchored(s: State, t: Token, state: LeaseState)
    requires Inv(s) && Endable(s, t, state) && t !in s.anchors
    ensures Inv(EndLease(s, t, state)) && t !in s.effects
  {
    hide Inv;
    EndKeeps(s, t, state);
    assert s.anchors - {t} == s.anchors;
  }

  lemma RefreshFailedKeeps(s: State, lease: Lease, reason: string)
    requires Inv(s)
    ensures Inv(MarkProtocolRefreshFailed(s, lease, reason).state)
  {
    hide Inv;
    var r := MarkProtocolRefreshFailed(s, lease, reason);
    if r.state != s {
      var t := lease.token;
      LeaseFact(s, t);
      EndUnanchored(s, t, Aborted);
      var s1 := EndLease(s, t, Aborted);
      forall u | u in s1.leases && s1.leases[u].kind.Refresh? && s1.leases[u].binding.keyId == lease.binding.keyId
        ensures !s1.leases[u].state.Active?
      {
        if u != t && s.leases[u].state.Active? { ExclusiveFact(s, t, u); }
      }
      DisableKeeps(s1, t, reason);
      assert r.state == Disable(s1, t, reason);
    }
  }

  // ----------------------------------------------------------------- presigns

  lemma CommitPresignKeeps(s: State, lease: Lease, presignId: string, blob: Bytes, metadata: Bytes)
    requires Inv(s)
    ensures Inv(CommitAvailablePresign(s, lease, presignId, blob, metadata).state)
  {
    hide Inv;
    var r := CommitAvailablePresign(s, lease, presignId, blob, metadata);
    if r.state != s {
      var t := lease.token;
      LeaseFact(s, t);
      EndUnanchored(s, t, Completed);
      var s1 := EndLease(s, t, Completed);
      var p := Presign(lease.binding, blob, metadata, Sha256(metadata), AvailablePresign, "", "");
      AddPresignKeeps(s1, presignId, p);
      var s2 := PutPresign(s1, presignId, p);
      var kind := PresignEffect(presignId, EffectDigest(PresignLabel, lease.binding, presignId, blob, metadata));
      RecordKeeps(s2, t, kind);
      assert r.state == WithEffect(s2, t, kind);
    }
  }

  lemma BurnPresignKeeps(s: State, binding: Binding, presignId: string, reason: string)
    requires Inv(s)
    ensures Inv(BurnPresign(s, binding, presignId, reason).state)
  {
    hide Inv;
    var r := BurnPresign(s, binding, presignId, reason);
    if r.state != s { BurnKeeps(s, presignId, r.state.presigns[presignId]); }
  }

  // ----------------------------------------------------------------- attempts

  lemma CommitAttemptKeeps(s: State, binding: Binding, presignId: string, intent: Intent, outbox: Bytes)
    requires Inv(s)
    ensures Inv(CommitSignAttempt(s, binding, presignId, intent, outbox).state)
  {
    hide Inv;
    var r := CommitSignAttempt(s, binding, presignId, intent, outbox);
    if r.state != s {
      var a, p := r.state.attempts[intent.attemptId], r.state.presigns[presignId];
      PresignFact(s, presignId);
      PairKeeps(s, presignId, p, intent.attemptId, a);
    }
  }

  lemma ProgressKeeps(s: State, query: AttemptQuery, value: Bytes, kind: ProgressKind)
    requires Inv(s)
    ensures Inv(RecordAttemptProgress(s, query, value, kind).state)
  {
    hide Inv;
    var r := RecordAttemptProgress(s, query, value, kind);
    if r.state != s {
      var id := query.attemptId;
      AttemptFact(s, id);
      var a, p := r.state.attempts[id], s.presigns[s.attempts[id].presignId];
      assert s.presigns[a.presignId := p] == s.presigns;
      PairKeeps(s, a.presignId, p, id, a);
    }
  }

  lemma AbortAttemptKeeps(s: State, query: AttemptQuery, reason: string)
    requires Inv(s)
    ensures Inv(AbortAttempt(s, query, reason).state)
    ensures AbortAttempt(s, query, reason).result.Err? ==> AbortAttempt(s, query, reason).state == s
  {
    hide Inv;
    var r := AbortAttempt(s, query, reason);
    if r.state != s {
      var id := query.attemptId;
      AttemptFact(s, id);
      var a := s.attempts[id];
      PairKeeps(s, a.presignId, r.state.presigns[a.presignId], id, r.state.attempts[id]);
    }
  }

  // ----------------------------------------------------------------- cutovers

  lemma BeginCutoverKeeps(s: State, source: Binding, target: Binding)
    requires Inv(s)
    ensures Inv(BeginCutover(s, source, target).state)
  {
    hide Inv;
    var r := BeginCutover(s, source, target);
    if r.state != s {
      NoLeaseOfCurrent(s, source);
      FenceKeeps(s, r.result.value.fence);
    }
  }

  lemma FencedKeeps(s: State, t: Token, f: Fence)
    requires Inv(s) && Endable(s, t, Completed) && CutoverKind(s.leases[t].kind) && s.leases[t].binding == f.source
    requires ValidFence(f) && f.token == s.nextCutover + 1 && f.source.keyId !in s.cutoverByKey && IsCurrent(s, f.source)
    requires !HasKeyGeneration(s.gens, s.tombs, f.target.keyId, f.target.generation)
    requires !HasOtherActiveLeaseForKey(s.leases, f.source.keyId, t) && !HasNonTerminalAttempt(s.attempts, f.source)
    ensures Inv(FenceFromLease(s, t, f))
  {
    hide Inv, ValidText, HasKeyGeneration, HasNonTerminalAttempt;
    ActiveOnCurrent(s, t);
    EndUnanchored(s, t, Completed);
    var s1 := EndLease(s, t, Completed);
    FenceKeeps(s1, f);
    var s2 := RaiseFence(s1, f);
    RecordKeeps(s2, t, CutoverEffect(f.target, f.token));
    assert FenceFromLease(s, t, f) == WithEffect(s2, t, CutoverEffect(f.target, f.token));
  }

  lemma CutoverFromLeaseKeeps(s: State, lease: Lease, target: Binding)
    requires Inv(s)
    ensures Inv(BeginCutoverFromLease(s, lease, target).state)
  {
    hide Inv, FenceFromLease, ValidText, HasKeyGeneration, HasNonTerminalAttempt, HasOtherActiveLeaseForKey;
    var r := BeginCutoverFromLease(s, lease, target);
    if r.state != s {
      OnlyLeaseOfCurrent(s, lease.binding, lease.token);
      FencedKeeps(s, lease.token, r.result.value.fence);
    }
  }

  lemma RetirementChain(s: State, t: Token, b: Binding, target: Binding, reason: string)
    requires Inv(s) && ValidText(reason) && ValidCutoverBindings(b, target)
    requires t in s.leases && t !in s.anchors && s.leases[t].state.Active? && s.leases[t].kind.Reshare? && s.leases[t].binding == b
    requires IsCurrent(s, b) && b.keyId !in s.cutoverByKey
    requires !HasOtherActiveLeaseForKey(s.leases, b.keyId, t) && !HasNonTerminalAttempt(s.attempts, b)
    ensures Inv(WithEffect(Retired(EndLease(s, t, Completed), b, reason), t, RetirementEffect(target)))
  {
    hide Inv, ValidText;
    EndUnanchored(s, t, Completed);
    var s1 := EndLease(s, t, Completed);
    RetireKeeps(s1, b, reason);
    RecordKeeps(Retired(s1, b, reason), t, RetirementEffect(target));
  }

  lemma RetirementKeeps(s: State, lease: Lease, target: Binding)
    requires Inv(s)
    ensures Inv(CommitRetirementFromLease(s, lease, target).state)
  {
    hide Inv, ValidText;
    var r := CommitRetirementFromLease(s, lease, target);
    if r.state != s {
      OnlyLeaseOfCurrent(s, lease.binding, lease.token);
      CutoverReasonValid();
      RetirementChain(s, lease.token, lease.binding, target, CUTOVER_REASON);
      assert r.state == WithEffect(Retired(EndLease(s, lease.token, Completed), lease.binding, CUTOVER_REASON), lease.token, RetirementEffect(target));
    }
  }

  lemma AbortCutoverKeeps(s: State, fence: Fence, reason: string)
    requires Inv(s)
    ensures Inv(AbortCutover(s, fence, reason).state)
  {
    hide Inv;
    var r := AbortCutover(s, fence, reason);
    if r.state != s {
      CutoverFact(s, fence.token);
      SettleKeeps(s, fence.token, r.state.cutovers[fence.token]);
    }
  }

  /** A commit lowers the fence, retires the source, installs the target and
      settles the cutover; each of the four states satisfies the invariant. */
  function Committed(s: State, t: Token, c: Cutover, target: Generation, reason: string): State
    requires c.fence.source in s.gens
  {
    var lowered := PutCutover(s, t, c.(state := AbortedCutover, reason := reason));
    var settled := c.(state := CommittedCutover, targetBlob := Some(Sha256(target.blob)), targetMetadata := Some(Sha256(target.metadata)));
    PutCutover(InstallCurrent(Retired(lowered, c.fence.source, reason), target), t, settled)
  }

  lemma LoweredKeeps(s: State, t: Token, c: Cutover, reason: string)
    requires Inv(s) && ValidText(reason) && t in s.cutovers && s.cutovers[t] == c && c.state.ActiveCutover?
    ensures var lowered := PutCutover(s, t, c.(state := AbortedCutover, reason := reason));
            Inv(lowered) && Retirable(lowered, c.fence.source)
  {
    hide Inv, ValidText, ValidBinding, HasActiveLease, HasKeyGeneration;
    CutoverFact(s, t);
    SettleKeeps(s, t, c.(state := AbortedCutover, reason := reason));
  }

  lemma CutoverChain(s: State, t: Token, c: Cutover, target: Generation, reason: string)
    requires Inv(s) && ValidText(reason) && t in s.cutovers && s.cutovers[t] == c && c.state.ActiveCutover?
    requires target.binding == c.fence.target && target.status.CurrentGeneration? && target.blob != []
    requires c.fence.source in s.gens
    ensures Inv(Committed(s, t, c, target, reason))
  {
    hide Inv, ValidText, ValidBinding, BurnEpochPresigns, HasActiveLease;
    CutoverFact(s, t);
    LoweredKeeps(s, t, c, reason);
    var lowered := PutCutover(s, t, c.(state := AbortedCutover, reason := reason));
    RetireKeeps(lowered, c.fence.source, reason);
    var s2 := Retired(lowered, c.fence.source, reason);
    InstallKeeps(s2, target);
    SettleKeeps(InstallCurrent(s2, target), t, Committed(s, t, c, target, reason).cutovers[t]);
  }

  lemma CommitCutoverKeeps(s: State, fence: Fence, blob: Bytes, metadata: Bytes)
    requires Inv(s)
    ensures Inv(CommitCutover(s, fence, blob, metadata).state)
  {
    hide Inv, ValidText;
    var r := CommitCutover(s, fence, blob, metadata);
    if r.state != s {
      var c, target := s.cutovers[fence.token], Generation(fence.target, blob, metadata, CurrentGeneration);
      CutoverReasonValid();
      CutoverChain(s, fence.token, c, target, CUTOVER_REASON);
      assert (s.current - {fence.source.keyId})[fence.source.keyId := fence.target] == s.current[fence.source.keyId := fence.target];
      assert (s.cutoverByKey - {fence.source.keyId}) - {fence.source.keyId} == s.cutoverByKey - {fence.source.keyId};
      assert r.state == Committed(s, fence.token, c, target, CUTOVER_REASON);
    }
  }

  // ------------------------------------------------------------ installations

  lemma InstallInitialKeeps(s: State, binding: Binding, blob: Bytes, metadata: Bytes)
    requires Inv(s)
    ensures Inv(InstallInitialGeneration(s, binding, blob, metadata).state)
  {
    hide Inv;
    var r := InstallInitialGeneration(s, binding, blob, metadata);
    if r.state != s { InstallKeeps(s, r.result.value.generation); }
  }

  lemma InstallFromLease(s: State, t: Token, g: Generation, kind: EffectKind)
    requires Inv(s) && Endable(s, t, Completed) && Installable(Ended(s, t, Completed), g)
    requires !kind.PresignEffect?
    requires EffectOk(Effect(t, kind), s.leases[t].(state := Completed), s.presigns, s.cutovers, s.disabled, s.gens[g.binding := g])
    ensures Inv(WithEffect(InstallCurrent(Ended(s, t, Completed), g), t, kind))
  {
    hide Inv, ValidText;
    EndKeeps(s, t, Completed);
    InstallKeeps(Ended(s, t, Completed), g);
    RecordKeeps(InstallCurrent(Ended(s, t, Completed), g), t, kind);
  }

  lemma ChildKeeps(s: State, t: Token, g: Generation, digest: Digest)
    requires Inv(s) && Endable(s, t, Completed) && t !in s.anchors && Installable(Ended(s, t, Completed), g)
    requires s.leases[t].kind.ChildDerivation? && g.binding.keyId != s.leases[t].binding.keyId && g.binding.epochId != s.leases[t].binding.epochId
    ensures Inv(InstallChild(s, t, g, digest))
  {
    hide Inv, ValidText;
    assert s.anchors - {t} == s.anchors;
    InstallFromLease(s, t, g, ChildEffect(g.binding, digest));
  }

  lemma CommitChildKeeps(s: State, lease: Lease, child: Binding, blob: Bytes, metadata: Bytes)
    requires Inv(s)
    ensures Inv(CommitChildGeneration(s, lease, child, blob, metadata).state)
  {
    hide Inv, ValidText;
    hide InstallChild;
    var r := CommitChildGeneration(s, lease, child, blob, metadata);
    if r.state != s {
      ActiveOnCurrent(s, lease.token);
      ChildKeeps(s, lease.token, r.result.value.generation, EffectDigest(ChildGenerationLabel, child, child.keyId, blob, metadata));
    }
  }

  lemma ReceivedKeeps(s: State, t: Token, g: Generation, digest: Digest)
    requires Inv(s) && Endable(s, t, Completed) && Installable(Ended(s, t, Completed), g)
    requires s.leases[t].kind.Reshare? && g.binding.keyId == s.leases[t].binding.keyId
    requires g.binding.generation != s.leases[t].binding.generation && g.binding.epochId != s.leases[t].binding.epochId
    ensures Inv(InstallReceived(s, t, g, digest))
  {
    hide Inv, ValidText;
    InstallFromLease(s, t, g, ReceiverEffect(g.binding, digest));
  }

  lemma CommitReshareKeeps(s: State, lease: Lease, target: Binding, blob: Bytes, metadata: Bytes)
    requires Inv(s)
    ensures Inv(CommitReshareGeneration(s, lease, target, blob, metadata).state)
  {
    hide Inv, ValidText;
    hide InstallReceived;
    var r := CommitReshareGeneration(s, lease, target, blob, metadata);
    if r.state != s {
      ReceivedKeeps(s, lease.token, r.result.value.generation, EffectDigest(ReceiverGenerationLabel, target, target.keyId, blob, metadata));
    }
  }

  // ------------------------------------------------------------- the theorem

  /** Every step from a state of the invariant leads to a state of the invariant. */
  lemma StepKeepsInv(s: State, op: Op)
    requires Inv(s)
    ensures Inv(Apply(s, op).state)
  {
    hide Inv, InstallInitialGeneration, AcquireRunLease, AcquireReshareReceiverLease, FinishRunLease,
         MarkProtocolRefreshFailed, CommitAvailablePresign, CommitSignAttempt, RecordAttemptProgress, AbortAttempt, BurnPresign,
         BeginCutover, BeginCutoverFromLease, CommitRetirementFromLease, CommitCutover, AbortCutover, CommitChildGeneration,
         CommitReshareGeneration;
    match op
    case OpInstallInitial(binding, blob, metadata) => InstallInitialKeeps(s, binding, blob, metadata);
    case OpLoadCurrent(keyId) =>
    case OpAcquireLease(binding, kind, session) => AcquireKeeps(s, binding, kind, session);
    case OpAcquireReceiver(anchor) => AcquireReceiverKeeps(s, anchor);
    case OpQueryLease(binding, kind, session) =>
    case OpFinishLease(lease, outcome) => FinishKeeps(s, lease, outcome);
    case OpRefreshFailed(lease, reason) => RefreshFailedKeeps(s, lease, reason);
    case OpCommitPresign(lease, presignId, blob, metadata) => CommitPresignKeeps(s, lease, presignId, blob, metadata);
    case OpPrepareCandidate(binding, presignId) =>
    case OpCommitAttempt(binding, presignId, intent, outbox) => CommitAttemptKeeps(s, binding, presignId, intent, outbox);
    case OpQueryAttempt(query) =>
    case OpProgress(query, value, progress) => ProgressKeeps(s, query, value, progress);
    case OpAbortAttempt(query, reason) => AbortAttemptKeeps(s, query, reason);
    case OpBurnPresign(binding, presignId, reason) => BurnPresignKeeps(s, binding, presignId, reason);
    case OpBeginCutover(source, target) => BeginCutoverKeeps(s, source, target);
    case OpCutoverFromLease(lease, target) => CutoverFromLeaseKeeps(s, lease, target);
    case OpRetirement(lease, target) => RetirementKeeps(s, lease, target);
    case OpCommitCutover(fence, blob, metadata) => CommitCutoverKeeps(s, fence, blob, metadata);
    case OpAbortCutover(fence, reason) => AbortCutoverKeeps(s, fence, reason);
    case OpCommitChild(lease, target, blob, metadata) => CommitChildKeeps(s, lease, target, blob, metadata);
    case OpCommitReshare(lease, target, blob, metadata) => CommitReshareKeeps(s, lease, target, blob, metadata);
  }
}

/** Retrying, resolving an unknown outcome, and progress under a fence. */
module LifecycleRetry {
  import opened LifecycleRecords
  import opened LifecycleState
  import opened LifecycleOps
  import opened LifecycleInvariant
  import opened LifecycleInductive
  import opened LifecycleRuns
  import opened LifecycleEvolution
  import opened LifecycleTheorems

  /** What an immediate retry answers: the same record, and for a signing
      attempt the news that it already exists. */
  function Repeated(r: Reply): Reply {
    if r.CommitReply? then CommitReply(false, r.record) else r
  }

  predicate Idempotent(first: Step, second: Step) {
    first.result.Ok? ==> second == Step(first.state, Ok(Repeated(first.result.value)))
  }

  lemma InstallInitialRetry(s: State, binding: Binding, blob: Bytes, metadata: Bytes)
    ensures var r := InstallInitialGeneration(s, binding, blob, metadata);
            Idempotent(r, InstallInitialGeneration(r.state, binding, blob, metadata))
  {
  }

  lemma AcquireRetry(s: State, binding: Binding, kind: RunKind, session: SessionId)
    requires Inv(s)
    ensures var r := AcquireRunLease(s, binding, kind, session);
            Idempotent(r, AcquireRunLease(r.state, binding, kind, session))
  {
    hide Inv, ValidBinding, HasIncompatibleLease, HasActiveLeaseForKey, HasGenerationForKey, IsCurrent;
    FreshToken(s);
    var r := AcquireRunLease(s, binding, kind, session);
    if r.state != s { assert r.state.bySession[session] == s.nextLease + 1; }
  }

  lemma FreshToken(s: State)
    requires Inv(s)
    ensures s.nextLease + 1 !in s.leases && s.nextLease + 1 !in s.anchors
  {
    hide Inv;
    if s.nextLease + 1 in s.anchors { AnchorFact(s, s.nextLease + 1); }
    if s.nextLease + 1 in s.leases { LeaseFact(s, s.nextLease + 1); }
  }

  lemma AcquireReceiverRetry(s: State, anchor: ReceiverAnchor)
    ensures var r := AcquireReshareReceiverLease(s, anchor);
            Idempotent(r, AcquireReshareReceiverLease(r.state, anchor))
  {
    hide ValidAnchor, HasActiveLeaseForKey, HasKeyGeneration, HasNonTerminalAttemptForKey;
  }

  lemma FinishRetry(s: State, lease: Lease, outcome: LeaseOutcome)
    ensures var r := FinishRunLease(s, lease, outcome);
            Idempotent(r, FinishRunLease(r.state, lease, outcome))
  {
    hide ValidLease;
  }

  lemma RefreshFailedRetry(s: State, lease: Lease, reason: string)
    ensures var r := MarkProtocolRefreshFailed(s, lease, reason);
            Idempotent(r, MarkProtocolRefreshFailed(r.state, lease, reason))
  {
    hide ValidLease, ValidText;
  }

  lemma CommitPresignRetry(s: State, lease: Lease, presignId: string, blob: Bytes, metadata: Bytes)
    ensures var r := CommitAvailablePresign(s, lease, presignId, blob, metadata);
            Idempotent(r, CommitAvailablePresign(r.state, lease, presignId, blob, metadata))
  {
    hide ValidLease, ValidPresignInput, IsCurrent, HasConflictingArtifact;
  }

  lemma BurnPresignRetry(s: State, binding: Binding, presignId: string, reason: string)
    ensures var r := BurnPresign(s, binding, presignId, reason);
            Idempotent(r, BurnPresign(r.state, binding, presignId, reason))
  {
    hide ValidBinding, ValidText;
  }

  lemma CommitAttemptRetry(s: State, binding: Binding, presignId: string, intent: Intent, outbox: Bytes)
    ensures var r := CommitSignAttempt(s, binding, presignId, intent, outbox);
            Idempotent(r, CommitSignAttempt(r.state, binding, presignId, intent, outbox))
  {
    hide ValidBinding, ValidText, ValidIntent, IsCurrent, HasActiveSignLease;
    var r := CommitSignAttempt(s, binding, presignId, intent, outbox);
    if r.state != s { assert r.state.attempts[intent.attemptId] == r.result.value.record && r.state.tombs == s.tombs; }
  }

  lemma ProgressRetry(s: State, query: AttemptQuery, value: Bytes, kind: ProgressKind)
    ensures var r := RecordAttemptProgress(s, query, value, kind);
            Idempotent(r, RecordAttemptProgress(r.state, query, value, kind))
  {
    hide ValidQuery;
  }

  lemma AbortAttemptRetry(s: State, query: AttemptQuery, reason: string)
    ensures var r := AbortAttempt(s, query, reason);
            Idempotent(r, AbortAttempt(r.state, query, reason))
  {
    hide ValidQuery, ValidText;
  }

  lemma BeginCutoverRetry(s: State, source: Binding, target: Binding)
    ensures var r := BeginCutover(s, source, target);
            Idempotent(r, BeginCutover(r.state, source, target))
  {
    hide ValidCutoverBindings, HasKeyGeneration, HasActiveLease, HasNonTerminalAttempt, IsCurrent;
  }

  lemma CutoverFromLeaseRetry(s: State, lease: Lease, target: Binding)
    ensures var r := BeginCutoverFromLease(s, lease, target);
            Idempotent(r, BeginCutoverFromLease(r.state, lease, target))
  {
    hide ValidLease, ValidCutoverBindings, HasKeyGeneration, HasOtherActiveLease, HasNonTerminalAttempt, IsCurrent;
  }

  lemma RetirementRetry(s: State, lease: Lease, target: Binding)
    ensures var r := CommitRetirementFromLease(s, lease, target);
            Idempotent(r, CommitRetirementFromLease(r.state, lease, target))
  {
    hide ValidLease, ValidCutoverBindings, HasKeyGeneration, HasOtherActiveLease, HasNonTerminalAttempt, BurnEpochPresigns;
  }

  lemma CommitCutoverRetry(s: State, fence: Fence, blob: Bytes, metadata: Bytes)
    ensures var r := CommitCutover(s, fence, blob, metadata);
            Idempotent(r, CommitCutover(r.state, fence, blob, metadata))
  {
    hide ValidFence, HasActiveLease, HasNonTerminalAttempt, BurnEpochPresigns;
  }

  lemma AbortCutoverRetry(s: State, fence: Fence, reason: string)
    ensures var r := AbortCutover(s, fence, reason);
            Idempotent(r, AbortCutover(r.state, fence, reason))
  {
    hide ValidFence, ValidText;
  }

  lemma CommitChildRetry(s: State, lease: Lease, child: Binding, blob: Bytes, metadata: Bytes)
    ensures var r := CommitChildGeneration(s, lease, child, blob, metadata);
            Idempotent(r, CommitChildGeneration(r.state, lease, child, blob, metadata))
  {
    hide ValidLease, ValidBinding, HasGenerationForKey, HasKeyGeneration, HasActiveLeaseForKey, IsCurrent;
  }

  lemma CommitReshareRetry(s: State, lease: Lease, target: Binding, blob: Bytes, metadata: Bytes)
    ensures var r := CommitReshareGeneration(s, lease, target, blob, metadata);
            Idempotent(r, CommitReshareGeneration(r.state, lease, target, blob, metadata))
  {
    hide ValidLease, ValidBinding, HasKeyGeneration, HasOtherActiveLeaseForKey, HasNonTerminalAttemptForKey, ExactActive;
    var r := CommitReshareGeneration(s, lease, target, blob, metadata);
    if r.state != s { assert r.state.gens[target] == r.result.value.generation && lease.token !in r.state.anchors; }
  }

  lemma ReadRetry(s: State, op: Op)
    requires op.OpLoadCurrent? || op.OpQueryLease? || op.OpPrepareCandidate? || op.OpQueryAttempt?
    ensures Idempotent(Apply(s, op), Apply(Apply(s, op).state, op))
  {
    hide ValidText, ValidBinding, ValidQuery, ValidKind, ValidSession, IsCurrent, SameQuery;
  }

  /** Every operation, repeated at once, answers the same and changes nothing. */
  lemma RetryIdempotent(s: State, op: Op)
    requires Inv(s)
    ensures Idempotent(Apply(s, op), Apply(Apply(s, op).state, op))
  {
    hide Inv, InstallInitialGeneration, AcquireRunLease, AcquireReshareReceiverLease, FinishRunLease,
         MarkProtocolRefreshFailed, CommitAvailablePresign, CommitSignAttempt, RecordAttemptProgress, AbortAttempt, BurnPresign,
         BeginCutover, BeginCutoverFromLease, CommitRetirementFromLease, CommitCutover, AbortCutover, CommitChildGeneration,
         CommitReshareGeneration, LoadCurrentGeneration, QueryRunLease, PreparePresignCandidate, QueryAttemptOutcome, Idempotent;
    match op
    case OpInstallInitial(binding, blob, metadata) => InstallInitialRetry(s, binding, blob, metadata);
    case OpLoadCurrent(keyId) => ReadRetry(s, op);
    case OpAcquireLease(binding, kind, session) => AcquireRetry(s, binding, kind, session);
    case OpAcquireReceiver(anchor) => AcquireReceiverRetry(s, anchor);
    case OpQueryLease(binding, kind, session) => ReadRetry(s, op);
    case OpFinishLease(lease, outcome) => FinishRetry(s, lease, outcome);
    case OpRefreshFailed(lease, reason) => RefreshFailedRetry(s, lease, reason);
    case OpCommitPresign(lease, presignId, blob, metadata) => CommitPresignRetry(s, lease, presignId, blob, metadata);
    case OpPrepareCandidate(binding, presignId) => ReadRetry(s, op);
    case OpCommitAttempt(binding, presignId, intent, outbox) => CommitAttemptRetry(s, binding, presignId, intent, outbox);
    case OpQueryAttempt(query) => ReadRetry(s, op);
    case OpProgress(query, value, progress) => ProgressRetry(s, query, value, progress);
    case OpAbortAttempt(query, reason) => AbortAttemptRetry(s, query, reason);
    case OpBurnPresign(binding, presignId, reason) => BurnPresignRetry(s, binding, presignId, reason);
    case OpBeginCutover(source, target) => BeginCutoverRetry(s, source, target);
    case OpCutoverFromLease(lease, target) => CutoverFromLeaseRetry(s, lease, target);
    case OpRetirement(lease, target) => RetirementRetry(s, lease, target);
    case OpCommitCutover(fence, blob, metadata) => CommitCutoverRetry(s, fence, blob, metadata);
    case OpAbortCutover(fence, reason) => AbortCutoverRetry(s, fence, reason);
    case OpCommitChild(lease, target, blob, metadata) => CommitChildRetry(s, lease, target, blob, metadata);
    case OpCommitReshare(lease, target, blob, metadata) => CommitReshareRetry(s, lease, target, blob, metadata);
  }

  /** Resolving an unknown outcome: in every later state that has not compacted
      the attempt, the same commit finds the one stored attempt, with the outbox
      digest it committed, and changes nothing; so does the exact query. */
  lemma CommitRetryAnyLater(run: seq<Event>, i: nat, j: nat, binding: Binding, presignId: string, intent: Intent, outbox: Bytes)
    requires i < j <= |run| && CommitsAt(run, i, binding, presignId, intent, outbox)
    requires AttemptTomb(intent.attemptId) !in After(run[..j]).tombs
    ensures var s := After(run[..j]);
            && intent.attemptId in s.attempts
            && SameBase(s.attempts[intent.attemptId], binding, presignId, intent, Sha256(outbox))
            && CommitSignAttempt(s, binding, presignId, intent, outbox) == Answer(s, CommitReply(false, s.attempts[intent.attemptId]))
            && QueryAttemptOutcome(s, AttemptQuery(binding, presignId, intent.attemptId, intent.intentDigest))
               == Answer(s, AttemptReply(s.attempts[intent.attemptId]))
  {
    hide Inv, Next, GensEvolve, PresignsEvolve, LeasesEvolve;
    var s := After(run[..j]);
    CommitAt(run, i, binding, presignId, intent, outbox);
    RunEvolves(run, i + 1, j);
    ReachableInv(run[..j]);
    AttemptFact(s, intent.attemptId);
    NotEntombed(s, presignId);
  }

  // ------------------------------------------------------------------ refusals

  /** Under the invariant a refused operation changes nothing. */
  lemma RefusalChangesNothing(s: State, op: Op)
    requires Inv(s) && Apply(s, op).result.Err?
    ensures Apply(s, op).state == s
  {
    hide Inv, ValidText, ValidBinding, ValidLease, ValidCutoverBindings, ValidFence, ValidIntent, ValidQuery, ValidAnchor, IsCurrent,
         HasGenerationForKey, HasKeyGeneration, HasActiveLease, HasActiveLeaseForKey, HasIncompatibleLease, HasNonTerminalAttempt,
         HasNonTerminalAttemptForKey, HasOtherActiveLease, HasOtherActiveLeaseForKey, HasConflictingArtifact, HasActiveSignLease, ExactActive;
    hide InstallCurrent, AddLease, AddReceiver, ReleaseLease, DisableRefresh, EndLease, EndLeaseWith, StorePresign, PutPresign, PutPair, PutAttempt,
         RaiseFence, FenceFromLease, Retire, RetireFromLease, Replace, PutCutover, InstallChild, InstallReceived;
    if op.OpAbortAttempt? { AbortAttemptKeeps(s, op.query, op.reason); }
  }

  // ------------------------------------------------------------------ progress

  /** In every reachable state an active fence can be committed: nothing that
      happened since it was raised can stand in its way. */
  lemma FenceProgress(run: seq<Event>, t: Token, blob: Bytes, metadata: Bytes)
    requires t in After(run).cutovers && After(run).cutovers[t].state.ActiveCutover?
    requires ValidBlob(blob, true) && ValidBlob(metadata, false)
    ensures var f := After(run).cutovers[t].fence;
            var r := CommitCutover(After(run), f, blob, metadata);
            && r.result == Ok(GenerationReply(Generation(f.target, blob, metadata, CurrentGeneration)))
            && IsCurrent(r.state, f.target)
            && f.source in r.state.gens && r.state.gens[f.source].status.RetiredGeneration?
            && (forall id | id in r.state.presigns && r.state.presigns[id].binding == f.source :: r.state.presigns[id].state.BurnedPresign?)
  {
    hide Inv, After;
    var s := After(run);
    var f := s.cutovers[t].fence;
    ReachableInv(run);
    CutoverFact(s, t);
    assert forall u | u in s.leases && ActiveOn(s.leases[u], f.source) :: ActiveOnKey(s.leases[u], f.source.keyId);
    var r := CommitCutover(s, f, blob, metadata);
    forall id | id in r.state.presigns && r.state.presigns[id].binding == f.source ensures r.state.presigns[id].state.BurnedPresign? {
      PresignFact(s, id);
    }
  }

  /** In every reachable state a receiver's active anchored lease can install its
      declared target. */
  lemma ReceiverProgress(run: seq<Event>, t: Token, target: Binding, blob: Bytes, metadata: Bytes)
    requires t in After(run).anchors && t in After(run).leases
    requires ValidBinding(target) && target.keyId == After(run).leases[t].binding.keyId && target.epochId != After(run).leases[t].binding.epochId
    requires target.generation == After(run).anchors[t].targetGeneration
    requires ValidBlob(blob, true) && ValidBlob(metadata, false)
    ensures var r := CommitReshareGeneration(After(run), After(run).leases[t], target, blob, metadata);
            && r.result == Ok(GenerationReply(Generation(target, blob, metadata, CurrentGeneration)))
            && IsCurrent(r.state, target) && t !in r.state.anchors && r.state.leases[t].state.Completed?
  {
    hide Inv, After;
    var s := After(run);
    ReachableInv(run);
    AnchorFact(s, t);
    LeaseFact(s, t);
    forall u | u in s.leases && ActiveOnKey(s.leases[u], target.keyId) ensures u == t {
      ExclusiveFact(s, t, u);
    }
  }
}

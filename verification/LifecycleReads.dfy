/** What is read is what was written: over whole runs the store gives back the
    secrets, presigns and outboxes it accepted, unchanged, or not at all. */
module LifecycleReads {
  import opened Options
  import opened LifecycleRecords
  import opened LifecycleState
  import opened LifecycleOps
  import opened LifecycleInvariant
  import opened LifecycleInductive
  import opened LifecycleRuns
  import opened LifecycleEvolution
  import opened LifecycleTheorems
  import opened LifecycleRetry

  /** The generation that an installing operation asks for. */
  function InstalledBy(op: Op): Option<Generation> {
    match op
    case OpInstallInitial(binding, blob, metadata) => Some(Generation(binding, blob, metadata, CurrentGeneration))
    case OpCommitCutover(fence, blob, metadata) => Some(Generation(fence.target, blob, metadata, CurrentGeneration))
    case OpCommitChild(_, target, blob, metadata) => Some(Generation(target, blob, metadata, CurrentGeneration))
    case OpCommitReshare(_, target, blob, metadata) => Some(Generation(target, blob, metadata, CurrentGeneration))
    case _ => None
  }

  lemma CutoverStores(s: State, fence: Fence, blob: Bytes, metadata: Bytes)
    requires Inv(s) && CommitCutover(s, fence, blob, metadata).result.Ok?
    ensures var s' := CommitCutover(s, fence, blob, metadata).state;
            fence.target in s'.gens && s'.gens[fence.target] == Generation(fence.target, blob, metadata, CurrentGeneration)
  {
    hide Inv, ValidFence, ValidBlob, HasActiveLease, HasNonTerminalAttempt, BurnEpochPresigns;
    CutoverFact(s, fence.token);
    if fence.target in s.gens { GenerationFact(s, fence.target); }
  }

  lemma GenerationFact(s: State, b: Binding)
    requires Inv(s) && b in s.gens
    ensures s.gens[b].binding == b
  {
    hide LeasesValid, HoldersValid, EffectsValid, DisabledValid, PresignsValid, AttemptsValid, CutoversValid, Strong;
  }

  /** An accepted installation, first or repeated, leaves exactly that generation stored. */
  lemma InstallStores(s: State, op: Op)
    requires Inv(s) && InstalledBy(op).Some? && Apply(s, op).result.Ok?
    ensures var g := InstalledBy(op).value; g.binding in Apply(s, op).state.gens && Apply(s, op).state.gens[g.binding] == g
  {
    hide Inv, ValidText, ValidBinding, ValidLease, ValidBlob, HasGenerationForKey, HasKeyGeneration, HasActiveLeaseForKey, HasOtherActiveLeaseForKey,
         HasNonTerminalAttemptForKey, IsCurrent, ExactActive, EffectDigest, CommitCutover;
    var g := InstalledBy(op).value;
    if g.binding in s.gens { GenerationFact(s, g.binding); }
    match op
    case OpInstallInitial(binding, blob, metadata) =>
    case OpCommitCutover(fence, blob, metadata) => CutoverStores(s, fence, blob, metadata);
    case OpCommitChild(lease, target, blob, metadata) =>
    case OpCommitReshare(lease, target, blob, metadata) =>
  }

  /** A generation that loads as current is the one that was installed, secrets and
      metadata included, whatever happened in between. */
  lemma LoadedIsInstalled(run: seq<Event>, i: nat, j: nat, op: Op, g: Generation)
    requires i < j <= |run| && run[i] == Client(op) && InstalledBy(op).Some? && Apply(After(run[..i]), op).result.Ok?
    requires LoadCurrentGeneration(After(run[..j]), g.binding.keyId).result == Ok(GenerationReply(g)) && g.binding == InstalledBy(op).value.binding
    ensures g == InstalledBy(op).value
  {
    hide Inv, Apply, InstalledBy, LeasesEvolve, PresignsEvolve, AttemptsEvolve;
    ReachableInv(run[..i]);
    AfterNext(run, i);
    InstallStores(After(run[..i]), op);
    RunEvolves(run, i + 1, j);
    ReachableInv(run[..j]);
    GenerationFact(After(run[..j]), After(run[..j]).current[g.binding.keyId]);
  }

  lemma PresignStores(s: State, lease: Lease, presignId: string, blob: Bytes, metadata: Bytes)
    requires Inv(s) && CommitAvailablePresign(s, lease, presignId, blob, metadata).result.Ok?
    ensures var s' := CommitAvailablePresign(s, lease, presignId, blob, metadata).state;
            && presignId in s'.presigns
            && (s'.presigns[presignId].state.AvailablePresign? ==> s'.presigns[presignId].blob == blob && s'.presigns[presignId].metadata == metadata)
  {
    hide Inv, ValidLease, ValidPresignInput, HasConflictingArtifact, IsCurrent, ExactActive, EffectDigest;
  }

  /** A presign candidate is the presign that was stored, blob and metadata. */
  lemma CandidateIsStored(run: seq<Event>, i: nat, j: nat, lease: Lease, presignId: string, blob: Bytes, metadata: Bytes, binding: Binding, c: PresignCandidate)
    requires i < j <= |run| && run[i] == Client(OpCommitPresign(lease, presignId, blob, metadata))
    requires CommitAvailablePresign(After(run[..i]), lease, presignId, blob, metadata).result.Ok?
    requires PreparePresignCandidate(After(run[..j]), binding, presignId).result == Ok(CandidateReply(c))
    ensures c.blob == blob && c.metadata == metadata
  {
    hide Inv, CommitAvailablePresign, GensEvolve, LeasesEvolve, AttemptsEvolve, IsCurrent, ValidBinding, ValidText;
    ReachableInv(run[..i]);
    AfterNext(run, i);
    PresignStores(After(run[..i]), lease, presignId, blob, metadata);
    RunEvolves(run, i + 1, j);
    ReachableInv(run[..j]);
    NotEntombed(After(run[..j]), presignId);
  }

  /** Until an attempt is terminal the exact outbox it committed is there to be sent
      again; a query never gives a different one. */
  lemma OutboxReplayed(run: seq<Event>, i: nat, j: nat, binding: Binding, presignId: string, intent: Intent, outbox: Bytes)
    requires i < j <= |run| && CommitsAt(run, i, binding, presignId, intent, outbox)
    requires intent.attemptId in After(run[..j]).attempts
    ensures var a := After(run[..j]).attempts[intent.attemptId];
            && a.exactOutbox == (if a.Terminal() then [] else outbox)
            && QueryAttemptOutcome(After(run[..j]), AttemptQuery(binding, presignId, intent.attemptId, intent.intentDigest))
               == Answer(After(run[..j]), AttemptReply(a))
  {
    hide Inv, CommitsAt, QueryAttemptOutcome;
    var s := After(run[..j]);
    ReachableInv(run[..j]);
    AttemptFact(s, intent.attemptId);
    AttemptLive(s, intent.attemptId);
    CommitRetryAnyLater(run, i, j, binding, presignId, intent, outbox);
  }

  lemma AttemptLive(s: State, id: string)
    requires Inv(s) && id in s.attempts
    ensures AttemptTomb(id) !in s.tombs
  {
    hide Valid, NamesUnique, EffectsStrong, MetadataKept, DisabledStrong, AttemptsStrong, FencesStrong;
    assert forall x | x in s.tombs :: TombOk(x, s.tombs[x].keyId, s.gens, s.bySession, s.presigns, s.attempts, s.cutovers, s.nextCutover);
  }
}

/** Properties of whole runs, compactions included. */
module LifecycleTheorems {
  import opened LifecycleRecords
  import opened LifecycleState
  import opened LifecycleOps
  import opened LifecycleInvariant
  import opened LifecycleInductive
  import opened LifecycleRuns
  import opened LifecycleEvolution

  /** Event `i` of the run is a successful commit of this signing attempt. */
  predicate CommitsAt(run: seq<Event>, i: nat, binding: Binding, presignId: string, intent: Intent, outbox: Bytes)
    requires i < |run|
  {
    && run[i] == Client(OpCommitAttempt(binding, presignId, intent, outbox))
    && CommitSignAttempt(After(run[..i]), binding, presignId, intent, outbox).result.Ok?
  }

  lemma AfterNext(run: seq<Event>, i: nat)
    requires i < |run|
    ensures After(run[..i + 1]) == Next(After(run[..i]), run[i]).state
  {
    assert run[..i + 1][..i] == run[..i];
  }

  /** After a successful commit the attempt is stored with exactly the committed identity. */
  lemma CommitStores(s: State, binding: Binding, presignId: string, intent: Intent, outbox: Bytes)
    requires Inv(s) && CommitSignAttempt(s, binding, presignId, intent, outbox).result.Ok?
    ensures var s' := CommitSignAttempt(s, binding, presignId, intent, outbox).state;
            && intent.attemptId in s'.attempts && SameBase(s'.attempts[intent.attemptId], binding, presignId, intent, Sha256(outbox))
            && presignId in s'.presigns && s'.presigns[presignId].attemptId == intent.attemptId
  {
    hide Inv, ValidText, ValidBinding, ValidIntent;
    CommitAttemptKeeps(s, binding, presignId, intent, outbox);
    AttemptFact(CommitSignAttempt(s, binding, presignId, intent, outbox).state, intent.attemptId);
  }

  /** A stored attempt and its presign stay linked for as long as either is stored. */
  lemma LinkPersists(s: State, s': State, id: string, presignId: string)
    requires Inv(s) && Inv(s') && Evolves(s, s')
    requires id in s.attempts && s.attempts[id].presignId == presignId && presignId in s'.presigns
    ensures id in s'.attempts && AttemptMoves(s.attempts[id], s'.attempts[id]) && s'.presigns[presignId].attemptId == id
  {
    hide Valid, Inv, LeasesEvolve, GensEvolve, PresignsEvolve;
    NotEntombed(s', presignId);
    AttemptFact(s', id);
  }

  lemma NotEntombed(s: State, presignId: string)
    requires Inv(s) && presignId in s.presigns
    ensures PresignTomb(presignId) !in s.tombs && ArtifactTomb(s.presigns[presignId].artifact) !in s.tombs
  {
    hide Valid, NamesUnique, EffectsStrong, MetadataKept, DisabledStrong, AttemptsStrong, FencesStrong;
    assert forall x | x in s.tombs :: TombOk(x, s.tombs[x].keyId, s.gens, s.bySession, s.presigns, s.attempts, s.cutovers, s.nextCutover);
  }

  /** One presign, one attempt: all successful commits that name one presign
      carry the same attempt, session, intent digest and outbox digest. */
  lemma PresignOneUse(run: seq<Event>, i: nat, j: nat, b: Binding, c: Binding, presignId: string, x: Intent, y: Intent, out: Bytes, put: Bytes)
    requires i < j < |run|
    requires CommitsAt(run, i, b, presignId, x, out) && CommitsAt(run, j, c, presignId, y, put)
    ensures b == c && x == y && Sha256(out) == Sha256(put)
  {
    hide Inv, Evolves, Apply, CommitSignAttempt;
    var s, s' := After(run[..i + 1]), After(run[..j + 1]);
    CommitAt(run, i, b, presignId, x, out);
    CommitAt(run, j, c, presignId, y, put);
    ReachableInv(run[..i + 1]);
    ReachableInv(run[..j + 1]);
    RunEvolves(run, i + 1, j + 1);
    LinkPersists(s, s', x.attemptId, presignId);
  }

  lemma CommitAt(run: seq<Event>, i: nat, binding: Binding, presignId: string, intent: Intent, outbox: Bytes)
    requires i < |run| && CommitsAt(run, i, binding, presignId, intent, outbox)
    ensures var s' := After(run[..i + 1]);
            && intent.attemptId in s'.attempts && SameBase(s'.attempts[intent.attemptId], binding, presignId, intent, Sha256(outbox))
            && presignId in s'.presigns && s'.presigns[presignId].attemptId == intent.attemptId
  {
    hide Inv, CommitSignAttempt;
    ReachableInv(run[..i]);
    AfterNext(run, i);
    CommitStores(After(run[..i]), binding, presignId, intent, outbox);
  }

  /** One public artifact, one attempt: the same holds for commits through
      different presign names of one artifact. */
  lemma ArtifactOneUse(run: seq<Event>, i: nat, j: nat, b: Binding, c: Binding, p: string, q: string, x: Intent, y: Intent, out: Bytes, put: Bytes)
    requires i < j < |run|
    requires CommitsAt(run, i, b, p, x, out) && CommitsAt(run, j, c, q, y, put)
    requires p in After(run[..i + 1]).presigns && q in After(run[..j + 1]).presigns
    requires After(run[..i + 1]).presigns[p].artifact == After(run[..j + 1]).presigns[q].artifact
    ensures p == q && b == c && x == y && Sha256(out) == Sha256(put)
  {
    hide Inv, CommitsAt;
    var s, s' := After(run[..i + 1]), After(run[..j + 1]);
    ReachableInv(run[..i + 1]);
    ReachableInv(run[..j + 1]);
    RunEvolves(run, i + 1, j + 1);
    NotEntombed(s', q);
    ArtifactOwner(s', p, q);
    PresignOneUse(run, i, j, b, c, p, x, y, out, put);
  }

  lemma ArtifactOwner(s: State, p: string, q: string)
    requires Inv(s) && p in s.presigns && q in s.presigns && s.presigns[p].artifact == s.presigns[q].artifact
    ensures p == q
  {
    hide GenerationsValid, LeasesValid, HoldersValid, EffectsValid, DisabledValid, AttemptsValid, CutoversValid, Strong, PresignOk;
  }

  // ------------------------------------------------------------ terminal facts

  /** Event `i` of the run stores a generation that was not stored before. */
  predicate InstallsAt(run: seq<Event>, i: nat, b: Binding)
    requires i < |run|
  {
    b !in After(run[..i]).gens && b in After(run[..i + 1]).gens
  }

  lemma NameOwner(s: State, b: Binding, c: Binding)
    requires Inv(s) && c in s.gens && b.keyId == c.keyId && b.generation == c.generation
    ensures GenerationNameTomb(b.keyId, b.generation) !in s.tombs
    ensures b in s.gens ==> b == c
  {
    hide Valid, EffectsStrong, MetadataKept, DisabledStrong, AttemptsStrong, FencesStrong;
    assert forall x | x in s.tombs :: TombOk(x, s.tombs[x].keyId, s.gens, s.bySession, s.presigns, s.attempts, s.cutovers, s.nextCutover);
  }

  /** A generation name of a key is installed at most once, whatever its epoch. */
  lemma NameInstalledOnce(run: seq<Event>, i: nat, j: nat, b: Binding, c: Binding)
    requires i < |run| && j < |run| && InstallsAt(run, i, b) && InstallsAt(run, j, c)
    requires b.keyId == c.keyId && b.generation == c.generation
    ensures i == j && b == c
  {
    hide Inv, Next, LeasesEvolve, PresignsEvolve, AttemptsEvolve;
    if i < j {
      ReachableInv(run[..j + 1]);
      RunEvolves(run, i + 1, j + 1);
      NameOwner(After(run[..j + 1]), b, c);
      RunEvolves(run, i + 1, j);
      RunEvolves(run, j, j + 1);
    } else if j < i {
      NameInstalledOnce(run, j, i, c, b);
    } else {
      ReachableInv(run[..j + 1]);
      NameOwner(After(run[..j + 1]), b, c);
    }
  }

  /** A retired generation never becomes current again. */
  lemma RetiredIsFinal(run: seq<Event>, i: nat, j: nat, b: Binding)
    requires i <= j <= |run| && b in After(run[..i]).gens && After(run[..i]).gens[b].status.RetiredGeneration?
    ensures !IsCurrent(After(run[..j]), b)
  {
    hide Inv, Next, LeasesEvolve, PresignsEvolve, AttemptsEvolve;
    RunEvolves(run, i, j);
    ReachableInv(run[..j]);
    if b in After(run[..j]).gens { NameOwner(After(run[..j]), b, b); }
  }

  /** A finished lease keeps its outcome until it is compacted, and its token is
      never handed out again. */
  lemma FinishedLeaseIsFinal(run: seq<Event>, i: nat, j: nat, t: Token)
    requires i <= j <= |run| && t in After(run[..i]).leases && !After(run[..i]).leases[t].state.Active?
    ensures t in After(run[..j]).leases ==> After(run[..j]).leases[t] == After(run[..i]).leases[t]
    ensures t !in After(run[..j]).leases ==> SessionTomb(After(run[..i]).leases[t].session) in After(run[..j]).tombs
  {
    hide Inv, Next, GensEvolve, PresignsEvolve, AttemptsEvolve;
    RunEvolves(run, i, j);
  }

  /** A terminal attempt keeps its outcome; it is never both aborted and
      delivered and completed. */
  lemma TerminalAttemptIsFinal(run: seq<Event>, i: nat, j: nat, id: string)
    requires i <= j <= |run| && id in After(run[..i]).attempts
    ensures var a := After(run[..i]).attempts[id];
            && !(a.aborted && a.delivered && a.completed)
            && (a.Terminal() && id in After(run[..j]).attempts ==> After(run[..j]).attempts[id] == a)
            && (id !in After(run[..j]).attempts ==> AttemptTomb(id) in After(run[..j]).tombs)
  {
    hide Inv, Next, GensEvolve, PresignsEvolve, LeasesEvolve;
    ReachableInv(run[..i]);
    AttemptFact(After(run[..i]), id);
    RunEvolves(run, i, j);
  }

  /** Once refresh is disabled for a key no refresh lease is ever active or
      granted on it again. */
  lemma RefreshDisabledForGood(run: seq<Event>, i: nat, j: nat, k: string, binding: Binding, session: SessionId)
    requires i <= j <= |run| && k in After(run[..i]).disabled && binding.keyId == k
    ensures forall t | t in After(run[..j]).leases && ActiveOnKey(After(run[..j]).leases[t], k) :: !After(run[..j]).leases[t].kind.Refresh?
    ensures AcquireRunLease(After(run[..j]), binding, Refresh, session).result.Err?
  {
    hide Inv, Next, GensEvolve, PresignsEvolve, LeasesEvolve, AttemptsEvolve;
    RunEvolves(run, i, j);
    ReachableInv(run[..j]);
    NoRefreshWhenDisabled(After(run[..j]), k);
  }

  lemma NoRefreshWhenDisabled(s: State, k: string)
    requires Inv(s) && k in s.disabled
    ensures forall t | t in s.leases && ActiveOnKey(s.leases[t], k) :: !s.leases[t].kind.Refresh?
  {
    hide Valid, NamesUnique, EffectsStrong, MetadataKept, AttemptsStrong, FencesStrong, TombsStrong;
  }

  // --------------------------------------------------- compacted identifiers

  /** The operation would bring the entombed identifier back into use. */
  predicate Reuses(op: Op, x: TombKey) {
    match x
    case SessionTomb(i) => ((op.OpAcquireLease? || op.OpQueryLease?) && op.session == i) || (op.OpAcquireReceiver? && op.anchor.session == i)
    case PresignTomb(id) => (op.OpCommitPresign? || op.OpCommitAttempt? || op.OpPrepareCandidate? || op.OpBurnPresign?) && op.presignId == id
    case ArtifactTomb(d) => op.OpCommitPresign? && Sha256(op.metadata) == d
    case AttemptTomb(id) =>
      (op.OpCommitAttempt? && op.intent.attemptId == id) || ((op.OpQueryAttempt? || op.OpProgress? || op.OpAbortAttempt?) && op.query.attemptId == id)
    case GenerationTomb(b) => op.OpInstallInitial? && op.binding == b
    case GenerationNameTomb(k, g) =>
      || (op.OpInstallInitial? && op.binding.keyId == k && op.binding.generation == g)
      || (op.OpBeginCutover? && op.target.keyId == k && op.target.generation == g)
      || (op.OpAcquireReceiver? && op.anchor.source.keyId == k && op.anchor.targetGeneration == g)
      || ((op.OpCutoverFromLease? || op.OpRetirement? || op.OpCommitChild? || op.OpCommitReshare?) && op.target.keyId == k && op.target.generation == g)
      || (op.OpCommitCutover? && op.fence.target.keyId == k && op.fence.target.generation == g)
    case CutoverTomb(t) => (op.OpCommitCutover? || op.OpAbortCutover?) && op.fence.token == t
  }

  /** The lease has already been used up by such an operation, which is now repeated. */
  predicate Repeats(s: State, op: Op) {
    (op.OpCutoverFromLease? || op.OpRetirement?) && op.lease.token in s.effects
  }

  /** A compacted identifier stays entombed in every later state of the run, names
      nothing live there, and every operation that would reuse it is refused; at
      most a used-up lease is answered again, which changes nothing. */
  lemma CompactedForGood(run: seq<Event>, i: nat, j: nat, x: TombKey, op: Op)
    requires i <= j <= |run| && x in After(run[..i]).tombs && Reuses(op, x)
    ensures x in After(run[..j]).tombs
    ensures var s := After(run[..j]); TombOk(x, s.tombs[x].keyId, s.gens, s.bySession, s.presigns, s.attempts, s.cutovers, s.nextCutover)
    ensures Apply(After(run[..j]), op).result.Err? || (Repeats(After(run[..j]), op) && Apply(After(run[..j]), op).state == After(run[..j]))
  {
    hide Inv, Next, GensEvolve, PresignsEvolve, LeasesEvolve, AttemptsEvolve, TombOk, Apply, Reuses;
    RunEvolves(run, i, j);
    ReachableInv(run[..j]);
    TombFact(After(run[..j]), x);
    ReuseRefused(After(run[..j]), x, op);
  }

  lemma TombFact(s: State, x: TombKey)
    requires Inv(s) && x in s.tombs
    ensures TombOk(x, s.tombs[x].keyId, s.gens, s.bySession, s.presigns, s.attempts, s.cutovers, s.nextCutover)
    ensures x.GenerationTomb? ==> GenerationNameTomb(x.binding.keyId, x.binding.generation) in s.tombs
  {
    hide Valid, NamesUnique, EffectsStrong, MetadataKept, DisabledStrong, AttemptsStrong, FencesStrong, TombOk;
  }

  lemma NameReuseRefused(s: State, x: TombKey, op: Op)
    requires Inv(s) && x in s.tombs && Reuses(op, x) && (x.GenerationTomb? || x.GenerationNameTomb? || x.CutoverTomb?)
    ensures Apply(s, op).result.Err? || (Repeats(s, op) && Apply(s, op).state == s)
  {
    hide Inv, InstallInitialGeneration, AcquireRunLease, AcquireReshareReceiverLease, CommitAvailablePresign, PreparePresignCandidate,
      CommitSignAttempt, QueryAttemptOutcome, RecordAttemptProgress, AbortAttempt, BurnPresign, BeginCutover, CommitCutover, AbortCutover,
      CommitChildGeneration, CommitReshareGeneration, LoadCurrentGeneration, QueryRunLease, FinishRunLease, MarkProtocolRefreshFailed,
      BeginCutoverFromLease, CommitRetirementFromLease;
    match op
    case OpInstallInitial(binding, blob, metadata) => InstallRefused(s, binding, blob, metadata);
    case OpAcquireReceiver(anchor) => ReceiverRefused(s, anchor);
    case OpBeginCutover(source, target) => BeginRefused(s, source, target);
    case OpCutoverFromLease(lease, target) => LeaseRefused(s, lease, target);
    case OpRetirement(lease, target) => LeaseRefused(s, lease, target);
    case OpCommitCutover(fence, blob, metadata) =>
      if x.CutoverTomb? { FenceRefused(s, fence, blob, metadata, ""); } else { CommitCutoverRefused(s, fence, blob, metadata); }
    case OpAbortCutover(fence, reason) => FenceRefused(s, fence, [], [], reason);
    case OpCommitChild(lease, target, blob, metadata) => ChildRefused(s, lease, target, blob, metadata);
    case OpCommitReshare(lease, target, blob, metadata) => ReshareRefused(s, lease, target, blob, metadata);
    case _ =>
  }

  lemma ReuseRefused(s: State, x: TombKey, op: Op)
    requires Inv(s) && x in s.tombs && Reuses(op, x)
    ensures Apply(s, op).result.Err? || (Repeats(s, op) && Apply(s, op).state == s)
  {
    hide *;
    if x.GenerationTomb? || x.GenerationNameTomb? || x.CutoverTomb? {
      NameReuseRefused(s, x, op);
    } else {
      IdentifierReuseRefused(s, x, op);
    }
  }

  lemma IdentifierReuseRefused(s: State, x: TombKey, op: Op)
    requires Inv(s) && x in s.tombs && Reuses(op, x) && !(x.GenerationTomb? || x.GenerationNameTomb? || x.CutoverTomb?)
    ensures Apply(s, op).result.Err?
  {
    hide Inv, InstallInitialGeneration, AcquireRunLease, AcquireReshareReceiverLease, CommitAvailablePresign, PreparePresignCandidate,
      CommitSignAttempt, QueryAttemptOutcome, RecordAttemptProgress, AbortAttempt, BurnPresign, BeginCutover, CommitCutover, AbortCutover,
      CommitChildGeneration, CommitReshareGeneration, LoadCurrentGeneration, QueryRunLease, FinishRunLease, MarkProtocolRefreshFailed,
      BeginCutoverFromLease, CommitRetirementFromLease;
    match op
    case OpAcquireLease(binding, kind, session) => SessionRefused(s, binding, kind, session);
    case OpQueryLease(binding, kind, session) => SessionRefused(s, binding, kind, session);
    case OpAcquireReceiver(anchor) => ReceiverRefused(s, anchor);
    case OpCommitPresign(lease, presignId, blob, metadata) => StoreRefused(s, lease, presignId, blob, metadata);
    case OpPrepareCandidate(_, presignId) => PresignRefused(s, op.binding, presignId, "");
    case OpBurnPresign(_, presignId, reason) => PresignRefused(s, op.binding, presignId, reason);
    case OpCommitAttempt(binding, presignId, intent, outbox) => ClaimRefused(s, binding, presignId, intent, outbox);
    case OpQueryAttempt(query) => AttemptRefused(s, query, [], Delivery, "");
    case OpProgress(query, value, kind) => AttemptRefused(s, query, value, kind, "");
    case OpAbortAttempt(query, reason) => AttemptRefused(s, query, [], Delivery, reason);
    case _ =>
  }

  lemma InstallRefused(s: State, binding: Binding, blob: Bytes, metadata: Bytes)
    requires GenerationTomb(binding) in s.tombs || GenerationNameTomb(binding.keyId, binding.generation) in s.tombs
    ensures InstallInitialGeneration(s, binding, blob, metadata).result.Err?
  {
  }

  lemma SessionRefused(s: State, binding: Binding, kind: RunKind, session: SessionId)
    requires SessionTomb(session) in s.tombs
    ensures AcquireRunLease(s, binding, kind, session).result.Err? && QueryRunLease(s, binding, kind, session).result.Err?
  {
  }

  lemma ReceiverRefused(s: State, anchor: ReceiverAnchor)
    requires Inv(s) && (SessionTomb(anchor.session) in s.tombs || GenerationNameTomb(anchor.source.keyId, anchor.targetGeneration) in s.tombs)
    ensures AcquireReshareReceiverLease(s, anchor).result.Err?
  {
    hide Inv, ValidAnchor, HasActiveLeaseForKey, HasNonTerminalAttemptForKey;
    if anchor.session in s.bySession && s.bySession[anchor.session] in s.anchors { AnchorFact(s, s.bySession[anchor.session]); }
  }

  lemma LeaseRefused(s: State, lease: Lease, target: Binding)
    requires GenerationNameTomb(target.keyId, target.generation) in s.tombs
    ensures var r := BeginCutoverFromLease(s, lease, target); r.result.Err? || (lease.token in s.effects && r.state == s)
    ensures var r := CommitRetirementFromLease(s, lease, target); r.result.Err? || (lease.token in s.effects && r.state == s)
  {
  }

  lemma StoreRefused(s: State, lease: Lease, presignId: string, blob: Bytes, metadata: Bytes)
    requires PresignTomb(presignId) in s.tombs || ArtifactTomb(Sha256(metadata)) in s.tombs
    ensures CommitAvailablePresign(s, lease, presignId, blob, metadata).result.Err?
  {
  }

  lemma PresignRefused(s: State, binding: Binding, presignId: string, reason: string)
    requires Inv(s) && PresignTomb(presignId) in s.tombs
    ensures PreparePresignCandidate(s, binding, presignId).result.Err? && BurnPresign(s, binding, presignId, reason).result.Err?
  {
    hide Inv;
    TombFact(s, PresignTomb(presignId));
  }

  lemma ClaimRefused(s: State, binding: Binding, presignId: string, intent: Intent, outbox: Bytes)
    requires AttemptTomb(intent.attemptId) in s.tombs || PresignTomb(presignId) in s.tombs
    ensures CommitSignAttempt(s, binding, presignId, intent, outbox).result.Err?
  {
  }

  lemma AttemptRefused(s: State, query: AttemptQuery, value: Bytes, kind: ProgressKind, reason: string)
    requires Inv(s) && AttemptTomb(query.attemptId) in s.tombs
    ensures QueryAttemptOutcome(s, query).result.Err? && RecordAttemptProgress(s, query, value, kind).result.Err? && AbortAttempt(s, query, reason).result.Err?
  {
    hide Inv;
    TombFact(s, AttemptTomb(query.attemptId));
  }

  lemma FenceRefused(s: State, fence: Fence, blob: Bytes, metadata: Bytes, reason: string)
    requires Inv(s) && CutoverTomb(fence.token) in s.tombs
    ensures CommitCutover(s, fence, blob, metadata).result.Err? && AbortCutover(s, fence, reason).result.Err?
  {
    hide Inv;
    TombFact(s, CutoverTomb(fence.token));
  }

  lemma BeginRefused(s: State, source: Binding, target: Binding)
    requires Inv(s) && GenerationNameTomb(target.keyId, target.generation) in s.tombs
    ensures BeginCutover(s, source, target).result.Err?
  {
    hide Inv;
    if source.keyId in s.cutoverByKey && s.cutoverByKey[source.keyId] in s.cutovers { CutoverFact(s, s.cutoverByKey[source.keyId]); }
  }

  lemma CommitCutoverRefused(s: State, fence: Fence, blob: Bytes, metadata: Bytes)
    requires Inv(s) && GenerationNameTomb(fence.target.keyId, fence.target.generation) in s.tombs
    ensures CommitCutover(s, fence, blob, metadata).result.Err?
  {
    hide Inv;
    if fence.token in s.cutovers { CutoverFact(s, fence.token); }
    TombFact(s, GenerationNameTomb(fence.target.keyId, fence.target.generation));
  }

  lemma ChildRefused(s: State, lease: Lease, target: Binding, blob: Bytes, metadata: Bytes)
    requires Inv(s) && GenerationNameTomb(target.keyId, target.generation) in s.tombs
    ensures CommitChildGeneration(s, lease, target, blob, metadata).result.Err?
  {
    hide Inv;
    TombFact(s, GenerationNameTomb(target.keyId, target.generation));
  }

  lemma ReshareRefused(s: State, lease: Lease, target: Binding, blob: Bytes, metadata: Bytes)
    requires Inv(s) && GenerationNameTomb(target.keyId, target.generation) in s.tombs
    ensures CommitReshareGeneration(s, lease, target, blob, metadata).result.Err?
  {
    hide Inv;
    TombFact(s, GenerationNameTomb(target.keyId, target.generation));
  }
}

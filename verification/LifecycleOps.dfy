/** The operations of the lifecycle store as functions of the state: every
    mutex-protected method is one atomic step, with the checks in the order the
    store makes them. */
module LifecycleOps {
  import opened Options
  import opened LifecycleRecords
  import opened LifecycleState

  datatype Reply =
    | UnitReply
    | GenerationReply(generation: Generation)
    | LeaseReply(lease: Lease)
    | DisabledReply(disabled: DisabledRecord)
    | CandidateReply(candidate: PresignCandidate)
    | CommitReply(created: bool, record: Attempt)
    | AttemptReply(record: Attempt)
    | FenceReply(fence: Fence)

  datatype Step = Step(state: State, result: Result<Reply>)

  function Refuse(s: State, e: Error): Step { Step(s, Err(e)) }

  function Answer(s: State, r: Reply): Step { Step(s, Ok(r)) }

  // ------------------------------------------------------------- generations

  function InstallInitialGeneration(s: State, binding: Binding, blob: Bytes, metadata: Bytes): Step {
    if !ValidBinding(binding) || !ValidBlob(blob, true) || !ValidBlob(metadata, false) then
      Refuse(s, InvalidRecord)
    else if GenerationTomb(binding) in s.tombs || GenerationNameTomb(binding.keyId, binding.generation) in s.tombs then
      Refuse(s, GenerationConflict)
    else if binding.keyId in s.current then
      var current := s.current[binding.keyId];
      if current == binding && current in s.gens && s.gens[current].status.CurrentGeneration?
         && s.gens[current].blob == blob && s.gens[current].metadata == metadata
      then Answer(s, GenerationReply(s.gens[current]))
      else Refuse(s, GenerationConflict)
    else if HasGenerationForKey(s.gens, binding.keyId) then
      Refuse(s, GenerationConflict)
    else if HasActiveLeaseForKey(s.leases, binding.keyId) then
      Refuse(s, RunLeaseConflict)
    else
      var record := Generation(binding, blob, metadata, CurrentGeneration);
      Answer(InstallCurrent(s, record), GenerationReply(record))
  }

  predicate SameTokens(s: State, t: State) { s.nextLease == t.nextLease && s.nextCutover == t.nextCutover }

  /** Makes `record` the current generation of its key. */
  function InstallCurrent(s: State, record: Generation): (r: State)
    ensures SameTokens(r, s)
  {
    s.(gens := s.gens[record.binding := record], current := s.current[record.binding.keyId := record.binding])
  }

  function LoadCurrentGeneration(s: State, keyId: string): Step {
    if !ValidText(keyId) then Refuse(s, InvalidRecord)
    else if keyId !in s.current then Refuse(s, GenerationNotCurrent)
    else
      var binding := s.current[keyId];
      if binding !in s.gens || !s.gens[binding].status.CurrentGeneration? then Refuse(s, LifecycleCorrupt)
      else Answer(s, GenerationReply(s.gens[binding]))
  }

  // ------------------------------------------------------------------ leases

  function AcquireRunLease(s: State, binding: Binding, kind: RunKind, session: SessionId): Step {
    if !ValidBinding(binding) || !ValidKind(kind) || !ValidSession(session) then
      Refuse(s, InvalidRecord)
    else if SessionTomb(session) in s.tombs then
      Refuse(s, SessionAlreadyUsed)
    else if kind.Refresh? && binding.keyId in s.disabled then
      Refuse(s, RefreshDisabled)
    else if session in s.bySession then
      var token := s.bySession[session];
      if token !in s.leases then Refuse(s, LifecycleCorrupt)
      else if token in s.anchors then Refuse(s, SessionAlreadyUsed)
      else
        var l := s.leases[token];
        if ActiveOn(l, binding) && l.kind == kind && l.session == session then Answer(s, LeaseReply(l))
        else Refuse(s, SessionAlreadyUsed)
    else if kind.Keygen? && (binding.keyId in s.current || HasGenerationForKey(s.gens, binding.keyId)) then
      Refuse(s, GenerationConflict)
    else if kind.Keygen? && HasActiveLeaseForKey(s.leases, binding.keyId) then
      Refuse(s, RunLeaseConflict)
    else if !kind.Keygen? && !IsCurrent(s, binding) then
      Refuse(s, GenerationNotCurrent)
    else if !kind.Keygen? && binding.keyId in s.cutoverByKey then
      Refuse(s, RunLeaseConflict)
    else if !kind.Keygen? && HasIncompatibleLease(s.leases, binding, kind) then
      Refuse(s, RunLeaseConflict)
    else
      var lease := Lease(s.nextLease + 1, binding, kind, session, Active);
      Answer(AddLease(s, lease), LeaseReply(lease))
  }

  /** Records a lease under its freshly allocated token. */
  function AddLease(s: State, lease: Lease): (r: State)
    ensures r.nextLease == lease.token && r.nextCutover == s.nextCutover
  {
    s.(leases := s.leases[lease.token := lease], bySession := s.bySession[lease.session := lease.token],
       nextLease := lease.token)
  }

  function AcquireReshareReceiverLease(s: State, anchor: ReceiverAnchor): Step {
    var keyId := anchor.source.keyId;
    if !ValidAnchor(anchor) then
      Refuse(s, InvalidRecord)
    else if SessionTomb(anchor.session) in s.tombs then
      Refuse(s, SessionAlreadyUsed)
    else if anchor.session in s.bySession then
      var token := s.bySession[anchor.session];
      if token in s.leases && token in s.anchors && s.leases[token].state.Active? && s.anchors[token] == anchor
      then Answer(s, LeaseReply(s.leases[token]))
      else Refuse(s, SessionAlreadyUsed)
    else if keyId in s.current then
      Refuse(s, GenerationConflict)
    else if HasActiveLeaseForKey(s.leases, keyId) then
      Refuse(s, RunLeaseConflict)
    else if keyId in s.cutoverByKey then
      Refuse(s, RunLeaseConflict)
    else if HasNonTerminalAttemptForKey(s.attempts, keyId) then
      Refuse(s, RunLeaseConflict)
    else if HasKeyGeneration(s.gens, s.tombs, keyId, anchor.targetGeneration) then
      Refuse(s, GenerationConflict)
    else
      var lease := Lease(s.nextLease + 1, anchor.source, Reshare, anchor.session, Active);
      Answer(AddReceiver(s, lease, anchor), LeaseReply(lease))
  }

  /** Records a receiver's lease together with the anchor it was granted for. */
  function AddReceiver(s: State, lease: Lease, anchor: ReceiverAnchor): (r: State)
    ensures r.nextLease == lease.token && r.nextCutover == s.nextCutover
  {
    AddLease(s, lease).(anchors := s.anchors[lease.token := anchor])
  }

  function QueryRunLease(s: State, binding: Binding, kind: RunKind, session: SessionId): Step {
    if !ValidBinding(binding) || !ValidKind(kind) || !ValidSession(session) then
      Refuse(s, InvalidRecord)
    else if SessionTomb(session) in s.tombs then
      Refuse(s, HistoryCompacted)
    else if session !in s.bySession then
      Refuse(s, RunLeaseNotFound)
    else if s.bySession[session] !in s.leases then
      Refuse(s, LifecycleCorrupt)
    else
      var l := s.leases[s.bySession[session]];
      if l.binding != binding || l.kind != kind || l.session != session then Refuse(s, RunLeaseConflict)
      else Answer(s, LeaseReply(l))
  }

  predicate SameLease(stored: Lease, lease: Lease) {
    stored.binding == lease.binding && stored.kind == lease.kind && stored.session == lease.session
  }

  function FinishRunLease(s: State, lease: Lease, outcome: LeaseOutcome): Step {
    if !ValidLease(lease) || outcome.OtherOutcome? then
      Refuse(s, InvalidRecord)
    else if lease.token !in s.leases then
      Refuse(s, if SessionTomb(lease.session) in s.tombs then HistoryCompacted else RunLeaseNotFound)
    else
      var stored := s.leases[lease.token];
      var wanted := if outcome.LeaseAborted? then Aborted else Completed;
      if !SameLease(stored, lease) then Refuse(s, RunLeaseConflict)
      else if stored.state == wanted then Answer(s, UnitReply)
      else if !stored.state.Active? then Refuse(s, RunLeaseConflict)
      else if lease.token in s.anchors && !outcome.LeaseAborted? then Refuse(s, RunLeaseConflict)
      else Answer(ReleaseLease(s, lease.token, wanted), UnitReply)
  }

  /** Ends a lease without an effect; a receiver's anchor goes with it. */
  function ReleaseLease(s: State, token: Token, state: LeaseState): (r: State)
    requires token in s.leases
    ensures SameTokens(r, s)
  {
    EndLease(s, token, state).(anchors := s.anchors - {token})
  }

  /** Moves one stored lease to a terminal state. */
  function EndLease(s: State, token: Token, state: LeaseState): State
    requires token in s.leases
  {
    s.(leases := s.leases[token := s.leases[token].(state := state)])
  }

  /** Ends a lease and records the durable effect it completed with. */
  function EndLeaseWith(s: State, token: Token, state: LeaseState, kind: EffectKind): State
    requires token in s.leases
  {
    EndLease(s, token, state).(effects := s.effects[token := Effect(token, kind)])
  }

  /** The error, if any, of presenting `lease` as an exact active lease. */
  function ExactActive(s: State, lease: Lease): (e: Option<Error>)
    ensures e.None? <==> lease.token in s.leases && SameLease(s.leases[lease.token], lease) && s.leases[lease.token].state.Active?
  {
    if lease.token !in s.leases then
      Some(if SessionTomb(lease.session) in s.tombs then HistoryCompacted else RunLeaseNotFound)
    else if !SameLease(s.leases[lease.token], lease) || !s.leases[lease.token].state.Active? then
      Some(RunLeaseConflict)
    else None
  }

  function MarkProtocolRefreshFailed(s: State, lease: Lease, reason: string): Step {
    var keyId := lease.binding.keyId;
    if !ValidLease(lease) || !lease.kind.Refresh? || !lease.state.Active? || !ValidText(reason) then
      Refuse(s, InvalidRecord)
    else if lease.token in s.effects then
      if s.effects[lease.token].kind == RefreshFailedEffect(reason) then
        if keyId !in s.disabled || s.disabled[keyId].session != lease.session || s.disabled[keyId].reason != reason
        then Refuse(s, LifecycleCorrupt)
        else Answer(s, DisabledReply(s.disabled[keyId]))
      else Refuse(s, RunLeaseConflict)
    else if ExactActive(s, lease).Some? then
      Refuse(s, ExactActive(s, lease).value)
    else if keyId in s.disabled then
      Refuse(s, RefreshDisabled)
    else
      var record := DisabledRecord(keyId, lease.session, reason);
      Answer(DisableRefresh(s, lease.token, record), DisabledReply(record))
  }

  /** Aborts a refresh run and bars its key from refreshing again. */
  function DisableRefresh(s: State, token: Token, record: DisabledRecord): (r: State)
    requires token in s.leases
    ensures SameTokens(r, s)
  {
    EndLeaseWith(s, token, Aborted, RefreshFailedEffect(record.reason)).(disabled := s.disabled[record.keyId := record])
  }

  // ---------------------------------------------------------------- presigns

  function CommitAvailablePresign(s: State, lease: Lease, presignId: string, blob: Bytes, metadata: Bytes): Step {
    var digest := EffectDigest(PresignLabel, lease.binding, presignId, blob, metadata);
    var artifact := Sha256(metadata);
    if !ValidLease(lease) || !lease.kind.Presigning? || !lease.state.Active? || !ValidPresignInput(lease.binding, presignId, blob, metadata) then
      Refuse(s, InvalidRecord)
    else if PresignTomb(presignId) in s.tombs || ArtifactTomb(artifact) in s.tombs then
      Refuse(s, PresignUnavailable)
    else if lease.token in s.effects then
      if s.effects[lease.token].kind == PresignEffect(presignId, digest) then
        if presignId !in s.presigns || s.presigns[presignId].binding != lease.binding || s.presigns[presignId].artifact != artifact
        then Refuse(s, LifecycleCorrupt)
        else if s.presigns[presignId].state.AvailablePresign? && (s.presigns[presignId].blob != blob || s.presigns[presignId].metadata != metadata)
        then Refuse(s, LifecycleCorrupt)
        else Answer(s, UnitReply)
      else Refuse(s, RunLeaseConflict)
    else if ExactActive(s, lease).Some? then
      Refuse(s, ExactActive(s, lease).value)
    else if !IsCurrent(s, lease.binding) then
      Refuse(s, GenerationNotCurrent)
    else if lease.binding.keyId in s.cutoverByKey then
      Refuse(s, RunLeaseConflict)
    else if presignId in s.presigns then
      Refuse(s, PresignUnavailable)
    else if HasConflictingArtifact(s.presigns, presignId, artifact) then
      Refuse(s, PresignUnavailable)
    else
      var presign := Presign(lease.binding, blob, metadata, artifact, AvailablePresign, "", "");
      Answer(StorePresign(s, lease.token, presignId, presign, digest), UnitReply)
  }

  /** Completes a presigning run with the presign it produced. */
  function StorePresign(s: State, token: Token, presignId: string, presign: Presign, digest: Digest): (r: State)
    requires token in s.leases
    ensures SameTokens(r, s)
  {
    EndLeaseWith(s, token, Completed, PresignEffect(presignId, digest)).(presigns := s.presigns[presignId := presign])
  }

  function PutPresign(s: State, id: string, p: Presign): State {
    s.(presigns := s.presigns[id := p])
  }

  function PreparePresignCandidate(s: State, binding: Binding, presignId: string): Step {
    if !ValidBinding(binding) || !ValidText(presignId) then Refuse(s, InvalidRecord)
    else if !IsCurrent(s, binding) then Refuse(s, GenerationNotCurrent)
    else if binding.keyId in s.cutoverByKey then Refuse(s, RunLeaseConflict)
    else if presignId !in s.presigns then
      Refuse(s, if PresignTomb(presignId) in s.tombs then HistoryCompacted else PresignUnavailable)
    else
      var p := s.presigns[presignId];
      if p.binding != binding then Refuse(s, PresignUnavailable)
      else match p.state
        case AvailablePresign => Answer(s, CandidateReply(PresignCandidate(binding, presignId, p.blob, p.metadata)))
        case BurnedPresign => Refuse(s, PresignBurned)
        case ClaimedPresign => Refuse(s, PresignUnavailable)
  }

  function BurnPresign(s: State, binding: Binding, presignId: string, reason: string): Step {
    if !ValidBinding(binding) || !ValidText(presignId) || !ValidText(reason) then Refuse(s, InvalidRecord)
    else if presignId !in s.presigns then
      Refuse(s, if PresignTomb(presignId) in s.tombs then PresignBurned else PresignUnavailable)
    else
      var p := s.presigns[presignId];
      if p.binding != binding then Refuse(s, PresignUnavailable)
      else match p.state
        case AvailablePresign =>
          var burned := p.(blob := [], metadata := [], state := BurnedPresign, reason := reason);
          Answer(PutPresign(s, presignId, burned), UnitReply)
        case BurnedPresign => if p.reason == reason then Answer(s, UnitReply) else Refuse(s, PresignBurned)
        case ClaimedPresign => Refuse(s, AttemptConflict)
  }

  // ---------------------------------------------------------------- attempts

  function CommitSignAttempt(s: State, binding: Binding, presignId: string, intent: Intent, outbox: Bytes): Step {
    var outboxDigest := Sha256(outbox);
    if !ValidBinding(binding) || !ValidText(presignId) || !ValidIntent(intent) || !ValidBlob(outbox, true) then
      Refuse(s, InvalidRecord)
    else if AttemptTomb(intent.attemptId) in s.tombs then
      Refuse(s, AttemptConflict)
    else if PresignTomb(presignId) in s.tombs then
      Refuse(s, PresignBurned)
    else if intent.attemptId in s.attempts then
      var existing := s.attempts[intent.attemptId];
      if SameBase(existing, binding, presignId, intent, outboxDigest) then Answer(s, CommitReply(false, existing))
      else if existing.presignId == presignId && existing.intent.intentDigest == intent.intentDigest
      then Refuse(s, AttemptNonDeterminism)
      else Refuse(s, AttemptConflict)
    else if !IsCurrent(s, binding) then
      Refuse(s, GenerationNotCurrent)
    else if binding.keyId in s.cutoverByKey then
      Refuse(s, RunLeaseConflict)
    else if !HasActiveSignLease(s, binding, intent.session) then
      Refuse(s, RunLeaseNotFound)
    else if presignId !in s.presigns || s.presigns[presignId].binding != binding then
      Refuse(s, PresignUnavailable)
    else
      var p := s.presigns[presignId];
      match p.state
      case BurnedPresign => Refuse(s, PresignBurned)
      case ClaimedPresign =>
        if p.attemptId !in s.attempts then Refuse(s, LifecycleCorrupt)
        else if s.attempts[p.attemptId].intent.intentDigest == intent.intentDigest then Refuse(s, AttemptNonDeterminism)
        else Refuse(s, AttemptConflict)
      case AvailablePresign =>
        var record := Attempt(binding, presignId, intent, p.metadata, outbox, outboxDigest, [], [], false, false, false, "");
        var claimed := p.(blob := [], metadata := [], state := ClaimedPresign, attemptId := intent.attemptId);
        Answer(PutPair(s, presignId, claimed, intent.attemptId, record), CommitReply(true, record))
  }

  /** Writes an attempt and the presign it stands on together. */
  function PutPair(s: State, id: string, p: Presign, aid: string, a: Attempt): (r: State)
    ensures SameTokens(r, s)
  {
    s.(presigns := s.presigns[id := p], attempts := s.attempts[aid := a])
  }

  function PutAttempt(s: State, aid: string, a: Attempt): State {
    s.(attempts := s.attempts[aid := a])
  }

  function QueryAttemptOutcome(s: State, query: AttemptQuery): Step {
    if !ValidQuery(query) then Refuse(s, InvalidRecord)
    else if AttemptTomb(query.attemptId) in s.tombs then Refuse(s, HistoryCompacted)
    else if query.attemptId !in s.attempts then Refuse(s, AttemptNotFound)
    else if !SameQuery(s.attempts[query.attemptId], query) then Refuse(s, AttemptConflict)
    else Answer(s, AttemptReply(s.attempts[query.attemptId]))
  }

  datatype ProgressKind = Delivery | Completion

  /** A successful attempt gives up its replayable outbox once it is terminal. */
  function ClearIfTerminal(a: Attempt): Attempt {
    if a.Terminal() then a.(exactOutbox := []) else a
  }

  function RecordProgress(a: Attempt, value: Bytes, kind: ProgressKind): Attempt {
    ClearIfTerminal(if kind.Delivery? then a.(delivery := value, delivered := true) else a.(completion := value, completed := true))
  }

  function RecordAttemptProgress(s: State, query: AttemptQuery, value: Bytes, kind: ProgressKind): Step {
    if !ValidQuery(query) || !ValidBlob(value, true) then Refuse(s, InvalidRecord)
    else if query.attemptId !in s.attempts then Refuse(s, AttemptNotFound)
    else
      var a := s.attempts[query.attemptId];
      if !SameQuery(a, query) || a.aborted then Refuse(s, AttemptConflict)
      else if (if kind.Delivery? then a.delivered else a.completed) then
        if (if kind.Delivery? then a.delivery else a.completion) == value then Answer(s, AttemptReply(a))
        else Refuse(s, AttemptConflict)
      else
        var record := RecordProgress(a, value, kind);
        Answer(PutAttempt(s, query.attemptId, record), AttemptReply(record))
  }

  /** The attempt is marked aborted before its presign is looked at, so the
      refusal for a missing claim would leave a changed state behind. */
  function AbortAttempt(s: State, query: AttemptQuery, reason: string): Step {
    if !ValidQuery(query) || !ValidText(reason) then Refuse(s, InvalidRecord)
    else if query.attemptId !in s.attempts then Refuse(s, AttemptNotFound)
    else
      var a := s.attempts[query.attemptId];
      if !SameQuery(a, query) then Refuse(s, AttemptConflict)
      else if a.Terminal() && !a.aborted then Refuse(s, AttemptConflict)
      else if a.aborted then
        if a.abortReason == reason then Answer(s, AttemptReply(a)) else Refuse(s, AttemptConflict)
      else
        var record := a.(aborted := true, abortReason := reason, exactOutbox := []);
        if a.presignId !in s.presigns || !s.presigns[a.presignId].state.ClaimedPresign? || s.presigns[a.presignId].attemptId != a.intent.attemptId
        then Refuse(PutAttempt(s, query.attemptId, record), LifecycleCorrupt)
        else
          var burned := s.presigns[a.presignId].(state := BurnedPresign, reason := reason);
          Answer(PutPair(s, a.presignId, burned, query.attemptId, record), AttemptReply(record))
  }

  // ---------------------------------------------------------------- cutovers

  function BeginCutover(s: State, source: Binding, target: Binding): Step {
    if !ValidCutoverBindings(source, target) then
      Refuse(s, InvalidRecord)
    else if source.keyId in s.cutoverByKey then
      var token := s.cutoverByKey[source.keyId];
      if token !in s.cutovers || !s.cutovers[token].state.ActiveCutover? then Refuse(s, LifecycleCorrupt)
      else if s.cutovers[token].fence.source == source && s.cutovers[token].fence.target == target
      then Answer(s, FenceReply(s.cutovers[token].fence))
      else Refuse(s, CutoverConflict)
    else if !IsCurrent(s, source) then
      Refuse(s, GenerationNotCurrent)
    else if HasKeyGeneration(s.gens, s.tombs, target.keyId, target.generation) then
      Refuse(s, GenerationConflict)
    else if HasActiveLease(s.leases, source) || HasNonTerminalAttempt(s.attempts, source) then
      Refuse(s, RunLeaseConflict)
    else
      var fence := Fence(s.nextCutover + 1, source, target);
      Answer(RaiseFence(s, fence), FenceReply(fence))
  }

  /** Fences the source lineage under a freshly allocated cutover token. */
  function RaiseFence(s: State, fence: Fence): (r: State)
    ensures r.nextLease == s.nextLease && r.nextCutover == fence.token
  {
    s.(cutovers := s.cutovers[fence.token := Cutover(fence, ActiveCutover, None, None, "")],
       cutoverByKey := s.cutoverByKey[fence.source.keyId := fence.token],
       nextCutover := fence.token)
  }

  function BeginCutoverFromLease(s: State, lease: Lease, target: Binding): Step {
    if !ValidLease(lease) || !lease.state.Active? || !CutoverKind(lease.kind) || !ValidCutoverBindings(lease.binding, target) then
      Refuse(s, InvalidRecord)
    else if lease.token in s.effects then
      var kind := s.effects[lease.token].kind;
      if !kind.CutoverEffect? || kind.target != target || kind.cutoverToken == 0 then Refuse(s, RunLeaseConflict)
      else if kind.cutoverToken !in s.cutovers || s.cutovers[kind.cutoverToken].fence.source != lease.binding
              || s.cutovers[kind.cutoverToken].fence.target != target
      then Refuse(s, LifecycleCorrupt)
      else Answer(s, FenceReply(s.cutovers[kind.cutoverToken].fence))
    else if ExactActive(s, lease).Some? then
      Refuse(s, ExactActive(s, lease).value)
    else if lease.binding.keyId in s.cutoverByKey then
      Refuse(s, CutoverConflict)
    else if !IsCurrent(s, lease.binding) then
      Refuse(s, GenerationNotCurrent)
    else if HasKeyGeneration(s.gens, s.tombs, target.keyId, target.generation) then
      Refuse(s, GenerationConflict)
    else if HasOtherActiveLease(s.leases, lease.binding, lease.token) || HasNonTerminalAttempt(s.attempts, lease.binding) then
      Refuse(s, RunLeaseConflict)
    else
      var fence := Fence(s.nextCutover + 1, lease.binding, target);
      Answer(FenceFromLease(s, lease.token, fence), FenceReply(fence))
  }

  /** Completes a run by fencing its lineage for the generation it produced. */
  function FenceFromLease(s: State, token: Token, fence: Fence): (r: State)
    requires token in s.leases
    ensures r.nextLease == s.nextLease && r.nextCutover == fence.token
  {
    EndLeaseWith(RaiseFence(s, fence), token, Completed, CutoverEffect(fence.target, fence.token))
  }

  /** Retires a current generation: its secrets are cleared and every presign of
      its epoch that is still usable is burned. */
  function Retire(s: State, source: Binding, reason: string): State
    requires source in s.gens
  {
    s.(gens := s.gens[source := s.gens[source].(status := RetiredGeneration, blob := [], metadata := [])],
       presigns := BurnEpochPresigns(s.presigns, s.attempts, source.keyId, source.epochId, reason))
  }

  function CommitRetirementFromLease(s: State, lease: Lease, target: Binding): Step {
    if !ValidLease(lease) || !lease.kind.Reshare? || !lease.state.Active? || !ValidCutoverBindings(lease.binding, target) then
      Refuse(s, InvalidRecord)
    else if lease.token in s.effects then
      if s.effects[lease.token].kind != RetirementEffect(target) then Refuse(s, RunLeaseConflict)
      else if lease.binding !in s.gens || !s.gens[lease.binding].status.RetiredGeneration?
              || s.gens[lease.binding].blob != [] || s.gens[lease.binding].metadata != []
      then Refuse(s, LifecycleCorrupt)
      else if lease.binding.keyId in s.current then Refuse(s, LifecycleCorrupt)
      else Answer(s, UnitReply)
    else if ExactActive(s, lease).Some? then
      Refuse(s, ExactActive(s, lease).value)
    else if lease.token in s.anchors then
      Refuse(s, RunLeaseConflict)
    else if !IsCurrent(s, lease.binding) then
      Refuse(s, GenerationNotCurrent)
    else if lease.binding.keyId in s.cutoverByKey then
      Refuse(s, RunLeaseConflict)
    else if HasOtherActiveLease(s.leases, lease.binding, lease.token) || HasNonTerminalAttempt(s.attempts, lease.binding) then
      Refuse(s, RunLeaseConflict)
    else if HasKeyGeneration(s.gens, s.tombs, target.keyId, target.generation) then
      Refuse(s, GenerationConflict)
    else
      Answer(RetireFromLease(s, lease.token, lease.binding, target, CUTOVER_REASON), UnitReply)
  }

  /** Completes a reshare by retiring a lineage this party leaves. */
  function RetireFromLease(s: State, token: Token, source: Binding, target: Binding, reason: string): (r: State)
    requires token in s.leases && source in s.gens
    ensures SameTokens(r, s)
  {
    EndLeaseWith(Retire(s, source, reason), token, Completed, RetirementEffect(target)).(current := s.current - {source.keyId})
  }

  function CommitCutover(s: State, fence: Fence, blob: Bytes, metadata: Bytes): Step {
    if !ValidFence(fence) || !ValidBlob(blob, true) || !ValidBlob(metadata, false) then
      Refuse(s, InvalidRecord)
    else if fence.token !in s.cutovers then
      Refuse(s, if CutoverTomb(fence.token) in s.tombs then HistoryCompacted else CutoverConflict)
    else
      var cutover := s.cutovers[fence.token];
      if cutover.fence != fence then Refuse(s, CutoverConflict)
      else if cutover.state.CommittedCutover? then
        if cutover.targetBlob != Some(Sha256(blob)) || cutover.targetMetadata != Some(Sha256(metadata)) then Refuse(s, CutoverConflict)
        else if fence.target !in s.gens || !s.gens[fence.target].status.CurrentGeneration? then Refuse(s, LifecycleCorrupt)
        else Answer(s, GenerationReply(s.gens[fence.target]))
      else if !cutover.state.ActiveCutover? then Refuse(s, CutoverConflict)
      else if fence.source.keyId !in s.cutoverByKey || s.cutoverByKey[fence.source.keyId] != fence.token then Refuse(s, CutoverConflict)
      else if !IsCurrent(s, fence.source) then Refuse(s, GenerationConflict)
      else if HasActiveLease(s.leases, fence.source) || HasNonTerminalAttempt(s.attempts, fence.source) then Refuse(s, RunLeaseConflict)
      else if fence.target in s.gens then Refuse(s, GenerationConflict)
      else
        var target := Generation(fence.target, blob, metadata, CurrentGeneration);
        var committed := cutover.(state := CommittedCutover, targetBlob := Some(Sha256(blob)), targetMetadata := Some(Sha256(metadata)));
        Answer(Replace(s, committed, target, CUTOVER_REASON), GenerationReply(target))
  }

  /** Retires the fenced generation and installs its successor in one step. */
  function Replace(s: State, c: Cutover, g: Generation, reason: string): (r: State)
    requires c.fence.source in s.gens
    ensures SameTokens(r, s)
  {
    PutCutover(InstallCurrent(Retire(s, c.fence.source, reason), g), c.fence.token, c)
  }

  /** Records how a cutover ended and lifts its fence. */
  function PutCutover(s: State, t: Token, c: Cutover): (r: State)
    ensures SameTokens(r, s)
  {
    s.(cutovers := s.cutovers[t := c], cutoverByKey := s.cutoverByKey - {c.fence.source.keyId})
  }

  function AbortCutover(s: State, fence: Fence, reason: string): Step {
    if !ValidFence(fence) || !ValidText(reason) then
      Refuse(s, InvalidRecord)
    else if fence.token !in s.cutovers then
      Refuse(s, if CutoverTomb(fence.token) in s.tombs then HistoryCompacted else CutoverConflict)
    else
      var cutover := s.cutovers[fence.token];
      if cutover.fence != fence then Refuse(s, CutoverConflict)
      else if cutover.state.AbortedCutover? then
        if cutover.reason == reason then Answer(s, UnitReply) else Refuse(s, CutoverConflict)
      else if !cutover.state.ActiveCutover? then Refuse(s, CutoverConflict)
      else if fence.source.keyId !in s.cutoverByKey || s.cutoverByKey[fence.source.keyId] != fence.token then Refuse(s, CutoverConflict)
      else
        var aborted := cutover.(state := AbortedCutover, reason := reason);
        Answer(PutCutover(s, fence.token, aborted), UnitReply)
  }

  // ----------------------------------------------- installation from a lease

  function CommitChildGeneration(s: State, lease: Lease, child: Binding, blob: Bytes, metadata: Bytes): Step {
    var digest := EffectDigest(ChildGenerationLabel, child, child.keyId, blob, metadata);
    if !ValidLease(lease) || !lease.kind.ChildDerivation? || !lease.state.Active?
       || !ValidBinding(child) || child.keyId == lease.binding.keyId || child.epochId == lease.binding.epochId
       || !ValidBlob(blob, true) || !ValidBlob(metadata, true)
    then
      Refuse(s, InvalidRecord)
    else if lease.token in s.effects then
      if s.effects[lease.token].kind == ChildEffect(child, digest) then
        if child !in s.gens || !s.gens[child].status.CurrentGeneration? || s.gens[child].blob != blob || s.gens[child].metadata != metadata
        then Refuse(s, LifecycleCorrupt)
        else Answer(s, GenerationReply(s.gens[child]))
      else Refuse(s, RunLeaseConflict)
    else if ExactActive(s, lease).Some? then
      Refuse(s, ExactActive(s, lease).value)
    else if !IsCurrent(s, lease.binding) then
      Refuse(s, GenerationNotCurrent)
    else if lease.binding.keyId in s.cutoverByKey then
      Refuse(s, RunLeaseConflict)
    else if child.keyId in s.current || HasGenerationForKey(s.gens, child.keyId)
            || HasKeyGeneration(s.gens, s.tombs, child.keyId, child.generation) || HasActiveLeaseForKey(s.leases, child.keyId)
    then
      Refuse(s, GenerationConflict)
    else
      var record := Generation(child, blob, metadata, CurrentGeneration);
      Answer(InstallChild(s, lease.token, record, digest), GenerationReply(record))
  }

  /** Completes a derivation by installing the child it produced. */
  function InstallChild(s: State, token: Token, record: Generation, digest: Digest): (r: State)
    requires token in s.leases
    ensures SameTokens(r, s)
  {
    EndLeaseWith(InstallCurrent(s, record), token, Completed, ChildEffect(record.binding, digest))
  }

  function CommitReshareGeneration(s: State, lease: Lease, target: Binding, blob: Bytes, metadata: Bytes): Step {
    var digest := EffectDigest(ReceiverGenerationLabel, target, target.keyId, blob, metadata);
    if !ValidLease(lease) || !lease.kind.Reshare? || !lease.state.Active?
       || !ValidBinding(target) || target.keyId != lease.binding.keyId || target.generation == lease.binding.generation
       || target.epochId == lease.binding.epochId
       || !ValidBlob(blob, true) || !ValidBlob(metadata, false)
    then
      Refuse(s, InvalidRecord)
    else if lease.token in s.effects then
      if s.effects[lease.token].kind == ReceiverEffect(target, digest) then
        if target !in s.gens || !s.gens[target].status.CurrentGeneration? || s.gens[target].blob != blob || s.gens[target].metadata != metadata
        then Refuse(s, LifecycleCorrupt)
        else if lease.token in s.anchors then Refuse(s, LifecycleCorrupt)
        else Answer(s, GenerationReply(s.gens[target]))
      else Refuse(s, RunLeaseConflict)
    else if ExactActive(s, lease).Some? then
      Refuse(s, ExactActive(s, lease).value)
    else if lease.token !in s.anchors || s.anchors[lease.token].source != lease.binding || s.anchors[lease.token].session != lease.session
            || s.anchors[lease.token].targetGeneration != target.generation
    then
      Refuse(s, RunLeaseConflict)
    else if target.keyId in s.current then
      Refuse(s, GenerationConflict)
    else if HasOtherActiveLeaseForKey(s.leases, target.keyId, lease.token) || HasNonTerminalAttemptForKey(s.attempts, target.keyId) then
      Refuse(s, RunLeaseConflict)
    else if target.keyId in s.cutoverByKey then
      Refuse(s, RunLeaseConflict)
    else if HasKeyGeneration(s.gens, s.tombs, target.keyId, target.generation) then
      Refuse(s, GenerationConflict)
    else
      var record := Generation(target, blob, metadata, CurrentGeneration);
      Answer(InstallReceived(s, lease.token, record, digest), GenerationReply(record))
  }

  /** Completes a receiver's reshare by installing the generation it received. */
  function InstallReceived(s: State, token: Token, record: Generation, digest: Digest): (r: State)
    requires token in s.leases
    ensures SameTokens(r, s)
  {
    EndLeaseWith(InstallCurrent(s, record), token, Completed, ReceiverEffect(record.binding, digest)).(anchors := s.anchors - {token})
  }

  // --------------------------------------------------------------- one step

  datatype Op =
    | OpInstallInitial(binding: Binding, blob: Bytes, metadata: Bytes)
    | OpLoadCurrent(keyId: string)
    | OpAcquireLease(binding: Binding, kind: RunKind, session: SessionId)
    | OpAcquireReceiver(anchor: ReceiverAnchor)
    | OpQueryLease(binding: Binding, kind: RunKind, session: SessionId)
    | OpFinishLease(lease: Lease, outcome: LeaseOutcome)
    | OpRefreshFailed(lease: Lease, reason: string)
    | OpCommitPresign(lease: Lease, presignId: string, blob: Bytes, metadata: Bytes)
    | OpPrepareCandidate(binding: Binding, presignId: string)
    | OpCommitAttempt(binding: Binding, presignId: string, intent: Intent, outbox: Bytes)
    | OpQueryAttempt(query: AttemptQuery)
    | OpProgress(query: AttemptQuery, value: Bytes, progress: ProgressKind)
    | OpAbortAttempt(query: AttemptQuery, reason: string)
    | OpBurnPresign(binding: Binding, presignId: string, reason: string)
    | OpBeginCutover(source: Binding, target: Binding)
    | OpCutoverFromLease(lease: Lease, target: Binding)
    | OpRetirement(lease: Lease, target: Binding)
    | OpCommitCutover(fence: Fence, blob: Bytes, metadata: Bytes)
    | OpAbortCutover(fence: Fence, reason: string)
    | OpCommitChild(lease: Lease, target: Binding, blob: Bytes, metadata: Bytes)
    | OpCommitReshare(lease: Lease, target: Binding, blob: Bytes, metadata: Bytes)

  function Apply(s: State, op: Op): Step {
    match op
    case OpInstallInitial(binding, blob, metadata) => InstallInitialGeneration(s, binding, blob, metadata)
    case OpLoadCurrent(keyId) => LoadCurrentGeneration(s, keyId)
    case OpAcquireLease(binding, kind, session) => AcquireRunLease(s, binding, kind, session)
    case OpAcquireReceiver(anchor) => AcquireReshareReceiverLease(s, anchor)
    case OpQueryLease(binding, kind, session) => QueryRunLease(s, binding, kind, session)
    case OpFinishLease(lease, outcome) => FinishRunLease(s, lease, outcome)
    case OpRefreshFailed(lease, reason) => MarkProtocolRefreshFailed(s, lease, reason)
    case OpCommitPresign(lease, presignId, blob, metadata) => CommitAvailablePresign(s, lease, presignId, blob, metadata)
    case OpPrepareCandidate(binding, presignId) => PreparePresignCandidate(s, binding, presignId)
    case OpCommitAttempt(binding, presignId, intent, outbox) => CommitSignAttempt(s, binding, presignId, intent, outbox)
    case OpQueryAttempt(query) => QueryAttemptOutcome(s, query)
    case OpProgress(query, value, progress) => RecordAttemptProgress(s, query, value, progress)
    case OpAbortAttempt(query, reason) => AbortAttempt(s, query, reason)
    case OpBurnPresign(binding, presignId, reason) => BurnPresign(s, binding, presignId, reason)
    case OpBeginCutover(source, target) => BeginCutover(s, source, target)
    case OpCutoverFromLease(lease, target) => BeginCutoverFromLease(s, lease, target)
    case OpRetirement(lease, target) => CommitRetirementFromLease(s, lease, target)
    case OpCommitCutover(fence, blob, metadata) => CommitCutover(s, fence, blob, metadata)
    case OpAbortCutover(fence, reason) => AbortCutover(s, fence, reason)
    case OpCommitChild(lease, target, blob, metadata) => CommitChildGeneration(s, lease, target, blob, metadata)
    case OpCommitReshare(lease, target, blob, metadata) => CommitReshareGeneration(s, lease, target, blob, metadata)
  }
}

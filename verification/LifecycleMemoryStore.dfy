/** The in-memory lifecycle store: an object whose methods check, and then update
    its maps and counters in place. Each method is one step of the model. */
module LifecycleMemoryStore {
  import opened Options
  import opened LifecycleRecords
  import opened LifecycleState
  import opened LifecycleOps
  import opened LifecycleInvariant
  import opened LifecyclePreservation
  import opened LifecycleInductive

  // ------------------------------------------------------------ lookups by scan

  method AnyGenerationForKey(gens: map<Binding, Generation>, keyId: string) returns (found: bool)
    ensures found <==> HasGenerationForKey(gens, keyId)
  {
    var todo := gens.Keys;
    while todo != {}
      invariant todo <= gens.Keys
      invariant forall b | b in gens && b !in todo :: b.keyId != keyId
      decreases todo
    {
      var b :| b in todo;
      if b.keyId == keyId { return true; }
      todo := todo - {b};
    }
    found := false;
  }

  method KeyGenerationTaken(gens: map<Binding, Generation>, tombs: map<TombKey, Tombstone>, keyId: string, generation: string) returns (found: bool)
    ensures found <==> HasKeyGeneration(gens, tombs, keyId, generation)
  {
    if GenerationNameTomb(keyId, generation) in tombs { return true; }
    var todo := gens.Keys;
    while todo != {}
      invariant todo <= gens.Keys
      invariant forall b | b in gens && b !in todo :: !(b.keyId == keyId && b.generation == generation)
      decreases todo
    {
      var b :| b in todo;
      if b.keyId == keyId && b.generation == generation { return true; }
      todo := todo - {b};
    }
    found := false;
  }

  method ArtifactTaken(presigns: map<string, Presign>, presignId: string, artifact: Digest) returns (found: bool)
    ensures found <==> HasConflictingArtifact(presigns, presignId, artifact)
  {
    var todo := presigns.Keys;
    while todo != {}
      invariant todo <= presigns.Keys
      invariant forall id | id in presigns && id !in todo :: !(id != presignId && presigns[id].artifact == artifact)
      decreases todo
    {
      var id :| id in todo;
      if id != presignId && presigns[id].artifact == artifact { return true; }
      todo := todo - {id};
    }
    found := false;
  }

  /** An active lease on the key, other than the excepted one, if one is excepted. */
  method AnyActiveLeaseForKey(leases: map<Token, Lease>, keyId: string, except: Option<Token>) returns (found: bool)
    ensures except.None? ==> (found <==> HasActiveLeaseForKey(leases, keyId))
    ensures except.Some? ==> (found <==> HasOtherActiveLeaseForKey(leases, keyId, except.value))
  {
    var todo := leases.Keys;
    while todo != {}
      invariant todo <= leases.Keys
      invariant forall t | t in leases && t !in todo && except != Some(t) :: !ActiveOnKey(leases[t], keyId)
      decreases todo
    {
      var t :| t in todo;
      if except != Some(t) && ActiveOnKey(leases[t], keyId) { return true; }
      todo := todo - {t};
    }
    found := false;
  }

  method AnyActiveLease(leases: map<Token, Lease>, b: Binding, except: Option<Token>) returns (found: bool)
    ensures except.None? ==> (found <==> HasActiveLease(leases, b))
    ensures except.Some? ==> (found <==> HasOtherActiveLease(leases, b, except.value))
  {
    var todo := leases.Keys;
    while todo != {}
      invariant todo <= leases.Keys
      invariant forall t | t in leases && t !in todo && except != Some(t) :: !ActiveOn(leases[t], b)
      decreases todo
    {
      var t :| t in todo;
      if except != Some(t) && ActiveOn(leases[t], b) { return true; }
      todo := todo - {t};
    }
    found := false;
  }

  method AnyIncompatibleLease(leases: map<Token, Lease>, b: Binding, requested: RunKind) returns (found: bool)
    ensures found <==> HasIncompatibleLease(leases, b, requested)
  {
    var todo := leases.Keys;
    while todo != {}
      invariant todo <= leases.Keys
      invariant forall t | t in leases && t !in todo :: !(ActiveOn(leases[t], b) && (ExclusiveKind(requested) || ExclusiveKind(leases[t].kind)))
      decreases todo
    {
      var t :| t in todo;
      if ActiveOn(leases[t], b) && (ExclusiveKind(requested) || ExclusiveKind(leases[t].kind)) { return true; }
      todo := todo - {t};
    }
    found := false;
  }

  method AnyNonTerminalAttempt(attempts: map<string, Attempt>, b: Binding) returns (found: bool)
    ensures found <==> HasNonTerminalAttempt(attempts, b)
  {
    var todo := attempts.Keys;
    while todo != {}
      invariant todo <= attempts.Keys
      invariant forall id | id in attempts && id !in todo :: !(attempts[id].binding == b && !attempts[id].Terminal())
      decreases todo
    {
      var id :| id in todo;
      if attempts[id].binding == b && !attempts[id].Terminal() { return true; }
      todo := todo - {id};
    }
    found := false;
  }

  method AnyNonTerminalAttemptForKey(attempts: map<string, Attempt>, keyId: string) returns (found: bool)
    ensures found <==> HasNonTerminalAttemptForKey(attempts, keyId)
  {
    var todo := attempts.Keys;
    while todo != {}
      invariant todo <= attempts.Keys
      invariant forall id | id in attempts && id !in todo :: !(attempts[id].binding.keyId == keyId && !attempts[id].Terminal())
      decreases todo
    {
      var id :| id in todo;
      if attempts[id].binding.keyId == keyId && !attempts[id].Terminal() { return true; }
      todo := todo - {id};
    }
    found := false;
  }

  /** Burns what is left of an epoch's presigns, one at a time. */
  method BurnEpoch(presigns: map<string, Presign>, attempts: map<string, Attempt>, keyId: string, epochId: EpochId, reason: string)
    returns (out: map<string, Presign>)
    ensures out == BurnEpochPresigns(presigns, attempts, keyId, epochId, reason)
  {
    out := presigns;
    var todo := presigns.Keys;
    while todo != {}
      invariant todo <= presigns.Keys && out.Keys == presigns.Keys
      invariant forall id | id in presigns :: out[id] == if id in todo then presigns[id] else BurnOnCutover(presigns[id], attempts, keyId, epochId, reason)
      decreases todo
    {
      var id :| id in todo;
      todo := todo - {id};
      var p := presigns[id];
      if p.binding.keyId == keyId && p.binding.epochId == epochId {
        if p.state.AvailablePresign? {
          out := out[id := p.(blob := [], metadata := [], state := BurnedPresign, reason := reason)];
        } else if p.state.ClaimedPresign? && p.attemptId in attempts && attempts[p.attemptId].Terminal() {
          out := out[id := p.(state := BurnedPresign, reason := reason)];
        }
      }
    }
  }

  class MemoryLifecycleStore {
    var gens: map<Binding, Generation>
    var current: map<string, Binding>
    var leases: map<Token, Lease>
    var bySession: map<SessionId, Token>
    var effects: map<Token, Effect>
    var disabled: map<string, DisabledRecord>
    var anchors: map<Token, ReceiverAnchor>
    var presigns: map<string, Presign>
    var attempts: map<string, Attempt>
    var cutovers: map<Token, Cutover>
    var cutoverByKey: map<string, Token>
    var tombs: map<TombKey, Tombstone>
    var nextLease: nat
    var nextCutover: nat

    ghost function View(): State
      reads this
    {
      State(gens, current, leases, bySession, effects, disabled, anchors, presigns, attempts, cutovers, cutoverByKey, tombs, nextLease, nextCutover)
    }

    constructor ()
      ensures View() == Empty && Inv(View())
    {
      gens, current, leases, bySession, effects, disabled := map[], map[], map[], map[], map[], map[];
      anchors, presigns, attempts, cutovers, cutoverByKey, tombs := map[], map[], map[], map[], map[], map[];
      nextLease, nextCutover := 0, 0;
      new;
      EmptyInv();
    }

    // ------------------------------------------------------ updates in place

    method Install(record: Generation)
      modifies this
      ensures View() == InstallCurrent(old(View()), record)
    {
      gens := gens[record.binding := record];
      current := current[record.binding.keyId := record.binding];
    }

    method Grant(lease: Lease)
      modifies this
      ensures View() == AddLease(old(View()), lease)
    {
      nextLease := lease.token;
      leases := leases[lease.token := lease];
      bySession := bySession[lease.session := lease.token];
    }

    method GrantReceiver(lease: Lease, anchor: ReceiverAnchor)
      modifies this
      ensures View() == AddReceiver(old(View()), lease, anchor)
    {
      Grant(lease);
      anchors := anchors[lease.token := anchor];
    }

    method EndWith(token: Token, state: LeaseState, kind: EffectKind)
      requires token in leases
      modifies this
      ensures View() == EndLeaseWith(old(View()), token, state, kind)
    {
      leases := leases[token := leases[token].(state := state)];
      effects := effects[token := Effect(token, kind)];
    }

    method DisableAndEnd(token: Token, record: DisabledRecord)
      requires token in leases
      modifies this
      ensures View() == DisableRefresh(old(View()), token, record)
    {
      EndWith(token, Aborted, RefreshFailedEffect(record.reason));
      disabled := disabled[record.keyId := record];
    }

    method StoreAndEnd(token: Token, presignId: string, presign: Presign, digest: Digest)
      requires token in leases
      modifies this
      ensures View() == StorePresign(old(View()), token, presignId, presign, digest)
    {
      EndWith(token, Completed, PresignEffect(presignId, digest));
      presigns := presigns[presignId := presign];
    }

    method InstallChildAndEnd(token: Token, record: Generation, digest: Digest)
      requires token in leases
      modifies this
      ensures View() == InstallChild(old(View()), token, record, digest)
    {
      Install(record);
      EndWith(token, Completed, ChildEffect(record.binding, digest));
    }

    method Raise(fence: Fence)
      modifies this
      ensures View() == RaiseFence(old(View()), fence)
    {
      nextCutover := fence.token;
      cutovers := cutovers[fence.token := Cutover(fence, ActiveCutover, None, None, "")];
      cutoverByKey := cutoverByKey[fence.source.keyId := fence.token];
    }

    method RaiseAndEnd(token: Token, fence: Fence)
      requires token in leases
      modifies this
      ensures View() == FenceFromLease(old(View()), token, fence)
    {
      Raise(fence);
      EndWith(token, Completed, CutoverEffect(fence.target, fence.token));
    }

    method RetireInPlace(source: Binding, reason: string)
      requires source in gens
      modifies this
      ensures View() == Retire(old(View()), source, reason)
    {
      hide BurnEpochPresigns;
      presigns := BurnEpoch(presigns, attempts, source.keyId, source.epochId, reason);
      gens := gens[source := gens[source].(status := RetiredGeneration, blob := [], metadata := [])];
    }

    method RetireAndEnd(token: Token, source: Binding, target: Binding, reason: string)
      requires token in leases && source in gens
      modifies this
      ensures View() == RetireFromLease(old(View()), token, source, target, reason)
    {
      hide BurnEpochPresigns;
      RetireInPlace(source, reason);
      EndWith(token, Completed, RetirementEffect(target));
      current := current - {source.keyId};
    }

    method ReplaceCurrent(cutover: Cutover, target: Generation, reason: string)
      requires cutover.fence.source in gens
      modifies this
      ensures View() == Replace(old(View()), cutover, target, reason)
    {
      hide Retire, InstallCurrent;
      RetireInPlace(cutover.fence.source, reason);
      Install(target);
      cutovers := cutovers[cutover.fence.token := cutover];
      cutoverByKey := cutoverByKey - {cutover.fence.source.keyId};
    }

    method InstallAndEnd(token: Token, record: Generation, digest: Digest)
      requires token in leases
      modifies this
      ensures View() == InstallReceived(old(View()), token, record, digest)
    {
      Install(record);
      EndWith(token, Completed, ReceiverEffect(record.binding, digest));
      anchors := anchors - {token};
    }

    // -------------------------------------------------------------- operations

    method InstallInitial(binding: Binding, blob: Bytes, metadata: Bytes) returns (r: Result<Reply>)
      modifies this
      ensures Step(View(), r) == InstallInitialGeneration(old(View()), binding, blob, metadata)
    {
      hide InstallCurrent, ValidBinding, ValidBlob, HasGenerationForKey, HasActiveLeaseForKey;
      if !ValidBinding(binding) || !ValidBlob(blob, true) || !ValidBlob(metadata, false) { return Err(InvalidRecord); }
      if GenerationTomb(binding) in tombs || GenerationNameTomb(binding.keyId, binding.generation) in tombs { return Err(GenerationConflict); }
      if binding.keyId in current {
        var c := current[binding.keyId];
        if c == binding && c in gens && gens[c].status.CurrentGeneration? && gens[c].blob == blob && gens[c].metadata == metadata {
          return Ok(GenerationReply(gens[c]));
        }
        return Err(GenerationConflict);
      }
      var stored := AnyGenerationForKey(gens, binding.keyId);
      if stored { return Err(GenerationConflict); }
      var active := AnyActiveLeaseForKey(leases, binding.keyId, None);
      if active { return Err(RunLeaseConflict); }
      var record := Generation(binding, blob, metadata, CurrentGeneration);
      Install(record);
      return Ok(GenerationReply(record));
    }

    method LoadCurrent(keyId: string) returns (r: Result<Reply>)
      ensures Step(View(), r) == LoadCurrentGeneration(View(), keyId)
    {
      hide ValidText;
      if !ValidText(keyId) { return Err(InvalidRecord); }
      if keyId !in current { return Err(GenerationNotCurrent); }
      var binding := current[keyId];
      if binding !in gens || !gens[binding].status.CurrentGeneration? { return Err(LifecycleCorrupt); }
      return Ok(GenerationReply(gens[binding]));
    }

    method AcquireLease(binding: Binding, kind: RunKind, session: SessionId) returns (r: Result<Reply>)
      modifies this
      ensures Step(View(), r) == AcquireRunLease(old(View()), binding, kind, session)
    {
      hide AddLease, ValidBinding, ValidKind, ValidSession, HasGenerationForKey, HasActiveLeaseForKey, HasIncompatibleLease, ActiveOn;
      if !ValidBinding(binding) || !ValidKind(kind) || !ValidSession(session) { return Err(InvalidRecord); }
      if SessionTomb(session) in tombs { return Err(SessionAlreadyUsed); }
      if kind.Refresh? && binding.keyId in disabled { return Err(RefreshDisabled); }
      if session in bySession {
        var token := bySession[session];
        if token !in leases { return Err(LifecycleCorrupt); }
        if token in anchors { return Err(SessionAlreadyUsed); }
        var stored := leases[token];
        if ActiveOn(stored, binding) && stored.kind == kind && stored.session == session { return Ok(LeaseReply(stored)); }
        return Err(SessionAlreadyUsed);
      }
      if kind.Keygen? {
        var known := AnyGenerationForKey(gens, binding.keyId);
        if binding.keyId in current || known { return Err(GenerationConflict); }
        var active := AnyActiveLeaseForKey(leases, binding.keyId, None);
        if active { return Err(RunLeaseConflict); }
      } else {
        if !IsCurrentIn(gens, current, binding) { return Err(GenerationNotCurrent); }
        if binding.keyId in cutoverByKey { return Err(RunLeaseConflict); }
        var incompatible := AnyIncompatibleLease(leases, binding, kind);
        if incompatible { return Err(RunLeaseConflict); }
      }
      var lease := Lease(nextLease + 1, binding, kind, session, Active);
      Grant(lease);
      return Ok(LeaseReply(lease));
    }

    method AcquireReceiver(anchor: ReceiverAnchor) returns (r: Result<Reply>)
      modifies this
      ensures Step(View(), r) == AcquireReshareReceiverLease(old(View()), anchor)
    {
      hide AddReceiver, ValidAnchor, HasKeyGeneration, HasActiveLeaseForKey, HasNonTerminalAttemptForKey;
      var keyId := anchor.source.keyId;
      if !ValidAnchor(anchor) { return Err(InvalidRecord); }
      if SessionTomb(anchor.session) in tombs { return Err(SessionAlreadyUsed); }
      if anchor.session in bySession {
        var token := bySession[anchor.session];
        if token in leases && token in anchors && leases[token].state.Active? && anchors[token] == anchor { return Ok(LeaseReply(leases[token])); }
        return Err(SessionAlreadyUsed);
      }
      if keyId in current { return Err(GenerationConflict); }
      var active := AnyActiveLeaseForKey(leases, keyId, None);
      if active { return Err(RunLeaseConflict); }
      if keyId in cutoverByKey { return Err(RunLeaseConflict); }
      var pending := AnyNonTerminalAttemptForKey(attempts, keyId);
      if pending { return Err(RunLeaseConflict); }
      var taken := KeyGenerationTaken(gens, tombs, keyId, anchor.targetGeneration);
      if taken { return Err(GenerationConflict); }
      var lease := Lease(nextLease + 1, anchor.source, Reshare, anchor.session, Active);
      GrantReceiver(lease, anchor);
      return Ok(LeaseReply(lease));
    }

    method QueryLease(binding: Binding, kind: RunKind, session: SessionId) returns (r: Result<Reply>)
      ensures Step(View(), r) == QueryRunLease(View(), binding, kind, session)
    {
      hide ValidBinding, ValidKind, ValidSession;
      if !ValidBinding(binding) || !ValidKind(kind) || !ValidSession(session) { return Err(InvalidRecord); }
      if SessionTomb(session) in tombs { return Err(HistoryCompacted); }
      if session !in bySession { return Err(RunLeaseNotFound); }
      if bySession[session] !in leases { return Err(LifecycleCorrupt); }
      var stored := leases[bySession[session]];
      if stored.binding != binding || stored.kind != kind || stored.session != session { return Err(RunLeaseConflict); }
      return Ok(LeaseReply(stored));
    }

    method FinishLease(lease: Lease, outcome: LeaseOutcome) returns (r: Result<Reply>)
      modifies this
      ensures Step(View(), r) == FinishRunLease(old(View()), lease, outcome)
    {
      hide ValidLease, SameLease;
      if !ValidLease(lease) || outcome.OtherOutcome? { return Err(InvalidRecord); }
      if lease.token !in leases {
        if SessionTomb(lease.session) in tombs { return Err(HistoryCompacted); }
        return Err(RunLeaseNotFound);
      }
      var stored := leases[lease.token];
      if !SameLease(stored, lease) { return Err(RunLeaseConflict); }
      var wanted := if outcome.LeaseAborted? then Aborted else Completed;
      if stored.state == wanted { return Ok(UnitReply); }
      if !stored.state.Active? { return Err(RunLeaseConflict); }
      if lease.token in anchors && !outcome.LeaseAborted? { return Err(RunLeaseConflict); }
      leases := leases[lease.token := stored.(state := wanted)];
      anchors := anchors - {lease.token};
      return Ok(UnitReply);
    }

    method RefreshFailed(lease: Lease, reason: string) returns (r: Result<Reply>)
      modifies this
      ensures Step(View(), r) == MarkProtocolRefreshFailed(old(View()), lease, reason)
    {
      hide DisableRefresh, ValidLease, ValidText, SameLease;
      var keyId := lease.binding.keyId;
      if !ValidLease(lease) || !lease.kind.Refresh? || !lease.state.Active? || !ValidText(reason) { return Err(InvalidRecord); }
      if lease.token in effects {
        if effects[lease.token].kind != RefreshFailedEffect(reason) { return Err(RunLeaseConflict); }
        if keyId !in disabled || disabled[keyId].session != lease.session || disabled[keyId].reason != reason { return Err(LifecycleCorrupt); }
        return Ok(DisabledReply(disabled[keyId]));
      }
      var wrong := CheckActive(lease);
      if wrong.Some? { return Err(wrong.value); }
      if keyId in disabled { return Err(RefreshDisabled); }
      var record := DisabledRecord(keyId, lease.session, reason);
      DisableAndEnd(lease.token, record);
      return Ok(DisabledReply(record));
    }

    /** The error of presenting a lease that is not stored, active and the same. */
    method CheckActive(lease: Lease) returns (e: Option<Error>)
      ensures e == ExactActive(View(), lease)
    {
      if lease.token !in leases {
        if SessionTomb(lease.session) in tombs { return Some(HistoryCompacted); }
        return Some(RunLeaseNotFound);
      }
      if !SameLease(leases[lease.token], lease) || !leases[lease.token].state.Active? { return Some(RunLeaseConflict); }
      return None;
    }

    method CommitPresign(lease: Lease, presignId: string, blob: Bytes, metadata: Bytes) returns (r: Result<Reply>)
      modifies this
      ensures Step(View(), r) == CommitAvailablePresign(old(View()), lease, presignId, blob, metadata)
    {
      hide StorePresign, ValidLease, ValidPresignInput, HasConflictingArtifact, SameLease, EffectDigest;
      if !ValidLease(lease) || !lease.kind.Presigning? || !lease.state.Active? || !ValidPresignInput(lease.binding, presignId, blob, metadata) {
        return Err(InvalidRecord);
      }
      var digest, artifact := EffectDigest(PresignLabel, lease.binding, presignId, blob, metadata), Sha256(metadata);
      if PresignTomb(presignId) in tombs || ArtifactTomb(artifact) in tombs { return Err(PresignUnavailable); }
      if lease.token in effects {
        if effects[lease.token].kind != PresignEffect(presignId, digest) { return Err(RunLeaseConflict); }
        if presignId !in presigns || presigns[presignId].binding != lease.binding || presigns[presignId].artifact != artifact { return Err(LifecycleCorrupt); }
        var p := presigns[presignId];
        if p.state.AvailablePresign? && (p.blob != blob || p.metadata != metadata) { return Err(LifecycleCorrupt); }
        return Ok(UnitReply);
      }
      var wrong := CheckActive(lease);
      if wrong.Some? { return Err(wrong.value); }
      if !IsCurrentIn(gens, current, lease.binding) { return Err(GenerationNotCurrent); }
      if lease.binding.keyId in cutoverByKey { return Err(RunLeaseConflict); }
      if presignId in presigns { return Err(PresignUnavailable); }
      var taken := ArtifactTaken(presigns, presignId, artifact);
      if taken { return Err(PresignUnavailable); }
      StoreAndEnd(lease.token, presignId, Presign(lease.binding, blob, metadata, artifact, AvailablePresign, "", ""), digest);
      return Ok(UnitReply);
    }

    method PrepareCandidate(binding: Binding, presignId: string) returns (r: Result<Reply>)
      ensures Step(View(), r) == PreparePresignCandidate(View(), binding, presignId)
    {
      hide ValidBinding, ValidText;
      if !ValidBinding(binding) || !ValidText(presignId) { return Err(InvalidRecord); }
      if !IsCurrentIn(gens, current, binding) { return Err(GenerationNotCurrent); }
      if binding.keyId in cutoverByKey { return Err(RunLeaseConflict); }
      if presignId !in presigns {
        if PresignTomb(presignId) in tombs { return Err(HistoryCompacted); }
        return Err(PresignUnavailable);
      }
      var p := presigns[presignId];
      if p.binding != binding { return Err(PresignUnavailable); }
      match p.state
      case AvailablePresign => return Ok(CandidateReply(PresignCandidate(binding, presignId, p.blob, p.metadata)));
      case BurnedPresign => return Err(PresignBurned);
      case ClaimedPresign => return Err(PresignUnavailable);
    }

    method Burn(binding: Binding, presignId: string, reason: string) returns (r: Result<Reply>)
      modifies this
      ensures Step(View(), r) == BurnPresign(old(View()), binding, presignId, reason)
    {
      hide ValidBinding, ValidText;
      if !ValidBinding(binding) || !ValidText(presignId) || !ValidText(reason) { return Err(InvalidRecord); }
      if presignId !in presigns {
        if PresignTomb(presignId) in tombs { return Err(PresignBurned); }
        return Err(PresignUnavailable);
      }
      var p := presigns[presignId];
      if p.binding != binding { return Err(PresignUnavailable); }
      match p.state
      case AvailablePresign =>
        presigns := presigns[presignId := p.(blob := [], metadata := [], state := BurnedPresign, reason := reason)];
        return Ok(UnitReply);
      case BurnedPresign =>
        if p.reason == reason { return Ok(UnitReply); }
        return Err(PresignBurned);
      case ClaimedPresign => return Err(AttemptConflict);
    }

    method CommitAttempt(binding: Binding, presignId: string, intent: Intent, outbox: Bytes) returns (r: Result<Reply>)
      modifies this
      ensures Step(View(), r) == CommitSignAttempt(old(View()), binding, presignId, intent, outbox)
    {
      hide ValidBinding, ValidText, ValidIntent, ValidBlob, SameBase, ActiveOn;
      if !ValidBinding(binding) || !ValidText(presignId) || !ValidIntent(intent) || !ValidBlob(outbox, true) { return Err(InvalidRecord); }
      var outboxDigest := Sha256(outbox);
      if AttemptTomb(intent.attemptId) in tombs { return Err(AttemptConflict); }
      if PresignTomb(presignId) in tombs { return Err(PresignBurned); }
      if intent.attemptId in attempts {
        var existing := attempts[intent.attemptId];
        if SameBase(existing, binding, presignId, intent, outboxDigest) { return Ok(CommitReply(false, existing)); }
        if existing.presignId == presignId && existing.intent.intentDigest == intent.intentDigest { return Err(AttemptNonDeterminism); }
        return Err(AttemptConflict);
      }
      if !IsCurrentIn(gens, current, binding) { return Err(GenerationNotCurrent); }
      if binding.keyId in cutoverByKey { return Err(RunLeaseConflict); }
      if intent.session !in bySession || bySession[intent.session] !in leases { return Err(RunLeaseNotFound); }
      var held := leases[bySession[intent.session]];
      if !ActiveOn(held, binding) || !held.kind.Signing? { return Err(RunLeaseNotFound); }
      if presignId !in presigns || presigns[presignId].binding != binding { return Err(PresignUnavailable); }
      var p := presigns[presignId];
      if p.state.BurnedPresign? { return Err(PresignBurned); }
      if p.state.ClaimedPresign? {
        if p.attemptId !in attempts { return Err(LifecycleCorrupt); }
        if attempts[p.attemptId].intent.intentDigest == intent.intentDigest { return Err(AttemptNonDeterminism); }
        return Err(AttemptConflict);
      }
      var record := Attempt(binding, presignId, intent, p.metadata, outbox, outboxDigest, [], [], false, false, false, "");
      attempts := attempts[intent.attemptId := record];
      presigns := presigns[presignId := p.(blob := [], metadata := [], state := ClaimedPresign, attemptId := intent.attemptId)];
      return Ok(CommitReply(true, record));
    }

    method QueryAttempt(query: AttemptQuery) returns (r: Result<Reply>)
      ensures Step(View(), r) == QueryAttemptOutcome(View(), query)
    {
      hide ValidQuery, SameQuery;
      if !ValidQuery(query) { return Err(InvalidRecord); }
      if AttemptTomb(query.attemptId) in tombs { return Err(HistoryCompacted); }
      if query.attemptId !in attempts { return Err(AttemptNotFound); }
      if !SameQuery(attempts[query.attemptId], query) { return Err(AttemptConflict); }
      return Ok(AttemptReply(attempts[query.attemptId]));
    }

    /** Delivery and completion are recorded alike; the outbox goes when both are. */
    method Progress(query: AttemptQuery, value: Bytes, kind: ProgressKind) returns (r: Result<Reply>)
      modifies this
      ensures Step(View(), r) == RecordAttemptProgress(old(View()), query, value, kind)
    {
      hide ValidQuery, ValidBlob, SameQuery;
      if !ValidQuery(query) || !ValidBlob(value, true) { return Err(InvalidRecord); }
      if query.attemptId !in attempts { return Err(AttemptNotFound); }
      var a := attempts[query.attemptId];
      if !SameQuery(a, query) || a.aborted { return Err(AttemptConflict); }
      if kind.Delivery? {
        if a.delivered {
          if a.delivery == value { return Ok(AttemptReply(a)); }
          return Err(AttemptConflict);
        }
        a := a.(delivery := value, delivered := true);
      } else {
        if a.completed {
          if a.completion == value { return Ok(AttemptReply(a)); }
          return Err(AttemptConflict);
        }
        a := a.(completion := value, completed := true);
      }
      if a.Terminal() { a := a.(exactOutbox := []); }
      attempts := attempts[query.attemptId := a];
      return Ok(AttemptReply(a));
    }

    method Abort(query: AttemptQuery, reason: string) returns (r: Result<Reply>)
      modifies this
      ensures Step(View(), r) == AbortAttempt(old(View()), query, reason)
    {
      hide ValidQuery, ValidText, SameQuery;
      if !ValidQuery(query) || !ValidText(reason) { return Err(InvalidRecord); }
      if query.attemptId !in attempts { return Err(AttemptNotFound); }
      var a := attempts[query.attemptId];
      if !SameQuery(a, query) { return Err(AttemptConflict); }
      if a.Terminal() && !a.aborted { return Err(AttemptConflict); }
      if a.aborted {
        if a.abortReason == reason { return Ok(AttemptReply(a)); }
        return Err(AttemptConflict);
      }
      var record := a.(aborted := true, abortReason := reason, exactOutbox := []);
      attempts := attempts[query.attemptId := record];
      if a.presignId !in presigns || !presigns[a.presignId].state.ClaimedPresign? || presigns[a.presignId].attemptId != a.intent.attemptId {
        return Err(LifecycleCorrupt);
      }
      presigns := presigns[a.presignId := presigns[a.presignId].(state := BurnedPresign, reason := reason)];
      return Ok(AttemptReply(record));
    }

    method Begin(source: Binding, target: Binding) returns (r: Result<Reply>)
      modifies this
      ensures Step(View(), r) == BeginCutover(old(View()), source, target)
    {
      hide RaiseFence, ValidCutoverBindings, HasKeyGeneration, HasActiveLease, HasNonTerminalAttempt;
      if !ValidCutoverBindings(source, target) { return Err(InvalidRecord); }
      if source.keyId in cutoverByKey {
        var token := cutoverByKey[source.keyId];
        if token !in cutovers || !cutovers[token].state.ActiveCutover? { return Err(LifecycleCorrupt); }
        if cutovers[token].fence.source == source && cutovers[token].fence.target == target { return Ok(FenceReply(cutovers[token].fence)); }
        return Err(CutoverConflict);
      }
      if !IsCurrentIn(gens, current, source) { return Err(GenerationNotCurrent); }
      var taken := KeyGenerationTaken(gens, tombs, target.keyId, target.generation);
      if taken { return Err(GenerationConflict); }
      var active := AnyActiveLease(leases, source, None);
      var pending := AnyNonTerminalAttempt(attempts, source);
      if active || pending { return Err(RunLeaseConflict); }
      var fence := Fence(nextCutover + 1, source, target);
      Raise(fence);
      return Ok(FenceReply(fence));
    }

    method BeginFromLease(lease: Lease, target: Binding) returns (r: Result<Reply>)
      modifies this
      ensures Step(View(), r) == BeginCutoverFromLease(old(View()), lease, target)
    {
      hide FenceFromLease, ValidLease, CutoverKind, SameLease, ValidCutoverBindings, HasKeyGeneration, HasOtherActiveLease, HasNonTerminalAttempt;
      if !ValidLease(lease) || !lease.state.Active? || !CutoverKind(lease.kind) || !ValidCutoverBindings(lease.binding, target) { return Err(InvalidRecord); }
      if lease.token in effects {
        var kind := effects[lease.token].kind;
        if !kind.CutoverEffect? || kind.target != target || kind.cutoverToken == 0 { return Err(RunLeaseConflict); }
        if kind.cutoverToken !in cutovers { return Err(LifecycleCorrupt); }
        var fence := cutovers[kind.cutoverToken].fence;
        if fence.source != lease.binding || fence.target != target { return Err(LifecycleCorrupt); }
        return Ok(FenceReply(fence));
      }
      var wrong := CheckActive(lease);
      if wrong.Some? { return Err(wrong.value); }
      if lease.binding.keyId in cutoverByKey { return Err(CutoverConflict); }
      if !IsCurrentIn(gens, current, lease.binding) { return Err(GenerationNotCurrent); }
      var taken := KeyGenerationTaken(gens, tombs, target.keyId, target.generation);
      if taken { return Err(GenerationConflict); }
      var active := AnyActiveLease(leases, lease.binding, Some(lease.token));
      var pending := AnyNonTerminalAttempt(attempts, lease.binding);
      if active || pending { return Err(RunLeaseConflict); }
      var fence := Fence(nextCutover + 1, lease.binding, target);
      RaiseAndEnd(lease.token, fence);
      return Ok(FenceReply(fence));
    }

    method CommitRetirement(lease: Lease, target: Binding) returns (r: Result<Reply>)
      modifies this
      ensures Step(View(), r) == CommitRetirementFromLease(old(View()), lease, target)
    {
      hide RetireFromLease, ValidLease, SameLease, ValidCutoverBindings, HasKeyGeneration, HasOtherActiveLease, HasNonTerminalAttempt, BurnEpochPresigns;
      if !ValidLease(lease) || !lease.kind.Reshare? || !lease.state.Active? || !ValidCutoverBindings(lease.binding, target) { return Err(InvalidRecord); }
      if lease.token in effects {
        if effects[lease.token].kind != RetirementEffect(target) { return Err(RunLeaseConflict); }
        if lease.binding !in gens || !gens[lease.binding].status.RetiredGeneration? || gens[lease.binding].blob != [] || gens[lease.binding].metadata != [] {
          return Err(LifecycleCorrupt);
        }
        if lease.binding.keyId in current { return Err(LifecycleCorrupt); }
        return Ok(UnitReply);
      }
      var wrong := CheckActive(lease);
      if wrong.Some? { return Err(wrong.value); }
      if lease.token in anchors { return Err(RunLeaseConflict); }
      if !IsCurrentIn(gens, current, lease.binding) { return Err(GenerationNotCurrent); }
      if lease.binding.keyId in cutoverByKey { return Err(RunLeaseConflict); }
      var active := AnyActiveLease(leases, lease.binding, Some(lease.token));
      var pending := AnyNonTerminalAttempt(attempts, lease.binding);
      if active || pending { return Err(RunLeaseConflict); }
      var taken := KeyGenerationTaken(gens, tombs, target.keyId, target.generation);
      if taken { return Err(GenerationConflict); }
      RetireAndEnd(lease.token, lease.binding, target, CUTOVER_REASON);
      return Ok(UnitReply);
    }

    method Commit(fence: Fence, blob: Bytes, metadata: Bytes) returns (r: Result<Reply>)
      modifies this
      ensures Step(View(), r) == CommitCutover(old(View()), fence, blob, metadata)
    {
      hide Replace, ValidFence, ValidBlob, HasActiveLease, HasNonTerminalAttempt, BurnEpochPresigns;
      if !ValidFence(fence) || !ValidBlob(blob, true) || !ValidBlob(metadata, false) { return Err(InvalidRecord); }
      if fence.token !in cutovers {
        if CutoverTomb(fence.token) in tombs { return Err(HistoryCompacted); }
        return Err(CutoverConflict);
      }
      var cutover := cutovers[fence.token];
      if cutover.fence != fence { return Err(CutoverConflict); }
      if cutover.state.CommittedCutover? {
        if cutover.targetBlob != Some(Sha256(blob)) || cutover.targetMetadata != Some(Sha256(metadata)) { return Err(CutoverConflict); }
        if fence.target !in gens || !gens[fence.target].status.CurrentGeneration? { return Err(LifecycleCorrupt); }
        return Ok(GenerationReply(gens[fence.target]));
      }
      if !cutover.state.ActiveCutover? { return Err(CutoverConflict); }
      if fence.source.keyId !in cutoverByKey || cutoverByKey[fence.source.keyId] != fence.token { return Err(CutoverConflict); }
      if !IsCurrentIn(gens, current, fence.source) { return Err(GenerationConflict); }
      var active := AnyActiveLease(leases, fence.source, None);
      var pending := AnyNonTerminalAttempt(attempts, fence.source);
      if active || pending { return Err(RunLeaseConflict); }
      if fence.target in gens { return Err(GenerationConflict); }
      var target := Generation(fence.target, blob, metadata, CurrentGeneration);
      ReplaceCurrent(cutover.(state := CommittedCutover, targetBlob := Some(Sha256(blob)), targetMetadata := Some(Sha256(metadata))), target, CUTOVER_REASON);
      return Ok(GenerationReply(target));
    }

    method AbortFence(fence: Fence, reason: string) returns (r: Result<Reply>)
      modifies this
      ensures Step(View(), r) == AbortCutover(old(View()), fence, reason)
    {
      hide ValidFence, ValidText;
      if !ValidFence(fence) || !ValidText(reason) { return Err(InvalidRecord); }
      if fence.token !in cutovers {
        if CutoverTomb(fence.token) in tombs { return Err(HistoryCompacted); }
        return Err(CutoverConflict);
      }
      var cutover := cutovers[fence.token];
      if cutover.fence != fence { return Err(CutoverConflict); }
      if cutover.state.AbortedCutover? {
        if cutover.reason == reason { return Ok(UnitReply); }
        return Err(CutoverConflict);
      }
      if !cutover.state.ActiveCutover? { return Err(CutoverConflict); }
      if fence.source.keyId !in cutoverByKey || cutoverByKey[fence.source.keyId] != fence.token { return Err(CutoverConflict); }
      cutovers := cutovers[fence.token := cutover.(state := AbortedCutover, reason := reason)];
      cutoverByKey := cutoverByKey - {fence.source.keyId};
      return Ok(UnitReply);
    }

    method CommitChild(lease: Lease, child: Binding, blob: Bytes, metadata: Bytes) returns (r: Result<Reply>)
      modifies this
      ensures Step(View(), r) == CommitChildGeneration(old(View()), lease, child, blob, metadata)
    {
      hide InstallChild, ValidLease, ValidBinding, ValidBlob, SameLease, HasKeyGeneration, HasGenerationForKey, HasActiveLeaseForKey, EffectDigest;
      if !ValidLease(lease) || !lease.kind.ChildDerivation? || !lease.state.Active?
         || !ValidBinding(child) || child.keyId == lease.binding.keyId || child.epochId == lease.binding.epochId
         || !ValidBlob(blob, true) || !ValidBlob(metadata, true)
      {
        return Err(InvalidRecord);
      }
      var digest := EffectDigest(ChildGenerationLabel, child, child.keyId, blob, metadata);
      if lease.token in effects {
        if effects[lease.token].kind != ChildEffect(child, digest) { return Err(RunLeaseConflict); }
        if child !in gens || !gens[child].status.CurrentGeneration? || gens[child].blob != blob || gens[child].metadata != metadata { return Err(LifecycleCorrupt); }
        return Ok(GenerationReply(gens[child]));
      }
      var wrong := CheckActive(lease);
      if wrong.Some? { return Err(wrong.value); }
      if !IsCurrentIn(gens, current, lease.binding) { return Err(GenerationNotCurrent); }
      if lease.binding.keyId in cutoverByKey { return Err(RunLeaseConflict); }
      var known := AnyGenerationForKey(gens, child.keyId);
      var taken := KeyGenerationTaken(gens, tombs, child.keyId, child.generation);
      var active := AnyActiveLeaseForKey(leases, child.keyId, None);
      if child.keyId in current || known || taken || active { return Err(GenerationConflict); }
      var record := Generation(child, blob, metadata, CurrentGeneration);
      InstallChildAndEnd(lease.token, record, digest);
      return Ok(GenerationReply(record));
    }

    method CommitReshare(lease: Lease, target: Binding, blob: Bytes, metadata: Bytes) returns (r: Result<Reply>)
      modifies this
      ensures Step(View(), r) == CommitReshareGeneration(old(View()), lease, target, blob, metadata)
    {
      hide InstallReceived, ValidLease, ValidBinding, ValidBlob, SameLease, HasKeyGeneration, HasOtherActiveLeaseForKey, HasNonTerminalAttemptForKey, EffectDigest;
      if !ValidLease(lease) || !lease.kind.Reshare? || !lease.state.Active?
         || !ValidBinding(target) || target.keyId != lease.binding.keyId || target.generation == lease.binding.generation
         || target.epochId == lease.binding.epochId || !ValidBlob(blob, true) || !ValidBlob(metadata, false)
      {
        return Err(InvalidRecord);
      }
      var digest := EffectDigest(ReceiverGenerationLabel, target, target.keyId, blob, metadata);
      if lease.token in effects {
        if effects[lease.token].kind != ReceiverEffect(target, digest) { return Err(RunLeaseConflict); }
        if target !in gens || !gens[target].status.CurrentGeneration? || gens[target].blob != blob || gens[target].metadata != metadata { return Err(LifecycleCorrupt); }
        if lease.token in anchors { return Err(LifecycleCorrupt); }
        return Ok(GenerationReply(gens[target]));
      }
      var wrong := CheckActive(lease);
      if wrong.Some? { return Err(wrong.value); }
      if lease.token !in anchors { return Err(RunLeaseConflict); }
      var anchor := anchors[lease.token];
      if anchor.source != lease.binding || anchor.session != lease.session || anchor.targetGeneration != target.generation { return Err(RunLeaseConflict); }
      if target.keyId in current { return Err(GenerationConflict); }
      var active := AnyActiveLeaseForKey(leases, target.keyId, Some(lease.token));
      var pending := AnyNonTerminalAttemptForKey(attempts, target.keyId);
      if active || pending { return Err(RunLeaseConflict); }
      if target.keyId in cutoverByKey { return Err(RunLeaseConflict); }
      var taken := KeyGenerationTaken(gens, tombs, target.keyId, target.generation);
      if taken { return Err(GenerationConflict); }
      var record := Generation(target, blob, metadata, CurrentGeneration);
      InstallAndEnd(lease.token, record, digest);
      return Ok(GenerationReply(record));
    }

    method HandleLease(op: Op) returns (r: Result<Reply>)
      requires op.OpAcquireLease? || op.OpAcquireReceiver? || op.OpQueryLease? || op.OpFinishLease? || op.OpRefreshFailed? || op.OpCommitPresign? || op.OpPrepareCandidate?
      modifies this
      ensures Step(View(), r) == Apply(old(View()), op)
    {
      hide InstallInitialGeneration, LoadCurrentGeneration, AcquireRunLease, AcquireReshareReceiverLease, QueryRunLease, FinishRunLease,
        MarkProtocolRefreshFailed, CommitAvailablePresign, PreparePresignCandidate, CommitSignAttempt, QueryAttemptOutcome, RecordAttemptProgress,
        AbortAttempt, BurnPresign, BeginCutover, BeginCutoverFromLease, CommitRetirementFromLease, CommitCutover, AbortCutover,
        CommitChildGeneration, CommitReshareGeneration;
      match op
      case OpAcquireLease(binding, kind, session) => r := AcquireLease(binding, kind, session);
      case OpAcquireReceiver(anchor) => r := AcquireReceiver(anchor);
      case OpQueryLease(binding, kind, session) => r := QueryLease(binding, kind, session);
      case OpFinishLease(lease, outcome) => r := FinishLease(lease, outcome);
      case OpRefreshFailed(lease, reason) => r := RefreshFailed(lease, reason);
      case OpCommitPresign(lease, presignId, blob, metadata) => r := CommitPresign(lease, presignId, blob, metadata);
      case OpPrepareCandidate(binding, presignId) => r := PrepareCandidate(binding, presignId);
    }

    method HandleAttempt(op: Op) returns (r: Result<Reply>)
      requires op.OpCommitAttempt? || op.OpQueryAttempt? || op.OpProgress? || op.OpAbortAttempt? || op.OpBurnPresign?
      modifies this
      ensures Step(View(), r) == Apply(old(View()), op)
    {
      hide InstallInitialGeneration, LoadCurrentGeneration, AcquireRunLease, AcquireReshareReceiverLease, QueryRunLease, FinishRunLease,
        MarkProtocolRefreshFailed, CommitAvailablePresign, PreparePresignCandidate, CommitSignAttempt, QueryAttemptOutcome, RecordAttemptProgress,
        AbortAttempt, BurnPresign, BeginCutover, BeginCutoverFromLease, CommitRetirementFromLease, CommitCutover, AbortCutover,
        CommitChildGeneration, CommitReshareGeneration;
      match op
      case OpCommitAttempt(binding, presignId, intent, outbox) => r := CommitAttempt(binding, presignId, intent, outbox);
      case OpQueryAttempt(query) => r := QueryAttempt(query);
      case OpProgress(query, value, progress) => r := Progress(query, value, progress);
      case OpAbortAttempt(query, reason) => r := Abort(query, reason);
      case OpBurnPresign(binding, presignId, reason) => r := Burn(binding, presignId, reason);
    }

    method HandleCutover(op: Op) returns (r: Result<Reply>)
      requires op.OpBeginCutover? || op.OpCutoverFromLease? || op.OpRetirement? || op.OpCommitCutover? || op.OpAbortCutover?
      modifies this
      ensures Step(View(), r) == Apply(old(View()), op)
    {
      hide InstallInitialGeneration, LoadCurrentGeneration, AcquireRunLease, AcquireReshareReceiverLease, QueryRunLease, FinishRunLease,
        MarkProtocolRefreshFailed, CommitAvailablePresign, PreparePresignCandidate, CommitSignAttempt, QueryAttemptOutcome, RecordAttemptProgress,
        AbortAttempt, BurnPresign, BeginCutover, BeginCutoverFromLease, CommitRetirementFromLease, CommitCutover, AbortCutover,
        CommitChildGeneration, CommitReshareGeneration;
      match op
      case OpBeginCutover(source, target) => r := Begin(source, target);
      case OpCutoverFromLease(lease, target) => r := BeginFromLease(lease, target);
      case OpRetirement(lease, target) => r := CommitRetirement(lease, target);
      case OpCommitCutover(fence, blob, metadata) => r := Commit(fence, blob, metadata);
      case OpAbortCutover(fence, reason) => r := AbortFence(fence, reason);
    }

    method HandleGeneration(op: Op) returns (r: Result<Reply>)
      requires op.OpInstallInitial? || op.OpLoadCurrent? || op.OpCommitChild? || op.OpCommitReshare?
      modifies this
      ensures Step(View(), r) == Apply(old(View()), op)
    {
      hide InstallInitialGeneration, LoadCurrentGeneration, AcquireRunLease, AcquireReshareReceiverLease, QueryRunLease, FinishRunLease,
        MarkProtocolRefreshFailed, CommitAvailablePresign, PreparePresignCandidate, CommitSignAttempt, QueryAttemptOutcome, RecordAttemptProgress,
        AbortAttempt, BurnPresign, BeginCutover, BeginCutoverFromLease, CommitRetirementFromLease, CommitCutover, AbortCutover,
        CommitChildGeneration, CommitReshareGeneration;
      match op
      case OpInstallInitial(binding, blob, metadata) => r := InstallInitial(binding, blob, metadata);
      case OpLoadCurrent(keyId) => r := LoadCurrent(keyId);
      case OpCommitChild(lease, target, blob, metadata) => r := CommitChild(lease, target, blob, metadata);
      case OpCommitReshare(lease, target, blob, metadata) => r := CommitReshare(lease, target, blob, metadata);
    }

    /** One operation: the store takes the model's step and keeps the invariant. */
    method Handle(op: Op) returns (r: Result<Reply>)
      requires Inv(View())
      modifies this
      ensures Step(View(), r) == Apply(old(View()), op) && Inv(View())
    {
      hide Inv, Apply;
      StepKeepsInv(View(), op);
      if op.OpAcquireLease? || op.OpAcquireReceiver? || op.OpQueryLease? || op.OpFinishLease? || op.OpRefreshFailed? || op.OpCommitPresign? || op.OpPrepareCandidate? {
        r := HandleLease(op);
      } else if op.OpCommitAttempt? || op.OpQueryAttempt? || op.OpProgress? || op.OpAbortAttempt? || op.OpBurnPresign? {
        r := HandleAttempt(op);
      } else if op.OpBeginCutover? || op.OpCutoverFromLease? || op.OpRetirement? || op.OpCommitCutover? || op.OpAbortCutover? {
        r := HandleCutover(op);
      } else {
        r := HandleGeneration(op);
      }
    }
  }
}

/** The whole state of one lifecycle store, as a value, and the questions its
    operations ask of it. */
module LifecycleState {
  import opened LifecycleRecords

  datatype State = State(
    gens: map<Binding, Generation>,
    current: map<string, Binding>,
    leases: map<Token, Lease>,
    bySession: map<SessionId, Token>,
    effects: map<Token, Effect>,
    disabled: map<string, DisabledRecord>,
    anchors: map<Token, ReceiverAnchor>,
    presigns: map<string, Presign>,
    attempts: map<string, Attempt>,
    cutovers: map<Token, Cutover>,
    cutoverByKey: map<string, Token>,
    tombs: map<TombKey, Tombstone>,
    nextLease: nat,
    nextCutover: nat)

  const Empty := State(map[], map[], map[], map[], map[], map[], map[], map[], map[], map[], map[], map[], 0, 0)

  predicate IsCurrentIn(gens: map<Binding, Generation>, current: map<string, Binding>, b: Binding) {
    b.keyId in current && current[b.keyId] == b && b in gens && gens[b].status.CurrentGeneration?
  }

  predicate IsCurrent(s: State, b: Binding) { IsCurrentIn(s.gens, s.current, b) }

  predicate HasGenerationForKey(gens: map<Binding, Generation>, keyId: string) {
    exists b :: b in gens && b.keyId == keyId
  }

  /** A generation name is taken by a stored generation or by its tombstone. */
  predicate HasKeyGeneration(gens: map<Binding, Generation>, tombs: map<TombKey, Tombstone>, keyId: string, generation: string) {
    || GenerationNameTomb(keyId, generation) in tombs
    || exists b :: b in gens && b.keyId == keyId && b.generation == generation
  }

  predicate HasConflictingArtifact(presigns: map<string, Presign>, presignId: string, artifact: Digest) {
    exists id :: id in presigns && id != presignId && presigns[id].artifact == artifact
  }

  predicate ActiveOnKey(l: Lease, keyId: string) { l.binding.keyId == keyId && l.state.Active? }

  predicate HasActiveLeaseForKey(leases: map<Token, Lease>, keyId: string) {
    exists t :: t in leases && ActiveOnKey(leases[t], keyId)
  }

  predicate HasOtherActiveLeaseForKey(leases: map<Token, Lease>, keyId: string, except: Token) {
    exists t :: t in leases && t != except && ActiveOnKey(leases[t], keyId)
  }

  predicate ActiveOn(l: Lease, b: Binding) { l.binding == b && l.state.Active? }

  predicate HasActiveLease(leases: map<Token, Lease>, b: Binding) {
    exists t :: t in leases && ActiveOn(leases[t], b)
  }

  predicate HasOtherActiveLease(leases: map<Token, Lease>, b: Binding, except: Token) {
    exists t :: t in leases && t != except && ActiveOn(leases[t], b)
  }

  predicate HasIncompatibleLease(leases: map<Token, Lease>, b: Binding, requested: RunKind) {
    exists t :: t in leases && ActiveOn(leases[t], b) && (ExclusiveKind(requested) || ExclusiveKind(leases[t].kind))
  }

  predicate HasActiveSignLease(s: State, b: Binding, session: SessionId) {
    && session in s.bySession && s.bySession[session] in s.leases
    && var l := s.leases[s.bySession[session]]; ActiveOn(l, b) && l.kind.Signing?
  }

  predicate HasNonTerminalAttempt(attempts: map<string, Attempt>, b: Binding) {
    exists id :: id in attempts && attempts[id].binding == b && !attempts[id].Terminal()
  }

  predicate HasNonTerminalAttemptForKey(attempts: map<string, Attempt>, keyId: string) {
    exists id :: id in attempts && attempts[id].binding.keyId == keyId && !attempts[id].Terminal()
  }

  /** What happens to one presign when the epoch (keyId, epochId) is cut over. */
  function BurnOnCutover(p: Presign, attempts: map<string, Attempt>, keyId: string, epochId: EpochId, reason: string): Presign {
    if p.binding.keyId != keyId || p.binding.epochId != epochId then p
    else if p.state.AvailablePresign? then
      p.(blob := [], metadata := [], state := BurnedPresign, reason := reason)
    else if p.state.ClaimedPresign? && p.attemptId in attempts && attempts[p.attemptId].Terminal() then
      p.(state := BurnedPresign, reason := reason)
    else p
  }

  function BurnEpochPresigns(presigns: map<string, Presign>, attempts: map<string, Attempt>, keyId: string, epochId: EpochId, reason: string): map<string, Presign> {
    map id | id in presigns :: BurnOnCutover(presigns[id], attempts, keyId, epochId, reason)
  }
}

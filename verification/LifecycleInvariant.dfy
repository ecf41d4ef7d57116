/** The store's own validator, read as a predicate (`Valid`), and the facts that
    make it inductive (`Strong`). Each section takes only the maps it reads, so
    that an operation leaves alone every section whose maps it leaves alone. */
module LifecycleInvariant {
  import opened LifecycleRecords
  import opened LifecycleState

  // ------------------------------------------------------------- generations

  predicate GenerationOk(g: Generation, b: Binding, current: map<string, Binding>) {
    && ValidBinding(b) && g.binding == b
    && (g.status.CurrentGeneration? ==> b.keyId in current && current[b.keyId] == b && g.blob != [])
    && (g.status.RetiredGeneration? ==> g.blob == [] && g.metadata == [])
  }

  predicate GenerationsValid(gens: map<Binding, Generation>, current: map<string, Binding>) {
    && (forall b | b in gens :: GenerationOk(gens[b], b, current))
    && (forall k | k in current :: current[k].keyId == k && IsCurrentIn(gens, current, current[k]))
  }

  // ------------------------------------------------------------------ leases

  predicate LeaseOk(l: Lease, t: Token, bySession: map<SessionId, Token>, nextLease: nat) {
    && l.token == t && ValidLease(l) && t <= nextLease
    && l.session in bySession && bySession[l.session] == t
  }

  predicate LeasesValid(leases: map<Token, Lease>, bySession: map<SessionId, Token>, nextLease: nat) {
    && (forall t | t in leases :: LeaseOk(leases[t], t, bySession, nextLease))
    && (forall i | i in bySession :: bySession[i] in leases && leases[bySession[i]].session == i)
  }

  predicate ReceiverOk(l: Lease, a: ReceiverAnchor, gens: map<Binding, Generation>, current: map<string, Binding>,
                       attempts: map<string, Attempt>, cutoverByKey: map<string, Token>, tombs: map<TombKey, Tombstone>)
  {
    && ValidAnchor(a) && l.kind.Reshare? && a.source == l.binding && a.session == l.session
    && l.binding.keyId !in current
    && !HasKeyGeneration(gens, tombs, l.binding.keyId, a.targetGeneration)
    && !HasNonTerminalAttemptForKey(attempts, l.binding.keyId)
    && l.binding.keyId !in cutoverByKey
  }

  /** What an active lease that joins no reshare demands of its key. */
  predicate HolderOk(l: Lease, gens: map<Binding, Generation>, current: map<string, Binding>) {
    if l.kind.Keygen? then l.binding.keyId !in current && !HasGenerationForKey(gens, l.binding.keyId)
    else IsCurrentIn(gens, current, l.binding)
  }

  predicate Overlap(l: Lease, m: Lease) {
    l.state.Active? && m.state.Active? && l.binding.keyId == m.binding.keyId && ExclusiveKind(l.kind)
  }

  predicate HoldersValid(leases: map<Token, Lease>, anchors: map<Token, ReceiverAnchor>,
                         gens: map<Binding, Generation>, current: map<string, Binding>,
                         attempts: map<string, Attempt>, cutoverByKey: map<string, Token>, tombs: map<TombKey, Tombstone>)
  {
    && (forall t | t in anchors :: t in leases && leases[t].state.Active?
                                   && ReceiverOk(leases[t], anchors[t], gens, current, attempts, cutoverByKey, tombs))
    && (forall t | t in leases :: leases[t].state.Active? && t !in anchors ==> HolderOk(leases[t], gens, current))
    && ExclusiveAlone(leases)
  }

  predicate ExclusiveAlone(leases: map<Token, Lease>) {
    forall t, u | t in leases && u in leases :: Overlap(leases[t], leases[u]) ==> t == u
  }

  // ----------------------------------------------------------------- effects

  predicate EffectOk(e: Effect, l: Lease, presigns: map<string, Presign>, cutovers: map<Token, Cutover>,
                     disabled: map<string, DisabledRecord>, gens: map<Binding, Generation>)
  {
    match e.kind
    case PresignEffect(id, digest) =>
      l.kind.Presigning? && l.state.Completed? && ValidText(id) && id in presigns
    case CutoverEffect(target, token) =>
      && CutoverKind(l.kind) && l.state.Completed? && target.keyId == l.binding.keyId
      && token in cutovers && cutovers[token].fence.source == l.binding && cutovers[token].fence.target == target
    case RefreshFailedEffect(reason) =>
      && l.kind.Refresh? && l.state.Aborted? && l.binding.keyId in disabled
      && disabled[l.binding.keyId].session == l.session && disabled[l.binding.keyId].reason == reason
    case ChildEffect(target, digest) =>
      && l.kind.ChildDerivation? && l.state.Completed?
      && target.keyId != l.binding.keyId && target.epochId != l.binding.epochId && ValidBinding(target) && target in gens
    case ReceiverEffect(target, digest) =>
      && l.kind.Reshare? && l.state.Completed? && target.keyId == l.binding.keyId
      && target.generation != l.binding.generation && target.epochId != l.binding.epochId && ValidBinding(target) && target in gens
    case RetirementEffect(target) =>
      && l.kind.Reshare? && l.state.Completed? && ValidCutoverBindings(l.binding, target)
      && l.binding in gens && gens[l.binding].status.RetiredGeneration?
      && gens[l.binding].blob == [] && gens[l.binding].metadata == []
  }

  predicate EffectsValid(effects: map<Token, Effect>, leases: map<Token, Lease>, presigns: map<string, Presign>,
                         cutovers: map<Token, Cutover>, disabled: map<string, DisabledRecord>, gens: map<Binding, Generation>)
  {
    forall t | t in effects ::
      && effects[t].leaseToken == t && t in leases && !leases[t].state.Active?
      && EffectOk(effects[t], leases[t], presigns, cutovers, disabled, gens)
  }

  predicate DisabledOk(d: DisabledRecord, k: string, bySession: map<SessionId, Token>, effects: map<Token, Effect>,
                       tombs: map<TombKey, Tombstone>)
  {
    && d.keyId == k && ValidSession(d.session) && ValidText(d.reason)
    && if d.session in bySession then bySession[d.session] in effects && effects[bySession[d.session]].kind.RefreshFailedEffect?
       else SessionTomb(d.session) in tombs
  }

  predicate DisabledValid(disabled: map<string, DisabledRecord>, bySession: map<SessionId, Token>,
                          effects: map<Token, Effect>, tombs: map<TombKey, Tombstone>)
  {
    forall k | k in disabled :: DisabledOk(disabled[k], k, bySession, effects, tombs)
  }

  // ---------------------------------------------------- presigns and attempts

  predicate LinkedAttempt(p: Presign, id: string, attempts: map<string, Attempt>) {
    p.attemptId in attempts && attempts[p.attemptId].binding == p.binding && attempts[p.attemptId].presignId == id
  }

  predicate PresignOk(p: Presign, id: string, attempts: map<string, Attempt>, gens: map<Binding, Generation>, current: map<string, Binding>) {
    && ValidText(id) && ValidBinding(p.binding)
    && match p.state
       case AvailablePresign =>
         IsCurrentIn(gens, current, p.binding) && p.blob != [] && p.attemptId == "" && p.reason == "" && p.artifact == Sha256(p.metadata)
       case ClaimedPresign =>
         && IsCurrentIn(gens, current, p.binding) && p.blob == [] && p.metadata == [] && p.attemptId != "" && p.reason == ""
         && LinkedAttempt(p, id, attempts) && !attempts[p.attemptId].aborted
       case BurnedPresign =>
         && p.blob == [] && p.metadata == [] && ValidText(p.reason)
         && (p.attemptId != "" ==> LinkedAttempt(p, id, attempts) && attempts[p.attemptId].Terminal())
  }

  predicate PresignsValid(presigns: map<string, Presign>, attempts: map<string, Attempt>, gens: map<Binding, Generation>, current: map<string, Binding>) {
    && (forall id | id in presigns :: PresignOk(presigns[id], id, attempts, gens, current))
    && (forall id, jd | id in presigns && jd in presigns :: presigns[id].artifact == presigns[jd].artifact ==> id == jd)
  }

  predicate ProgressOk(a: Attempt) {
    && a.delivered == (a.delivery != []) && a.completed == (a.completion != [])
    && (a.Terminal() <==> a.exactOutbox == [])
    && (a.exactOutbox != [] ==> a.outboxDigest == Sha256(a.exactOutbox))
    && a.presignMetadata != []
  }

  predicate AttemptOk(a: Attempt, id: string, presigns: map<string, Presign>, leases: map<Token, Lease>,
                      bySession: map<SessionId, Token>, gens: map<Binding, Generation>, current: map<string, Binding>)
  {
    && a.intent.attemptId == id && ValidBinding(a.binding) && ValidIntent(a.intent) && ValidText(a.presignId)
    && a.intent.session in bySession && bySession[a.intent.session] in leases
    && leases[bySession[a.intent.session]].binding == a.binding && leases[bySession[a.intent.session]].kind.Signing?
    && (!a.Terminal() ==> IsCurrentIn(gens, current, a.binding))
    && a.presignId in presigns && presigns[a.presignId].binding == a.binding && presigns[a.presignId].attemptId == id
    && (if a.aborted then presigns[a.presignId].state.BurnedPresign? && ValidText(a.abortReason)
        else a.abortReason == "" && (presigns[a.presignId].state.ClaimedPresign? || (a.Terminal() && presigns[a.presignId].state.BurnedPresign?)))
    && ProgressOk(a)
  }

  predicate AttemptsValid(attempts: map<string, Attempt>, presigns: map<string, Presign>, leases: map<Token, Lease>,
                          bySession: map<SessionId, Token>, gens: map<Binding, Generation>, current: map<string, Binding>)
  {
    forall id | id in attempts :: AttemptOk(attempts[id], id, presigns, leases, bySession, gens, current)
  }

  // ---------------------------------------------------------------- cutovers

  predicate CommittedOk(c: Cutover, gens: map<Binding, Generation>) {
    && c.targetBlob.Some? && c.targetMetadata.Some? && c.reason == ""
    && c.fence.source in gens && gens[c.fence.source].status.RetiredGeneration? && c.fence.target in gens
    && (gens[c.fence.target].status.CurrentGeneration? ==>
          c.targetBlob.value == Sha256(gens[c.fence.target].blob) && c.targetMetadata.value == Sha256(gens[c.fence.target].metadata))
  }

  predicate FencedOk(c: Cutover, t: Token, cutoverByKey: map<string, Token>, gens: map<Binding, Generation>,
                     current: map<string, Binding>, leases: map<Token, Lease>, attempts: map<string, Attempt>)
  {
    && c.fence.source.keyId in cutoverByKey && cutoverByKey[c.fence.source.keyId] == t
    && IsCurrentIn(gens, current, c.fence.source) && c.fence.target !in gens
    && !HasActiveLeaseForKey(leases, c.fence.source.keyId) && !HasNonTerminalAttempt(attempts, c.fence.source)
    && c.targetBlob.None? && c.targetMetadata.None? && c.reason == ""
  }

  predicate CutoverOk(c: Cutover, t: Token, cutoverByKey: map<string, Token>, nextCutover: nat, gens: map<Binding, Generation>,
                      current: map<string, Binding>, leases: map<Token, Lease>, attempts: map<string, Attempt>)
  {
    && c.fence.token == t && t <= nextCutover && ValidFence(c.fence)
    && match c.state
       case ActiveCutover => FencedOk(c, t, cutoverByKey, gens, current, leases, attempts)
       case CommittedCutover => CommittedOk(c, gens)
       case AbortedCutover => c.targetBlob.None? && c.targetMetadata.None? && ValidText(c.reason)
  }

  predicate CutoversValid(cutovers: map<Token, Cutover>, cutoverByKey: map<string, Token>, nextCutover: nat,
                          gens: map<Binding, Generation>, current: map<string, Binding>, leases: map<Token, Lease>,
                          attempts: map<string, Attempt>)
  {
    && (forall t | t in cutovers :: CutoverOk(cutovers[t], t, cutoverByKey, nextCutover, gens, current, leases, attempts))
    && (forall k | k in cutoverByKey ::
          && cutoverByKey[k] in cutovers && cutovers[cutoverByKey[k]].state.ActiveCutover?
          && cutovers[cutoverByKey[k]].fence.source.keyId == k)
  }

  predicate TombsValid(tombs: map<TombKey, Tombstone>) {
    forall x | x in tombs :: ValidText(tombs[x].keyId) && tombs[x].state != ""
  }

  /** The state the store's validator accepts. */
  predicate Valid(s: State) {
    && GenerationsValid(s.gens, s.current)
    && LeasesValid(s.leases, s.bySession, s.nextLease)
    && HoldersValid(s.leases, s.anchors, s.gens, s.current, s.attempts, s.cutoverByKey, s.tombs)
    && EffectsValid(s.effects, s.leases, s.presigns, s.cutovers, s.disabled, s.gens)
    && DisabledValid(s.disabled, s.bySession, s.effects, s.tombs)
    && PresignsValid(s.presigns, s.attempts, s.gens, s.current)
    && AttemptsValid(s.attempts, s.presigns, s.leases, s.bySession, s.gens, s.current)
    && CutoversValid(s.cutovers, s.cutoverByKey, s.nextCutover, s.gens, s.current, s.leases, s.attempts)
    && TombsValid(s.tombs)
  }

  // ----------------------------------------------------------- strengthening

  /** A generation name belongs to at most one stored generation. */
  predicate NamesUnique(gens: map<Binding, Generation>) {
    forall b, c | b in gens && c in gens :: b.keyId == c.keyId && b.generation == c.generation ==> b == c
  }

  /** The presign behind a presign effect is the one the effect committed to. */
  predicate PresignEffectStrong(e: Effect, l: Lease, presigns: map<string, Presign>) {
    e.kind.PresignEffect? && e.kind.presignId in presigns ==>
      var p := presigns[e.kind.presignId];
      && p.binding == l.binding
      && e.kind.digest.LeaseEffectDigest? && e.kind.digest.metadataDigest == p.artifact
      && (p.state.AvailablePresign? ==> e.kind.digest == EffectDigest(PresignLabel, p.binding, e.kind.presignId, p.blob, p.metadata))
  }

  predicate EffectsStrong(effects: map<Token, Effect>, leases: map<Token, Lease>, presigns: map<string, Presign>) {
    forall t | t in effects && t in leases :: PresignEffectStrong(effects[t], leases[t], presigns)
  }

  predicate MetadataKept(presigns: map<string, Presign>) {
    forall id | id in presigns :: presigns[id].state.AvailablePresign? ==> presigns[id].metadata != []
  }

  /** A marker's failed run belongs to the marker's own lineage. */
  predicate MarkerOwned(d: DisabledRecord, k: string, bySession: map<SessionId, Token>, leases: map<Token, Lease>, tombs: map<TombKey, Tombstone>) {
    && (d.session in bySession && bySession[d.session] in leases ==> leases[bySession[d.session]].binding.keyId == k)
    && (d.session !in bySession && SessionTomb(d.session) in tombs ==> tombs[SessionTomb(d.session)].keyId == k)
  }

  predicate DisabledStrong(disabled: map<string, DisabledRecord>, bySession: map<SessionId, Token>, leases: map<Token, Lease>, tombs: map<TombKey, Tombstone>) {
    && (forall k | k in disabled :: MarkerOwned(disabled[k], k, bySession, leases, tombs))
    && (forall t | t in leases :: leases[t].state.Active? && leases[t].kind.Refresh? ==> leases[t].binding.keyId !in disabled)
  }

  predicate AttemptsStrong(attempts: map<string, Attempt>) {
    forall id | id in attempts :: !(attempts[id].aborted && attempts[id].delivered && attempts[id].completed)
  }

  predicate FencesStrong(cutovers: map<Token, Cutover>, gens: map<Binding, Generation>, tombs: map<TombKey, Tombstone>) {
    forall t | t in cutovers && cutovers[t].state.ActiveCutover? ::
      !HasKeyGeneration(gens, tombs, cutovers[t].fence.target.keyId, cutovers[t].fence.target.generation)
  }

  /** A tombstoned identifier names no live record, and lies in its own lineage. */
  predicate TombOk(x: TombKey, keyId: string, gens: map<Binding, Generation>, bySession: map<SessionId, Token>,
                   presigns: map<string, Presign>, attempts: map<string, Attempt>, cutovers: map<Token, Cutover>, nextCutover: nat)
  {
    match x
    case GenerationTomb(b) => b !in gens && b.keyId == keyId
    case GenerationNameTomb(k, g) => k == keyId && forall b | b in gens :: !(b.keyId == k && b.generation == g)
    case SessionTomb(i) => i !in bySession
    case PresignTomb(id) => id !in presigns
    case ArtifactTomb(d) => forall id | id in presigns :: presigns[id].artifact != d
    case AttemptTomb(id) => id !in attempts
    case CutoverTomb(t) => t !in cutovers && t <= nextCutover
  }

  predicate TombsStrong(tombs: map<TombKey, Tombstone>, gens: map<Binding, Generation>, bySession: map<SessionId, Token>,
                        presigns: map<string, Presign>, attempts: map<string, Attempt>, cutovers: map<Token, Cutover>, nextCutover: nat)
  {
    && (forall x | x in tombs :: TombOk(x, tombs[x].keyId, gens, bySession, presigns, attempts, cutovers, nextCutover))
    && (forall x | x in tombs && x.GenerationTomb? :: GenerationNameTomb(x.binding.keyId, x.binding.generation) in tombs)
  }

  predicate Strong(s: State) {
    && NamesUnique(s.gens)
    && EffectsStrong(s.effects, s.leases, s.presigns)
    && MetadataKept(s.presigns)
    && DisabledStrong(s.disabled, s.bySession, s.leases, s.tombs)
    && AttemptsStrong(s.attempts)
    && FencesStrong(s.cutovers, s.gens, s.tombs)
    && TombsStrong(s.tombs, s.gens, s.bySession, s.presigns, s.attempts, s.cutovers, s.nextCutover)
  }

  predicate Inv(s: State) { Valid(s) && Strong(s) }
}

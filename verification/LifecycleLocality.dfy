/** Every operation reads and writes only the lineages it names: what it does to
    the whole state is what it does to the part of the state that holds them. */
module LifecycleLocality {
  import opened Options
  import opened LifecycleRecords
  import opened LifecycleState
  import opened LifecycleOps
  import opened LifecycleInvariant
  import opened LifecycleInductive
  import opened LifecycleSlices
  import opened LifecycleSliceChanges
  import opened LifecycleTheorems

  /** The lineages an operation names. */
  function KeysOf(op: Op): set<string> {
    match op
    case OpInstallInitial(binding, _, _) => {binding.keyId}
    case OpLoadCurrent(keyId) => {keyId}
    case OpAcquireLease(binding, _, _) => {binding.keyId}
    case OpAcquireReceiver(anchor) => {anchor.source.keyId}
    case OpQueryLease(binding, _, _) => {binding.keyId}
    case OpFinishLease(lease, _) => {lease.binding.keyId}
    case OpRefreshFailed(lease, _) => {lease.binding.keyId}
    case OpCommitPresign(lease, _, _, _) => {lease.binding.keyId}
    case OpPrepareCandidate(binding, _) => {binding.keyId}
    case OpCommitAttempt(binding, _, _, _) => {binding.keyId}
    case OpQueryAttempt(query) => {query.binding.keyId}
    case OpProgress(query, _, _) => {query.binding.keyId}
    case OpAbortAttempt(query, _) => {query.binding.keyId}
    case OpBurnPresign(binding, _, _) => {binding.keyId}
    case OpBeginCutover(source, target) => {source.keyId, target.keyId}
    case OpCutoverFromLease(lease, target) => {lease.binding.keyId, target.keyId}
    case OpRetirement(lease, target) => {lease.binding.keyId, target.keyId}
    case OpCommitCutover(fence, _, _) => {fence.source.keyId, fence.target.keyId}
    case OpAbortCutover(fence, _) => {fence.source.keyId, fence.target.keyId}
    case OpCommitChild(lease, target, _, _) => {lease.binding.keyId, target.keyId}
    case OpCommitReshare(lease, target, _, _) => {lease.binding.keyId, target.keyId}
  }

  /** The identifiers an operation may claim in namespaces that all lineages share. */
  function ClaimsOf(op: Op): set<TombKey> {
    match op
    case OpAcquireLease(_, _, session) => {SessionTomb(session)}
    case OpAcquireReceiver(anchor) => {SessionTomb(anchor.session)}
    case OpCommitPresign(_, presignId, _, metadata) => {PresignTomb(presignId), ArtifactTomb(Sha256(metadata))}
    case OpCommitAttempt(_, _, intent, _) => {AttemptTomb(intent.attemptId)}
    case _ => {}
  }

  /** No lineage outside `keys` uses or used up the identifier. */
  predicate OwnedIn(s: State, x: TombKey, keys: set<string>) {
    && (x in s.tombs ==> s.tombs[x].keyId in keys)
    && match x
       case SessionTomb(i) => i in s.bySession && s.bySession[i] in s.leases ==> s.leases[s.bySession[i]].binding.keyId in keys
       case PresignTomb(id) => id in s.presigns ==> s.presigns[id].binding.keyId in keys
       case ArtifactTomb(d) => forall id | id in s.presigns :: s.presigns[id].artifact == d ==> s.presigns[id].binding.keyId in keys
       case AttemptTomb(id) => id in s.attempts ==> s.attempts[id].binding.keyId in keys
       case _ => true
  }

  predicate ClaimsOwned(s: State, op: Op, keys: set<string>) {
    forall x | x in ClaimsOf(op) :: OwnedIn(s, x, keys)
  }

  function LeaseOf(op: Op): Option<Lease> {
    match op
    case OpFinishLease(lease, _) => Some(lease)
    case OpRefreshFailed(lease, _) => Some(lease)
    case OpCommitPresign(lease, _, _, _) => Some(lease)
    case OpCutoverFromLease(lease, _) => Some(lease)
    case OpRetirement(lease, _) => Some(lease)
    case OpCommitChild(lease, _, _, _) => Some(lease)
    case OpCommitReshare(lease, _, _, _) => Some(lease)
    case _ => None
  }

  /** The lease a caller presents was issued to one of the lineages at hand. */
  predicate TokenIn(s: State, lease: Lease, keys: set<string>) {
    lease.token in s.leases ==> s.leases[lease.token].binding.keyId in keys
  }

  predicate LeaseIn(s: State, op: Op, keys: set<string>) {
    LeaseOf(op).Some? ==> TokenIn(s, LeaseOf(op).value, keys)
  }

  /** `whole` is a step of the whole state, `part` the same operation on the
      lineages `keys`: they are accepted together, and agree. */
  predicate Agree(whole: Step, part: Step, keys: set<string>, loaded: bool, owned: bool) {
    && (whole.result.Ok? && loaded <==> part.result.Ok? && owned)
    && (part.result.Ok? && owned ==> part.result == whole.result && part.state == Restrict(whole.state, keys))
  }

  /** At most one token of each kind is allocated. */
  predicate OneToken(s: State, after: State) {
    s.nextLease <= after.nextLease <= s.nextLease + 1 && s.nextCutover <= after.nextCutover <= s.nextCutover + 1
  }

  /** Lineages away from the operation's own are left as they were. */
  predicate Framed(before: State, after: Step, away: set<string>) {
    after.result.Ok? ==> Slice(after.state, away) == Slice(before, away) && OneToken(before, after.state)
  }

  // ------------------------------------------------------------------- facts

  /** Generation tombstones lie in the lineage they name. */
  lemma LocalTomb(s: State, x: TombKey, keys: set<string>)
    requires Inv(s)
    requires (x.GenerationTomb? && x.binding.keyId in keys) || (x.GenerationNameTomb? && x.keyId in keys)
    ensures x in s.tombs <==> x in TombsOf(s.tombs, keys)
  {
    hide Inv, TombsOf;
    if x in s.tombs { TombFact(s, x); }
  }

  lemma SessionFact(s: State, i: SessionId)
    requires Inv(s) && i in s.bySession
    ensures s.bySession[i] in s.leases && s.leases[s.bySession[i]].session == i && SessionTomb(i) !in s.tombs
  {
    hide EffectsValid, HoldersValid, AttemptsValid, PresignsValid, CutoversValid, DisabledValid, GenerationsValid;
    hide NamesUnique, EffectsStrong, MetadataKept, DisabledStrong, AttemptsStrong, FencesStrong, LeaseOk;
    assert SessionTomb(i) in s.tombs ==> TombOk(SessionTomb(i), s.tombs[SessionTomb(i)].keyId, s.gens, s.bySession, s.presigns, s.attempts, s.cutovers, s.nextCutover);
  }

  lemma FenceFact(s: State, k: string)
    requires Inv(s) && k in s.cutoverByKey
    ensures s.cutoverByKey[k] in s.cutovers && s.cutovers[s.cutoverByKey[k]].fence.source.keyId == k
    ensures s.cutovers[s.cutoverByKey[k]].state.ActiveCutover?
  {
    hide EffectsValid, HoldersValid, AttemptsValid, PresignsValid, LeasesValid, DisabledValid, GenerationsValid, Strong, CutoverOk;
  }

  /** The receiver anchor of a lease lies in the lease's lineage. */
  lemma LocalAnchor(s: State, t: Token, keys: set<string>)
    requires Inv(s)
    ensures t in s.anchors ==> t in s.leases && s.anchors[t].source == s.leases[t].binding
    ensures t in LeasesOf(s.leases, keys) ==> (t in AnchorsOf(s.anchors, keys) <==> t in s.anchors)
  {
    hide Inv, LeasesOf, AnchorsOf;
    if t in s.anchors { AnchorFact(s, t); }
  }

  lemma FreshLease(s: State, l: Lease)
    requires Inv(s) && l.token == s.nextLease + 1 && l.session !in s.bySession
    ensures FreshIn(s, l)
  {
    hide Inv, ValidLease;
    if l.token in s.leases { LeaseFact(s, l.token); assert false; }
    if l.token in s.effects { EffectFact(s, l.token); assert false; }
    if l.token in s.anchors { AnchorFact(s, l.token); assert false; }
    forall i | i in s.bySession ensures s.bySession[i] != l.token { SessionFact(s, i); }
  }

  lemma FreshFence(s: State, f: Fence)
    requires Inv(s) && f.token == s.nextCutover + 1
    ensures f.token !in s.cutovers
  {
    hide Inv, ValidFence;
    if f.token in s.cutovers { CutoverFact(s, f.token); assert false; }
  }

  lemma PresignFacts(s: State)
    requires Inv(s)
    ensures PresignsValid(s.presigns, s.attempts, s.gens, s.current)
  {
  }

  lemma CompatibleLocal(s: State, binding: Binding, kind: RunKind, keys: set<string>)
    requires binding.keyId in keys
    ensures HasIncompatibleLease(LeasesOf(s.leases, keys), binding, kind) <==> HasIncompatibleLease(s.leases, binding, kind)
  {
    hide LeasesOf;
    var r := LeasesOf(s.leases, keys);
    assert forall t | t in s.leases && ActiveOn(s.leases[t], binding) :: t in r && r[t] == s.leases[t];
  }

  // -------------------------------------------------------------- generations

  lemma InstallAgrees(s: State, binding: Binding, blob: Bytes, metadata: Bytes, keys: set<string>)
    requires Inv(s) && binding.keyId in keys
    ensures Agree(InstallInitialGeneration(s, binding, blob, metadata), InstallInitialGeneration(Restrict(s, keys), binding, blob, metadata), keys, true, true)
  {
    hide Inv, Restrict, GensOf, ByKeyOf, LeasesOf, SessionsOf, EffectsOf, AnchorsOf, PresignsOf, AttemptsOf, CutoversOf, TombsOf;
    hide ValidBinding, ValidBlob, HasGenerationForKey, HasActiveLeaseForKey, InstallCurrent;
    RestrictFields(s, keys);
    GenerationGuards(s, keys, binding.keyId);
    LeaseGuards(s, keys, binding.keyId);
    LocalTomb(s, GenerationTomb(binding), keys);
    LocalTomb(s, GenerationNameTomb(binding.keyId, binding.generation), keys);
    SliceInstall(s, Generation(binding, blob, metadata, CurrentGeneration), keys);
  }

  lemma InstallFramed(s: State, binding: Binding, blob: Bytes, metadata: Bytes, away: set<string>)
    requires binding.keyId !in away
    ensures Framed(s, InstallInitialGeneration(s, binding, blob, metadata), away)
  {
    hide Restrict, ValidBinding, ValidBlob, HasGenerationForKey, HasActiveLeaseForKey, InstallCurrent;
    SliceInstall(s, Generation(binding, blob, metadata, CurrentGeneration), away);
  }

  lemma LoadCurrentAgrees(s: State, keyId: string, keys: set<string>)
    requires Inv(s) && keyId in keys
    ensures Agree(LoadCurrentGeneration(s, keyId), LoadCurrentGeneration(Restrict(s, keys), keyId), keys, true, true)
  {
    hide Inv, Restrict, GensOf, ByKeyOf, LeasesOf, SessionsOf, EffectsOf, AnchorsOf, PresignsOf, AttemptsOf, CutoversOf, TombsOf;
    hide ValidText;
    RestrictFields(s, keys);
    if keyId in s.current { CurrentFact(s, keyId); }
  }

  lemma CurrentFact(s: State, k: string)
    requires Inv(s) && k in s.current
    ensures s.current[k].keyId == k && IsCurrent(s, s.current[k])
  {
    hide EffectsValid, HoldersValid, AttemptsValid, PresignsValid, LeasesValid, DisabledValid, CutoversValid, Strong, GenerationOk;
  }

  // ------------------------------------------------------------------- leases

  lemma AcquireKnownAgrees(s: State, binding: Binding, kind: RunKind, session: SessionId, keys: set<string>)
    requires Inv(s) && binding.keyId in keys && session in s.bySession
    ensures Agree(AcquireRunLease(s, binding, kind, session), AcquireRunLease(Restrict(s, keys), binding, kind, session), keys,
                  true, OwnedIn(s, SessionTomb(session), keys))
  {
    hide Inv, Restrict, GensOf, ByKeyOf, LeasesOf, SessionsOf, EffectsOf, AnchorsOf, PresignsOf, AttemptsOf, CutoversOf, TombsOf;
    hide ValidBinding, ValidKind, ValidSession, HasGenerationForKey, HasActiveLeaseForKey, HasIncompatibleLease, IsCurrent, AddLease;
    RestrictFields(s, keys);
    SessionFact(s, session);
    LocalAnchor(s, s.bySession[session], keys);
  }

  lemma AcquireFreshAgrees(s: State, binding: Binding, kind: RunKind, session: SessionId, keys: set<string>)
    requires Inv(s) && binding.keyId in keys && session !in s.bySession
    ensures Agree(AcquireRunLease(s, binding, kind, session), AcquireRunLease(Restrict(s, keys), binding, kind, session), keys,
                  true, OwnedIn(s, SessionTomb(session), keys))
  {
    hide Inv, Restrict, GensOf, ByKeyOf, LeasesOf, SessionsOf, EffectsOf, AnchorsOf, PresignsOf, AttemptsOf, CutoversOf, TombsOf;
    hide ValidBinding, ValidKind, ValidSession, HasGenerationForKey, HasActiveLeaseForKey, HasIncompatibleLease, IsCurrent, AddLease;
    RestrictFields(s, keys);
    GenerationGuards(s, keys, binding.keyId);
    LeaseGuards(s, keys, binding.keyId);
    CurrentGuards(s, keys, binding);
    CompatibleLocal(s, binding, kind, keys);
    var l := Lease(s.nextLease + 1, binding, kind, session, Active);
    FreshLease(s, l);
    SliceAddLease(s, l, keys);
  }

  lemma AcquireFramed(s: State, binding: Binding, kind: RunKind, session: SessionId, away: set<string>)
    requires Inv(s) && binding.keyId !in away
    ensures Framed(s, AcquireRunLease(s, binding, kind, session), away)
  {
    hide Inv, Restrict, ValidBinding, ValidKind, ValidSession, HasGenerationForKey, HasActiveLeaseForKey, HasIncompatibleLease, IsCurrent, AddLease;
    if session !in s.bySession {
      var l := Lease(s.nextLease + 1, binding, kind, session, Active);
      FreshLease(s, l);
      SliceAddLease(s, l, away);
    }
  }

  lemma ReceiverKnownAgrees(s: State, anchor: ReceiverAnchor, keys: set<string>)
    requires Inv(s) && anchor.source.keyId in keys && anchor.session in s.bySession
    ensures Agree(AcquireReshareReceiverLease(s, anchor), AcquireReshareReceiverLease(Restrict(s, keys), anchor), keys,
                  true, OwnedIn(s, SessionTomb(anchor.session), keys))
  {
    hide Inv, Restrict, GensOf, ByKeyOf, LeasesOf, SessionsOf, EffectsOf, AnchorsOf, PresignsOf, AttemptsOf, CutoversOf, TombsOf;
    hide ValidAnchor, HasKeyGeneration, HasActiveLeaseForKey, HasNonTerminalAttemptForKey, AddReceiver;
    RestrictFields(s, keys);
    SessionFact(s, anchor.session);
    LocalAnchor(s, s.bySession[anchor.session], keys);
  }

  lemma ReceiverFreshAgrees(s: State, anchor: ReceiverAnchor, keys: set<string>)
    requires Inv(s) && anchor.source.keyId in keys && anchor.session !in s.bySession
    ensures Agree(AcquireReshareReceiverLease(s, anchor), AcquireReshareReceiverLease(Restrict(s, keys), anchor), keys,
                  true, OwnedIn(s, SessionTomb(anchor.session), keys))
  {
    hide Inv, Restrict, GensOf, ByKeyOf, LeasesOf, SessionsOf, EffectsOf, AnchorsOf, PresignsOf, AttemptsOf, CutoversOf, TombsOf;
    hide ValidAnchor, HasKeyGeneration, HasActiveLeaseForKey, HasNonTerminalAttemptForKey, AddReceiver;
    RestrictFields(s, keys);
    GenerationGuards(s, keys, anchor.source.keyId);
    LeaseGuards(s, keys, anchor.source.keyId);
    AttemptGuards(s, keys, anchor.source.keyId);
    var l := Lease(s.nextLease + 1, anchor.source, Reshare, anchor.session, Active);
    FreshLease(s, l);
    SliceAddReceiver(s, l, anchor, keys);
  }

  lemma ReceiverFramed(s: State, anchor: ReceiverAnchor, away: set<string>)
    requires Inv(s) && anchor.source.keyId !in away
    ensures Framed(s, AcquireReshareReceiverLease(s, anchor), away)
  {
    hide Inv, Restrict, ValidAnchor, HasKeyGeneration, HasActiveLeaseForKey, HasNonTerminalAttemptForKey, AddReceiver;
    if anchor.session !in s.bySession {
      var l := Lease(s.nextLease + 1, anchor.source, Reshare, anchor.session, Active);
      FreshLease(s, l);
      SliceAddReceiver(s, l, anchor, away);
    }
  }

  lemma QueryLeaseAgrees(s: State, binding: Binding, kind: RunKind, session: SessionId, keys: set<string>)
    requires Inv(s) && binding.keyId in keys
    ensures Agree(QueryRunLease(s, binding, kind, session), QueryRunLease(Restrict(s, keys), binding, kind, session), keys, true, true)
  {
    hide Inv, Restrict, GensOf, ByKeyOf, LeasesOf, SessionsOf, EffectsOf, AnchorsOf, PresignsOf, AttemptsOf, CutoversOf, TombsOf;
    hide ValidBinding, ValidKind, ValidSession;
    RestrictFields(s, keys);
    if session in s.bySession { SessionFact(s, session); }
  }

  lemma FinishAgrees(s: State, lease: Lease, outcome: LeaseOutcome, keys: set<string>)
    requires Inv(s) && lease.binding.keyId in keys
    ensures Agree(FinishRunLease(s, lease, outcome), FinishRunLease(Restrict(s, keys), lease, outcome), keys, TokenIn(s, lease, keys), true)
  {
    hide Inv, Restrict, GensOf, ByKeyOf, LeasesOf, SessionsOf, EffectsOf, AnchorsOf, PresignsOf, AttemptsOf, CutoversOf, TombsOf;
    hide ValidLease, ReleaseLease;
    RestrictFields(s, keys);
    if lease.token in s.leases {
      LocalAnchor(s, lease.token, keys);
      SliceRelease(s, lease.token, if outcome.LeaseAborted? then Aborted else Completed, keys);
    }
  }

  lemma FinishFramed(s: State, lease: Lease, outcome: LeaseOutcome, away: set<string>)
    requires Inv(s) && lease.binding.keyId !in away
    ensures Framed(s, FinishRunLease(s, lease, outcome), away)
  {
    hide Inv, Restrict, ValidLease, ReleaseLease;
    if lease.token in s.leases {
      LocalAnchor(s, lease.token, away);
      SliceRelease(s, lease.token, if outcome.LeaseAborted? then Aborted else Completed, away);
    }
  }

  lemma RefreshFailedAgrees(s: State, lease: Lease, reason: string, keys: set<string>)
    requires Inv(s) && lease.binding.keyId in keys
    ensures Agree(MarkProtocolRefreshFailed(s, lease, reason), MarkProtocolRefreshFailed(Restrict(s, keys), lease, reason), keys,
                  TokenIn(s, lease, keys), true)
  {
    hide Inv, Restrict, GensOf, ByKeyOf, LeasesOf, SessionsOf, EffectsOf, AnchorsOf, PresignsOf, AttemptsOf, CutoversOf, TombsOf;
    hide ValidLease, ValidText, DisableRefresh;
    RestrictFields(s, keys);
    if lease.token in s.effects { EffectFact(s, lease.token); }
    if lease.token in s.leases && SameLease(s.leases[lease.token], lease) {
      SliceDisableRefresh(s, lease.token, DisabledRecord(lease.binding.keyId, lease.session, reason), keys);
    }
  }

  lemma RefreshFailedFramed(s: State, lease: Lease, reason: string, away: set<string>)
    requires lease.binding.keyId !in away
    ensures Framed(s, MarkProtocolRefreshFailed(s, lease, reason), away)
  {
    hide Restrict, ValidLease, ValidText, DisableRefresh;
    if lease.token in s.leases && SameLease(s.leases[lease.token], lease) {
      SliceDisableRefresh(s, lease.token, DisabledRecord(lease.binding.keyId, lease.session, reason), away);
    }
  }
}

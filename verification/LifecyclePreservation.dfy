/** The elementary changes the operations are made of, and the proof that each
    keeps the invariant. Every composite operation passes only through states
    that satisfy the invariant, so it is a chain of these changes. */
module LifecyclePreservation {
  import opened LifecycleRecords
  import opened LifecycleState
  import opened LifecycleOps
  import opened LifecycleInvariant

  lemma EmptyInv()
    ensures Inv(Empty)
  {
  }

  // -------------------------------------------------------- granting a lease

  predicate FreshLease(s: State, l: Lease) {
    && ValidLease(l) && l.state.Active? && l.token == s.nextLease + 1
    && l.session !in s.bySession && SessionTomb(l.session) !in s.tombs
    && l.binding.keyId !in s.cutoverByKey
    && (l.kind.Refresh? ==> l.binding.keyId !in s.disabled)
    && (forall t | t in s.leases :: !Overlap(s.leases[t], l) && !Overlap(l, s.leases[t]))
  }

  lemma GrantLeases(s: State, l: Lease)
    requires LeasesValid(s.leases, s.bySession, s.nextLease) && FreshLease(s, l)
    ensures LeasesValid(AddLease(s, l).leases, AddLease(s, l).bySession, l.token)
    ensures l.token !in s.leases
  {
  }

  lemma GrantHolders(s: State, l: Lease)
    requires HoldersValid(s.leases, s.anchors, s.gens, s.current, s.attempts, s.cutoverByKey, s.tombs)
    requires FreshLease(s, l) && l.token !in s.leases && HolderOk(l, s.gens, s.current)
    ensures HoldersValid(AddLease(s, l).leases, s.anchors, s.gens, s.current, s.attempts, s.cutoverByKey, s.tombs)
  {
  }

  lemma GrantReceiver(s: State, l: Lease, a: ReceiverAnchor)
    requires HoldersValid(s.leases, s.anchors, s.gens, s.current, s.attempts, s.cutoverByKey, s.tombs)
    requires FreshLease(s, l) && l.token !in s.leases
    requires ReceiverOk(l, a, s.gens, s.current, s.attempts, s.cutoverByKey, s.tombs)
    ensures HoldersValid(AddLease(s, l).leases, s.anchors[l.token := a], s.gens, s.current, s.attempts, s.cutoverByKey, s.tombs)
  {
    hide ReceiverOk, HolderOk, Overlap, ValidLease;
  }

  lemma GrantEffects(s: State, l: Lease)
    requires EffectsValid(s.effects, s.leases, s.presigns, s.cutovers, s.disabled, s.gens)
    requires EffectsStrong(s.effects, s.leases, s.presigns)
    requires DisabledValid(s.disabled, s.bySession, s.effects, s.tombs)
    requires FreshLease(s, l) && l.token !in s.leases
    ensures EffectsValid(s.effects, AddLease(s, l).leases, s.presigns, s.cutovers, s.disabled, s.gens)
    ensures EffectsStrong(s.effects, AddLease(s, l).leases, s.presigns)
    ensures DisabledValid(s.disabled, AddLease(s, l).bySession, s.effects, s.tombs)
  {
  }

  lemma GrantDisabled(s: State, l: Lease)
    requires DisabledStrong(s.disabled, s.bySession, s.leases, s.tombs)
    requires DisabledValid(s.disabled, s.bySession, s.effects, s.tombs)
    requires LeasesValid(s.leases, s.bySession, s.nextLease)
    requires FreshLease(s, l) && l.token !in s.leases
    ensures DisabledStrong(s.disabled, AddLease(s, l).bySession, AddLease(s, l).leases, s.tombs)
  {
  }

  lemma GrantAttempts(s: State, l: Lease)
    requires AttemptsValid(s.attempts, s.presigns, s.leases, s.bySession, s.gens, s.current)
    requires FreshLease(s, l) && l.token !in s.leases
    ensures AttemptsValid(s.attempts, s.presigns, AddLease(s, l).leases, AddLease(s, l).bySession, s.gens, s.current)
  {
  }

  lemma GrantCutovers(s: State, l: Lease)
    requires CutoversValid(s.cutovers, s.cutoverByKey, s.nextCutover, s.gens, s.current, s.leases, s.attempts)
    requires FreshLease(s, l) && l.token !in s.leases
    ensures CutoversValid(s.cutovers, s.cutoverByKey, s.nextCutover, s.gens, s.current, AddLease(s, l).leases, s.attempts)
  {
  }

  lemma GrantTombs(s: State, l: Lease)
    requires TombsStrong(s.tombs, s.gens, s.bySession, s.presigns, s.attempts, s.cutovers, s.nextCutover)
    requires FreshLease(s, l)
    ensures TombsStrong(s.tombs, s.gens, AddLease(s, l).bySession, s.presigns, s.attempts, s.cutovers, s.nextCutover)
  {
  }

  lemma GrantKeeps(s: State, l: Lease)
    requires Inv(s) && FreshLease(s, l) && HolderOk(l, s.gens, s.current)
    ensures Inv(AddLease(s, l))
  {
    GrantLeases(s, l);
    GrantHolders(s, l);
    GrantEffects(s, l);
    GrantDisabled(s, l);
    GrantAttempts(s, l);
    GrantCutovers(s, l);
    GrantTombs(s, l);
  }

  lemma GrantReceiverKeeps(s: State, l: Lease, a: ReceiverAnchor)
    requires Inv(s) && FreshLease(s, l)
    requires ReceiverOk(l, a, s.gens, s.current, s.attempts, s.cutoverByKey, s.tombs)
    ensures Inv(AddLease(s, l).(anchors := s.anchors[l.token := a]))
  {
    GrantLeases(s, l);
    GrantReceiver(s, l, a);
    GrantEffects(s, l);
    GrantDisabled(s, l);
    GrantAttempts(s, l);
    GrantCutovers(s, l);
    GrantTombs(s, l);
  }

  // ---------------------------------------------------------- ending a lease

  /** The state after an active lease ends: its receiver anchor, if any, goes with it. */
  function Ended(s: State, t: Token, state: LeaseState): State
    requires t in s.leases
  {
    EndLease(s, t, state).(anchors := s.anchors - {t})
  }

  predicate Endable(s: State, t: Token, state: LeaseState) {
    t in s.leases && s.leases[t].state.Active? && (state.Completed? || state.Aborted?)
  }

  lemma EndLeases(s: State, t: Token, state: LeaseState)
    requires LeasesValid(s.leases, s.bySession, s.nextLease) && Endable(s, t, state)
    ensures LeasesValid(Ended(s, t, state).leases, s.bySession, s.nextLease)
  {
  }

  lemma EndHolders(s: State, t: Token, state: LeaseState)
    requires HoldersValid(s.leases, s.anchors, s.gens, s.current, s.attempts, s.cutoverByKey, s.tombs) && Endable(s, t, state)
    ensures HoldersValid(Ended(s, t, state).leases, Ended(s, t, state).anchors, s.gens, s.current, s.attempts, s.cutoverByKey, s.tombs)
  {
  }

  lemma EndEffects(s: State, t: Token, state: LeaseState)
    requires EffectsValid(s.effects, s.leases, s.presigns, s.cutovers, s.disabled, s.gens)
    requires EffectsStrong(s.effects, s.leases, s.presigns) && Endable(s, t, state)
    ensures t !in s.effects
    ensures EffectsValid(s.effects, Ended(s, t, state).leases, s.presigns, s.cutovers, s.disabled, s.gens)
    ensures EffectsStrong(s.effects, Ended(s, t, state).leases, s.presigns)
  {
  }

  lemma EndDisabled(s: State, t: Token, state: LeaseState)
    requires DisabledStrong(s.disabled, s.bySession, s.leases, s.tombs) && Endable(s, t, state)
    ensures DisabledStrong(s.disabled, s.bySession, Ended(s, t, state).leases, s.tombs)
  {
  }

  lemma EndAttempts(s: State, t: Token, state: LeaseState)
    requires AttemptsValid(s.attempts, s.presigns, s.leases, s.bySession, s.gens, s.current) && Endable(s, t, state)
    ensures AttemptsValid(s.attempts, s.presigns, Ended(s, t, state).leases, s.bySession, s.gens, s.current)
  {
  }

  lemma EndCutovers(s: State, t: Token, state: LeaseState)
    requires CutoversValid(s.cutovers, s.cutoverByKey, s.nextCutover, s.gens, s.current, s.leases, s.attempts) && Endable(s, t, state)
    ensures CutoversValid(s.cutovers, s.cutoverByKey, s.nextCutover, s.gens, s.current, Ended(s, t, state).leases, s.attempts)
  {
  }

  lemma EndKeeps(s: State, t: Token, state: LeaseState)
    requires Inv(s) && Endable(s, t, state)
    ensures Inv(Ended(s, t, state)) && t !in s.effects
  {
    EndLeases(s, t, state);
    EndHolders(s, t, state);
    EndEffects(s, t, state);
    EndDisabled(s, t, state);
    EndAttempts(s, t, state);
    EndCutovers(s, t, state);
  }

  // ----------------------------------------------------- recording an effect

  function WithEffect(s: State, t: Token, kind: EffectKind): State {
    s.(effects := s.effects[t := Effect(t, kind)])
  }

  predicate Effectable(s: State, t: Token, kind: EffectKind) {
    && t in s.leases && t !in s.effects && !s.leases[t].state.Active?
    && EffectOk(Effect(t, kind), s.leases[t], s.presigns, s.cutovers, s.disabled, s.gens)
    && PresignEffectStrong(Effect(t, kind), s.leases[t], s.presigns)
  }

  lemma RecordEffects(s: State, t: Token, kind: EffectKind)
    requires EffectsValid(s.effects, s.leases, s.presigns, s.cutovers, s.disabled, s.gens)
    requires EffectsStrong(s.effects, s.leases, s.presigns) && Effectable(s, t, kind)
    ensures EffectsValid(WithEffect(s, t, kind).effects, s.leases, s.presigns, s.cutovers, s.disabled, s.gens)
    ensures EffectsStrong(WithEffect(s, t, kind).effects, s.leases, s.presigns)
  {
  }

  lemma RecordDisabled(s: State, t: Token, kind: EffectKind)
    requires DisabledValid(s.disabled, s.bySession, s.effects, s.tombs) && t !in s.effects
    ensures DisabledValid(s.disabled, s.bySession, WithEffect(s, t, kind).effects, s.tombs)
  {
  }

  lemma RecordKeeps(s: State, t: Token, kind: EffectKind)
    requires Inv(s) && Effectable(s, t, kind)
    ensures Inv(WithEffect(s, t, kind))
  {
    RecordEffects(s, t, kind);
    RecordDisabled(s, t, kind);
  }

  // ------------------------------------------------------ disabling refreshes

  function Disable(s: State, t: Token, reason: string): State
    requires t in s.leases
  {
    var l := s.leases[t];
    WithEffect(s, t, RefreshFailedEffect(reason)).(disabled := s.disabled[l.binding.keyId := DisabledRecord(l.binding.keyId, l.session, reason)])
  }

  predicate Disablable(s: State, t: Token, reason: string) {
    && t in s.leases && t !in s.effects && s.leases[t].state.Aborted? && s.leases[t].kind.Refresh?
    && s.leases[t].binding.keyId !in s.disabled && ValidText(reason)
    && (forall u | u in s.leases :: s.leases[u].kind.Refresh? && s.leases[u].binding.keyId == s.leases[t].binding.keyId ==> !s.leases[u].state.Active?)
  }

  lemma DisableEffects(s: State, t: Token, reason: string)
    requires EffectsValid(s.effects, s.leases, s.presigns, s.cutovers, s.disabled, s.gens)
    requires EffectsStrong(s.effects, s.leases, s.presigns) && Disablable(s, t, reason)
    ensures EffectsValid(Disable(s, t, reason).effects, s.leases, s.presigns, s.cutovers, Disable(s, t, reason).disabled, s.gens)
    ensures EffectsStrong(Disable(s, t, reason).effects, s.leases, s.presigns)
  {
  }

  lemma DisableMarkers(s: State, t: Token, reason: string)
    requires DisabledValid(s.disabled, s.bySession, s.effects, s.tombs) && Disablable(s, t, reason)
    requires LeasesValid(s.leases, s.bySession, s.nextLease)
    ensures DisabledValid(Disable(s, t, reason).disabled, s.bySession, Disable(s, t, reason).effects, s.tombs)
  {
  }

  lemma DisableStrong(s: State, t: Token, reason: string)
    requires DisabledStrong(s.disabled, s.bySession, s.leases, s.tombs) && Disablable(s, t, reason)
    requires LeasesValid(s.leases, s.bySession, s.nextLease)
    ensures DisabledStrong(Disable(s, t, reason).disabled, s.bySession, s.leases, s.tombs)
  {
  }

  lemma DisableKeeps(s: State, t: Token, reason: string)
    requires Inv(s) && Disablable(s, t, reason)
    ensures Inv(Disable(s, t, reason))
  {
    DisableEffects(s, t, reason);
    DisableMarkers(s, t, reason);
    DisableStrong(s, t, reason);
  }
}

/** What the operations' changes look like through a set of lineages: the same
    change when the lineages changed are among them, and no change when none is. */
module LifecycleSliceChanges {
  import opened LifecycleRecords
  import opened LifecycleState
  import opened LifecycleOps
  import opened LifecycleInvariant
  import opened LifecycleSlices

  predicate FreshIn(s: State, l: Lease) {
    && l.token !in s.leases && l.session !in s.bySession && l.token !in s.effects && l.token !in s.anchors
    && forall i | i in s.bySession :: s.bySession[i] != l.token
  }

  lemma SliceAddReceiver(s: State, l: Lease, a: ReceiverAnchor, keys: set<string>)
    requires FreshIn(s, l) && a.source == l.binding
    ensures Restrict(AddReceiver(s, l, a), keys) == Seen(Restrict(s, keys), AddReceiver(Restrict(s, keys), l, a), l.binding.keyId, keys, AddReceiver(s, l, a))
  {
    hide Restrict;
    SliceAddLease(s, l, keys);
    SliceAnchor(AddLease(s, l), l.token, a, keys);
  }

  lemma SliceRelease(s: State, t: Token, st: LeaseState, keys: set<string>)
    requires t in s.leases && (t in s.anchors ==> s.anchors[t].source == s.leases[t].binding)
    ensures s.leases[t].binding.keyId in keys ==> t in Restrict(s, keys).leases && Restrict(ReleaseLease(s, t, st), keys) == ReleaseLease(Restrict(s, keys), t, st)
    ensures s.leases[t].binding.keyId !in keys ==> Restrict(ReleaseLease(s, t, st), keys) == Restrict(s, keys)
  {
    hide Restrict;
    SliceEndLease(s, t, st, keys);
    SliceDropAnchor(EndLease(s, t, st), t, keys);
  }

  lemma SliceDisableRefresh(s: State, t: Token, d: DisabledRecord, keys: set<string>)
    requires t in s.leases && d.keyId == s.leases[t].binding.keyId
    ensures d.keyId in keys ==> t in Restrict(s, keys).leases && Restrict(DisableRefresh(s, t, d), keys) == DisableRefresh(Restrict(s, keys), t, d)
    ensures d.keyId !in keys ==> Restrict(DisableRefresh(s, t, d), keys) == Restrict(s, keys)
  {
    hide Restrict;
    SliceEndLeaseWith(s, t, Aborted, RefreshFailedEffect(d.reason), keys);
    SliceDisable(EndLeaseWith(s, t, Aborted, RefreshFailedEffect(d.reason)), d.keyId, d, keys);
  }

  lemma SliceStorePresign(s: State, t: Token, id: string, p: Presign, d: Digest, keys: set<string>)
    requires t in s.leases && id !in s.presigns && p.binding.keyId == s.leases[t].binding.keyId
    ensures p.binding.keyId in keys ==> t in Restrict(s, keys).leases && Restrict(StorePresign(s, t, id, p, d), keys) == StorePresign(Restrict(s, keys), t, id, p, d)
    ensures p.binding.keyId !in keys ==> Restrict(StorePresign(s, t, id, p, d), keys) == Restrict(s, keys)
  {
    hide Restrict;
    SliceEndLeaseWith(s, t, Completed, PresignEffect(id, d), keys);
    SlicePresign(EndLeaseWith(s, t, Completed, PresignEffect(id, d)), id, p, keys);
  }

  lemma SlicePutPair(s: State, id: string, p: Presign, aid: string, a: Attempt, keys: set<string>)
    requires id in s.presigns && s.presigns[id].binding.keyId == p.binding.keyId == a.binding.keyId
    requires aid in s.attempts ==> s.attempts[aid].binding.keyId == a.binding.keyId
    ensures Restrict(PutPair(s, id, p, aid, a), keys) == if p.binding.keyId in keys then PutPair(Restrict(s, keys), id, p, aid, a) else Restrict(s, keys)
  {
    hide Restrict;
    SlicePresign(s, id, p, keys);
    SliceAttempt(PutPresign(s, id, p), aid, a, keys);
  }

  lemma SliceFenceFromLease(s: State, t: Token, f: Fence, keys: set<string>)
    requires t in s.leases && f.source == s.leases[t].binding && f.token !in s.cutovers
    ensures f.source.keyId in keys ==> t in Restrict(s, keys).leases && Restrict(FenceFromLease(s, t, f), keys) == FenceFromLease(Restrict(s, keys), t, f)
    ensures f.source.keyId !in keys ==> Restrict(FenceFromLease(s, t, f), keys) == Restrict(s, keys).(nextCutover := f.token)
  {
    hide Restrict;
    SliceRaiseFence(s, f, keys);
    SliceEndLeaseWith(RaiseFence(s, f), t, Completed, CutoverEffect(f.target, f.token), keys);
    RestrictFields(s, keys);
  }

  lemma SliceRetireFromLease(s: State, t: Token, target: Binding, reason: string, keys: set<string>)
    requires PresignsValid(s.presigns, s.attempts, s.gens, s.current)
    requires t in s.leases && s.leases[t].binding in s.gens
    ensures var b := s.leases[t].binding;
            b.keyId in keys ==> t in Restrict(s, keys).leases && b in Restrict(s, keys).gens
                                && Restrict(RetireFromLease(s, t, b, target, reason), keys) == RetireFromLease(Restrict(s, keys), t, b, target, reason)
    ensures var b := s.leases[t].binding;
            b.keyId !in keys ==> Restrict(RetireFromLease(s, t, b, target, reason), keys) == Restrict(s, keys)
  {
    hide Restrict, PresignsValid;
    var b := s.leases[t].binding;
    SliceRetire(s, b, reason, keys);
    var retired := Retire(s, b, reason);
    SliceEndLeaseWith(retired, t, Completed, RetirementEffect(target), keys);
    SliceUncurrent(EndLeaseWith(retired, t, Completed, RetirementEffect(target)), b.keyId, keys);
  }

  lemma SlicePutCutover(s: State, t: Token, c: Cutover, keys: set<string>)
    requires t in s.cutovers && s.cutovers[t].fence == c.fence
    ensures Restrict(PutCutover(s, t, c), keys) == if c.fence.source.keyId in keys then PutCutover(Restrict(s, keys), t, c) else Restrict(s, keys)
  {
    hide Restrict;
    SliceCutover(s, t, c, keys);
    SliceLift(s.(cutovers := s.cutovers[t := c]), c.fence.source.keyId, keys);
  }

  lemma SliceReplace(s: State, c: Cutover, g: Generation, reason: string, keys: set<string>)
    requires PresignsValid(s.presigns, s.attempts, s.gens, s.current)
    requires c.fence.token in s.cutovers && s.cutovers[c.fence.token].fence == c.fence
    requires c.fence.source in s.gens && g.binding.keyId == c.fence.source.keyId
    ensures g.binding.keyId in keys ==> c.fence.source in Restrict(s, keys).gens && Restrict(Replace(s, c, g, reason), keys) == Replace(Restrict(s, keys), c, g, reason)
    ensures g.binding.keyId !in keys ==> Restrict(Replace(s, c, g, reason), keys) == Restrict(s, keys)
  {
    hide Restrict, PresignsValid;
    SliceRetire(s, c.fence.source, reason, keys);
    var retired := Retire(s, c.fence.source, reason);
    SliceInstall(retired, g, keys);
    SlicePutCutover(InstallCurrent(retired, g), c.fence.token, c, keys);
    RestrictFields(s, keys);
    RestrictFields(retired, keys);
  }

  lemma SliceInstallChild(s: State, t: Token, g: Generation, d: Digest, keys: set<string>)
    requires t in s.leases
    ensures s.leases[t].binding.keyId in keys && g.binding.keyId in keys ==>
      t in Restrict(s, keys).leases && Restrict(InstallChild(s, t, g, d), keys) == InstallChild(Restrict(s, keys), t, g, d)
    ensures s.leases[t].binding.keyId !in keys && g.binding.keyId !in keys ==> Restrict(InstallChild(s, t, g, d), keys) == Restrict(s, keys)
  {
    hide Restrict;
    SliceInstall(s, g, keys);
    SliceEndLeaseWith(InstallCurrent(s, g), t, Completed, ChildEffect(g.binding, d), keys);
    RestrictFields(s, keys);
  }

  lemma SliceInstallReceived(s: State, t: Token, g: Generation, d: Digest, keys: set<string>)
    requires t in s.leases && g.binding.keyId == s.leases[t].binding.keyId
    requires t in s.anchors ==> s.anchors[t].source == s.leases[t].binding
    ensures g.binding.keyId in keys ==> t in Restrict(s, keys).leases && Restrict(InstallReceived(s, t, g, d), keys) == InstallReceived(Restrict(s, keys), t, g, d)
    ensures g.binding.keyId !in keys ==> Restrict(InstallReceived(s, t, g, d), keys) == Restrict(s, keys)
  {
    hide Restrict;
    SliceInstall(s, g, keys);
    SliceEndLeaseWith(InstallCurrent(s, g), t, Completed, ReceiverEffect(g.binding, d), keys);
    SliceDropAnchor(EndLeaseWith(InstallCurrent(s, g), t, Completed, ReceiverEffect(g.binding, d)), t, keys);
    RestrictFields(s, keys);
  }
}

/** Locality of the operations on presigns, attempts and cutovers, and of every
    operation at once. */
module LifecycleLocalityArtifacts {
  import opened LifecycleRecords
  import opened LifecycleState
  import opened LifecycleOps
  import opened LifecycleInvariant
  import opened LifecycleInductive
  import opened LifecycleSlices
  import opened LifecycleSliceChanges
  import opened LifecycleTheorems
  import opened LifecycleLocality

  // ----------------------------------------------------------------- presigns

  lemma ArtifactLocal(s: State, id: string, artifact: Digest, keys: set<string>)
    requires id !in s.presigns
    ensures OwnedIn(s, ArtifactTomb(artifact), keys) ==>
      (HasConflictingArtifact(PresignsOf(s.presigns, keys), id, artifact) <==> HasConflictingArtifact(s.presigns, id, artifact))
    ensures !HasConflictingArtifact(s.presigns, id, artifact) && ArtifactTomb(artifact) !in s.tombs ==> OwnedIn(s, ArtifactTomb(artifact), keys)
  {
    hide PresignsOf;
    var r := PresignsOf(s.presigns, keys);
    assert OwnedIn(s, ArtifactTomb(artifact), keys) ==> forall x | x in s.presigns && s.presigns[x].artifact == artifact :: x in r && r[x] == s.presigns[x];
  }

  /** Stored artifacts are distinct, and none of them is tombstoned. */
  lemma ArtifactFact(s: State, id: string)
    requires Inv(s) && id in s.presigns
    ensures forall x | x in s.presigns && s.presigns[x].artifact == s.presigns[id].artifact :: x == id
    ensures PresignTomb(id) !in s.tombs && ArtifactTomb(s.presigns[id].artifact) !in s.tombs
  {
    hide EffectsValid, HoldersValid, AttemptsValid, LeasesValid, DisabledValid, GenerationsValid, CutoversValid, PresignOk;
    hide NamesUnique, EffectsStrong, MetadataKept, DisabledStrong, AttemptsStrong, FencesStrong;
    assert PresignTomb(id) in s.tombs ==> TombOk(PresignTomb(id), s.tombs[PresignTomb(id)].keyId, s.gens, s.bySession, s.presigns, s.attempts, s.cutovers, s.nextCutover);
    var x := ArtifactTomb(s.presigns[id].artifact);
    assert x in s.tombs ==> TombOk(x, s.tombs[x].keyId, s.gens, s.bySession, s.presigns, s.attempts, s.cutovers, s.nextCutover);
  }

  predicate PresignClaims(s: State, presignId: string, metadata: Bytes, keys: set<string>) {
    OwnedIn(s, PresignTomb(presignId), keys) && OwnedIn(s, ArtifactTomb(Sha256(metadata)), keys)
  }

  lemma LocalClaims(s: State, presignId: string, metadata: Bytes, keys: set<string>)
    ensures PresignClaims(s, presignId, metadata, keys) ==>
      && (presignId in PresignsOf(s.presigns, keys) <==> presignId in s.presigns)
      && (PresignTomb(presignId) in TombsOf(s.tombs, keys) <==> PresignTomb(presignId) in s.tombs)
      && (ArtifactTomb(Sha256(metadata)) in TombsOf(s.tombs, keys) <==> ArtifactTomb(Sha256(metadata)) in s.tombs)
    ensures presignId !in s.presigns && PresignTomb(presignId) !in s.tombs ==> OwnedIn(s, PresignTomb(presignId), keys)
  {
    hide PresignsOf, TombsOf;
  }

  lemma CommitPresignRetryAgrees(s: State, lease: Lease, presignId: string, blob: Bytes, metadata: Bytes, keys: set<string>)
    requires Inv(s) && lease.binding.keyId in keys && lease.token in s.effects
    ensures Agree(CommitAvailablePresign(s, lease, presignId, blob, metadata), CommitAvailablePresign(Restrict(s, keys), lease, presignId, blob, metadata), keys,
                  TokenIn(s, lease, keys), PresignClaims(s, presignId, metadata, keys))
  {
    hide Inv, Restrict, GensOf, ByKeyOf, LeasesOf, SessionsOf, EffectsOf, AnchorsOf, PresignsOf, AttemptsOf, CutoversOf, TombsOf;
    hide ValidLease, ValidPresignInput, IsCurrent, HasConflictingArtifact, StorePresign, EffectDigest;
    RestrictFields(s, keys);
    EffectFact(s, lease.token);
    if presignId in s.presigns { ArtifactFact(s, presignId); }
  }

  lemma CommitPresignFreshAgrees(s: State, lease: Lease, presignId: string, blob: Bytes, metadata: Bytes, keys: set<string>)
    requires Inv(s) && lease.binding.keyId in keys && lease.token !in s.effects
    ensures Agree(CommitAvailablePresign(s, lease, presignId, blob, metadata), CommitAvailablePresign(Restrict(s, keys), lease, presignId, blob, metadata), keys,
                  TokenIn(s, lease, keys), PresignClaims(s, presignId, metadata, keys))
  {
    hide Inv, Restrict, GensOf, ByKeyOf, LeasesOf, SessionsOf, EffectsOf, AnchorsOf, PresignsOf, AttemptsOf, CutoversOf, TombsOf;
    hide ValidLease, ValidPresignInput, IsCurrent, StorePresign, EffectDigest, HasConflictingArtifact;
    RestrictFields(s, keys);
    CurrentGuards(s, keys, lease.binding);
    LocalClaims(s, presignId, metadata, keys);
    if presignId !in s.presigns { ArtifactLocal(s, presignId, Sha256(metadata), keys); }
    hide OwnedIn;
    if lease.token in s.leases && SameLease(s.leases[lease.token], lease) && presignId !in s.presigns {
      SliceStorePresign(s, lease.token, presignId, Presign(lease.binding, blob, metadata, Sha256(metadata), AvailablePresign, "", ""),
                        EffectDigest(PresignLabel, lease.binding, presignId, blob, metadata), keys);
    }
  }

  lemma CommitPresignFramed(s: State, lease: Lease, presignId: string, blob: Bytes, metadata: Bytes, away: set<string>)
    requires lease.binding.keyId !in away
    ensures Framed(s, CommitAvailablePresign(s, lease, presignId, blob, metadata), away)
  {
    hide Restrict, ValidLease, ValidPresignInput, IsCurrent, HasConflictingArtifact, EffectDigest, StorePresign;
    if lease.token in s.leases && SameLease(s.leases[lease.token], lease) && presignId !in s.presigns {
      SliceStorePresign(s, lease.token, presignId, Presign(lease.binding, blob, metadata, Sha256(metadata), AvailablePresign, "", ""),
                        EffectDigest(PresignLabel, lease.binding, presignId, blob, metadata), away);
    }
  }

  lemma PrepareAgrees(s: State, binding: Binding, presignId: string, keys: set<string>)
    requires Inv(s) && binding.keyId in keys
    ensures Agree(PreparePresignCandidate(s, binding, presignId), PreparePresignCandidate(Restrict(s, keys), binding, presignId), keys, true, true)
  {
    hide Inv, Restrict, GensOf, ByKeyOf, LeasesOf, SessionsOf, EffectsOf, AnchorsOf, PresignsOf, AttemptsOf, CutoversOf, TombsOf;
    hide ValidBinding, ValidText, IsCurrent;
    RestrictFields(s, keys);
    CurrentGuards(s, keys, binding);
  }

  lemma BurnAgrees(s: State, binding: Binding, presignId: string, reason: string, keys: set<string>)
    requires Inv(s) && binding.keyId in keys
    ensures Agree(BurnPresign(s, binding, presignId, reason), BurnPresign(Restrict(s, keys), binding, presignId, reason), keys, true, true)
  {
    hide Inv, Restrict, GensOf, ByKeyOf, LeasesOf, SessionsOf, EffectsOf, AnchorsOf, PresignsOf, AttemptsOf, CutoversOf, TombsOf;
    hide ValidBinding, ValidText;
    RestrictFields(s, keys);
    if presignId in s.presigns {
      SlicePresign(s, presignId, s.presigns[presignId].(blob := [], metadata := [], state := BurnedPresign, reason := reason), keys);
    }
  }

  lemma BurnFramed(s: State, binding: Binding, presignId: string, reason: string, away: set<string>)
    requires binding.keyId !in away
    ensures Framed(s, BurnPresign(s, binding, presignId, reason), away)
  {
    hide Restrict, ValidBinding, ValidText;
    if presignId in s.presigns {
      SlicePresign(s, presignId, s.presigns[presignId].(blob := [], metadata := [], state := BurnedPresign, reason := reason), away);
    }
  }

  // ----------------------------------------------------------------- attempts

  lemma AttemptTombs(s: State, id: string)
    requires Inv(s) && id in s.attempts
    ensures AttemptTomb(id) !in s.tombs && s.attempts[id].presignId in s.presigns && PresignTomb(s.attempts[id].presignId) !in s.tombs
    ensures s.presigns[s.attempts[id].presignId].binding == s.attempts[id].binding
  {
    hide Inv, ProgressOk, ValidIntent, ValidText;
    AttemptFact(s, id);
    ArtifactFact(s, s.attempts[id].presignId);
    if AttemptTomb(id) in s.tombs { TombFact(s, AttemptTomb(id)); assert false; }
  }

  lemma CommitAttemptKnownAgrees(s: State, binding: Binding, presignId: string, intent: Intent, outbox: Bytes, keys: set<string>)
    requires Inv(s) && binding.keyId in keys && intent.attemptId in s.attempts
    ensures Agree(CommitSignAttempt(s, binding, presignId, intent, outbox), CommitSignAttempt(Restrict(s, keys), binding, presignId, intent, outbox), keys,
                  true, OwnedIn(s, AttemptTomb(intent.attemptId), keys))
  {
    hide Inv, Restrict, GensOf, ByKeyOf, LeasesOf, SessionsOf, EffectsOf, AnchorsOf, PresignsOf, AttemptsOf, CutoversOf, TombsOf;
    hide ValidBinding, ValidText, ValidIntent, ValidBlob, IsCurrent, HasActiveSignLease, PutPair;
    RestrictFields(s, keys);
    AttemptTombs(s, intent.attemptId);
  }

  lemma CommitAttemptHeldAgrees(s: State, binding: Binding, presignId: string, intent: Intent, outbox: Bytes, keys: set<string>)
    requires Inv(s) && binding.keyId in keys && intent.attemptId !in s.attempts
    requires presignId in s.presigns && s.presigns[presignId].binding == binding
    ensures Agree(CommitSignAttempt(s, binding, presignId, intent, outbox), CommitSignAttempt(Restrict(s, keys), binding, presignId, intent, outbox), keys,
                  true, OwnedIn(s, AttemptTomb(intent.attemptId), keys))
  {
    hide Inv, Restrict, GensOf, ByKeyOf, LeasesOf, SessionsOf, EffectsOf, AnchorsOf, PresignsOf, AttemptsOf, CutoversOf, TombsOf;
    hide ValidBinding, ValidText, ValidIntent, ValidBlob, IsCurrent, HasActiveSignLease, PutPair, SameBase;
    RestrictFields(s, keys);
    CurrentGuards(s, keys, binding);
    ArtifactFact(s, presignId);
    var p := s.presigns[presignId];
    SlicePutPair(s, presignId, p.(blob := [], metadata := [], state := ClaimedPresign, attemptId := intent.attemptId), intent.attemptId,
                 Attempt(binding, presignId, intent, p.metadata, outbox, Sha256(outbox), [], [], false, false, false, ""), keys);
  }

  lemma CommitAttemptUnheldAgrees(s: State, binding: Binding, presignId: string, intent: Intent, outbox: Bytes, keys: set<string>)
    requires Inv(s) && binding.keyId in keys && intent.attemptId !in s.attempts
    requires !(presignId in s.presigns && s.presigns[presignId].binding == binding)
    ensures Agree(CommitSignAttempt(s, binding, presignId, intent, outbox), CommitSignAttempt(Restrict(s, keys), binding, presignId, intent, outbox), keys,
                  true, OwnedIn(s, AttemptTomb(intent.attemptId), keys))
  {
    hide Inv, Restrict, GensOf, ByKeyOf, LeasesOf, SessionsOf, EffectsOf, AnchorsOf, PresignsOf, AttemptsOf, CutoversOf, TombsOf;
    hide ValidBinding, ValidText, ValidIntent, ValidBlob, IsCurrent, HasActiveSignLease, PutPair, SameBase;
    RestrictFields(s, keys);
    CurrentGuards(s, keys, binding);
  }

  lemma CommitAttemptFreshAgrees(s: State, binding: Binding, presignId: string, intent: Intent, outbox: Bytes, keys: set<string>)
    requires Inv(s) && binding.keyId in keys && intent.attemptId !in s.attempts
    ensures Agree(CommitSignAttempt(s, binding, presignId, intent, outbox), CommitSignAttempt(Restrict(s, keys), binding, presignId, intent, outbox), keys,
                  true, OwnedIn(s, AttemptTomb(intent.attemptId), keys))
  {
    hide *;
    if presignId in s.presigns && s.presigns[presignId].binding == binding {
      CommitAttemptHeldAgrees(s, binding, presignId, intent, outbox, keys);
    } else {
      CommitAttemptUnheldAgrees(s, binding, presignId, intent, outbox, keys);
    }
  }

  lemma CommitAttemptFramed(s: State, binding: Binding, presignId: string, intent: Intent, outbox: Bytes, away: set<string>)
    requires binding.keyId !in away
    ensures Framed(s, CommitSignAttempt(s, binding, presignId, intent, outbox), away)
  {
    hide Restrict, ValidBinding, ValidText, ValidIntent, ValidBlob, IsCurrent, HasActiveSignLease, SameBase, PutPair;
    if presignId in s.presigns && s.presigns[presignId].binding == binding && intent.attemptId !in s.attempts {
      var p := s.presigns[presignId];
      SlicePutPair(s, presignId, p.(blob := [], metadata := [], state := ClaimedPresign, attemptId := intent.attemptId), intent.attemptId,
                   Attempt(binding, presignId, intent, p.metadata, outbox, Sha256(outbox), [], [], false, false, false, ""), away);
    }
  }

  lemma QueryAttemptAgrees(s: State, query: AttemptQuery, keys: set<string>)
    requires Inv(s) && query.binding.keyId in keys
    ensures Agree(QueryAttemptOutcome(s, query), QueryAttemptOutcome(Restrict(s, keys), query), keys, true, true)
  {
    hide Inv, Restrict, GensOf, ByKeyOf, LeasesOf, SessionsOf, EffectsOf, AnchorsOf, PresignsOf, AttemptsOf, CutoversOf, TombsOf;
    hide ValidQuery;
    RestrictFields(s, keys);
    if query.attemptId in s.attempts { AttemptTombs(s, query.attemptId); }
  }

  lemma ProgressAgrees(s: State, query: AttemptQuery, value: Bytes, kind: ProgressKind, keys: set<string>)
    requires Inv(s) && query.binding.keyId in keys
    ensures Agree(RecordAttemptProgress(s, query, value, kind), RecordAttemptProgress(Restrict(s, keys), query, value, kind), keys, true, true)
  {
    hide Inv, Restrict, GensOf, ByKeyOf, LeasesOf, SessionsOf, EffectsOf, AnchorsOf, PresignsOf, AttemptsOf, CutoversOf, TombsOf;
    hide ValidQuery, ValidBlob;
    RestrictFields(s, keys);
    if query.attemptId in s.attempts {
      SliceAttempt(s, query.attemptId, RecordProgress(s.attempts[query.attemptId], value, kind), keys);
    }
  }

  lemma ProgressFramed(s: State, query: AttemptQuery, value: Bytes, kind: ProgressKind, away: set<string>)
    requires query.binding.keyId !in away
    ensures Framed(s, RecordAttemptProgress(s, query, value, kind), away)
  {
    hide Restrict, ValidQuery, ValidBlob;
    if query.attemptId in s.attempts {
      SliceAttempt(s, query.attemptId, RecordProgress(s.attempts[query.attemptId], value, kind), away);
    }
  }

  lemma AbortAgrees(s: State, query: AttemptQuery, reason: string, keys: set<string>)
    requires Inv(s) && query.binding.keyId in keys
    ensures Agree(AbortAttempt(s, query, reason), AbortAttempt(Restrict(s, keys), query, reason), keys, true, true)
  {
    hide Inv, Restrict, GensOf, ByKeyOf, LeasesOf, SessionsOf, EffectsOf, AnchorsOf, PresignsOf, AttemptsOf, CutoversOf, TombsOf;
    hide ValidQuery, ValidText, PutPair;
    RestrictFields(s, keys);
    if query.attemptId in s.attempts {
      AttemptTombs(s, query.attemptId);
      var a := s.attempts[query.attemptId];
      SlicePutPair(s, a.presignId, s.presigns[a.presignId].(state := BurnedPresign, reason := reason), query.attemptId,
                   a.(aborted := true, abortReason := reason, exactOutbox := []), keys);
    }
  }

  lemma AbortFramed(s: State, query: AttemptQuery, reason: string, away: set<string>)
    requires Inv(s) && query.binding.keyId !in away
    ensures Framed(s, AbortAttempt(s, query, reason), away)
  {
    hide Inv, Restrict, ValidQuery, ValidText, PutPair;
    if query.attemptId in s.attempts {
      AttemptTombs(s, query.attemptId);
      var a := s.attempts[query.attemptId];
      SlicePutPair(s, a.presignId, s.presigns[a.presignId].(state := BurnedPresign, reason := reason), query.attemptId,
                   a.(aborted := true, abortReason := reason, exactOutbox := []), away);
    }
  }
}

/** The root index: which lineage owns, or has used up, an identifier of a
    namespace that all lineages share. */
module LifecycleIndex {
  import opened LifecycleRecords
  import opened LifecycleState
  import opened LifecycleOps
  import opened LifecycleInvariant
  import opened LifecycleTheorems
  import opened LifecycleSlices
  import opened LifecycleLocality
  import opened LifecycleLocalityArtifacts

  datatype Entry = Entry(id: TombKey, keyId: string, tomb: bool)

  predicate ArtifactHeld(presigns: map<string, Presign>, artifact: Digest, keyId: string) {
    exists id :: id in presigns && presigns[id].artifact == artifact && presigns[id].binding.keyId == keyId
  }

  /** The entries a state gives rise to. */
  predicate InIndex(s: State, e: Entry) {
    if e.tomb then e.id in s.tombs && s.tombs[e.id].keyId == e.keyId
    else match e.id
      case SessionTomb(i) => i in s.bySession && s.bySession[i] in s.leases && s.leases[s.bySession[i]].binding.keyId == e.keyId
      case PresignTomb(id) => id in s.presigns && s.presigns[id].binding.keyId == e.keyId
      case ArtifactTomb(d) => ArtifactHeld(s.presigns, d, e.keyId)
      case AttemptTomb(id) => id in s.attempts && s.attempts[id].binding.keyId == e.keyId
      case _ => false
  }

  /** An identifier has one owner, and is in use or used up but not both. */
  lemma IndexUnique(s: State, e: Entry, f: Entry)
    requires Inv(s) && InIndex(s, e) && InIndex(s, f) && e.id == f.id
    ensures e == f
  {
    hide Inv;
    if e.tomb { TombFact(s, e.id); }
    if f.tomb { TombFact(s, f.id); }
    if e.id.ArtifactTomb? && !e.tomb && !f.tomb {
      var x :| x in s.presigns && s.presigns[x].artifact == e.id.artifact && s.presigns[x].binding.keyId == e.keyId;
      ArtifactFact(s, x);
    }
  }

  lemma ArtifactHeldLocal(m: map<string, Presign>, artifact: Digest, keyId: string, keys: set<string>)
    requires keyId in keys
    ensures ArtifactHeld(PresignsOf(m, keys), artifact, keyId) <==> ArtifactHeld(m, artifact, keyId)
  {
    hide PresignsOf;
    var r := PresignsOf(m, keys);
    assert forall id | id in m && m[id].binding.keyId == keyId :: id in r && r[id] == m[id];
  }

  /** A lineage's entries are the entries of its slice. */
  lemma EntryLocal(s: State, e: Entry, keys: set<string>)
    requires e.keyId in keys
    ensures InIndex(Restrict(s, keys), e) <==> InIndex(s, e)
  {
    hide Restrict, GensOf, ByKeyOf, LeasesOf, SessionsOf, EffectsOf, AnchorsOf, PresignsOf, AttemptsOf, CutoversOf, TombsOf, ArtifactHeld;
    RestrictFields(s, keys);
    if e.tomb {
    } else {
      match e.id
      case SessionTomb(i) =>
      case PresignTomb(id) =>
      case ArtifactTomb(d) => ArtifactHeldLocal(s.presigns, d, e.keyId, keys);
      case AttemptTomb(id) =>
      case _ =>
    }
  }

  lemma EntrySlice(s: State, e: Entry, keys: set<string>)
    requires e.keyId in keys
    ensures InIndex(Slice(s, keys), e) <==> InIndex(s, e)
  {
    hide Restrict, ArtifactHeld;
    EntryLocal(s, e, keys);
  }

  /** Who owns an identifier is read off the index. */
  lemma OwnedByIndex(s: State, x: TombKey, keys: set<string>)
    requires Inv(s) && forall e | InIndex(s, e) && e.id == x :: e.keyId in keys
    ensures OwnedIn(s, x, keys)
  {
    hide Inv;
    if x in s.tombs { assert InIndex(s, Entry(x, s.tombs[x].keyId, true)); }
    match x
    case SessionTomb(i) =>
      if i in s.bySession && s.bySession[i] in s.leases { assert InIndex(s, Entry(x, s.leases[s.bySession[i]].binding.keyId, false)); }
    case PresignTomb(id) => if id in s.presigns { assert InIndex(s, Entry(x, s.presigns[id].binding.keyId, false)); }
    case ArtifactTomb(d) =>
      forall id | id in s.presigns && s.presigns[id].artifact == d ensures s.presigns[id].binding.keyId in keys {
        assert InIndex(s, Entry(x, s.presigns[id].binding.keyId, false));
      }
    case AttemptTomb(id) => if id in s.attempts { assert InIndex(s, Entry(x, s.attempts[id].binding.keyId, false)); }
    case _ =>
  }

  lemma LeaseEntered(s: State, binding: Binding, kind: RunKind, session: SessionId)
    requires Inv(s) && AcquireRunLease(s, binding, kind, session).result.Ok?
    ensures InIndex(AcquireRunLease(s, binding, kind, session).state, Entry(SessionTomb(session), binding.keyId, false))
  {
    hide Inv, ValidBinding, HasGenerationForKey, HasActiveLeaseForKey, HasIncompatibleLease, IsCurrent;
    if session in s.bySession { SessionFact(s, session); }
  }

  lemma ReceiverEntered(s: State, anchor: ReceiverAnchor)
    requires Inv(s) && AcquireReshareReceiverLease(s, anchor).result.Ok?
    ensures InIndex(AcquireReshareReceiverLease(s, anchor).state, Entry(SessionTomb(anchor.session), anchor.source.keyId, false))
  {
    hide Inv, ValidAnchor, HasKeyGeneration, HasActiveLeaseForKey, HasNonTerminalAttemptForKey;
    if anchor.session in s.bySession { LocalAnchor(s, s.bySession[anchor.session], {}); }
  }

  lemma PresignEntered(s: State, lease: Lease, presignId: string, blob: Bytes, metadata: Bytes)
    requires CommitAvailablePresign(s, lease, presignId, blob, metadata).result.Ok?
    ensures InIndex(CommitAvailablePresign(s, lease, presignId, blob, metadata).state, Entry(PresignTomb(presignId), lease.binding.keyId, false))
    ensures InIndex(CommitAvailablePresign(s, lease, presignId, blob, metadata).state, Entry(ArtifactTomb(Sha256(metadata)), lease.binding.keyId, false))
  {
    hide ValidLease, ValidPresignInput, IsCurrent, HasConflictingArtifact;
    var after := CommitAvailablePresign(s, lease, presignId, blob, metadata).state;
    assert presignId in after.presigns && after.presigns[presignId].binding == lease.binding && after.presigns[presignId].artifact == Sha256(metadata);
  }

  lemma AttemptEntered(s: State, binding: Binding, presignId: string, intent: Intent, outbox: Bytes)
    requires CommitSignAttempt(s, binding, presignId, intent, outbox).result.Ok?
    ensures InIndex(CommitSignAttempt(s, binding, presignId, intent, outbox).state, Entry(AttemptTomb(intent.attemptId), binding.keyId, false))
  {
    hide ValidBinding, ValidText, ValidIntent, ValidBlob, IsCurrent, HasActiveSignLease;
  }

  /** After an accepted operation every identifier it claims is entered under a
      lineage the operation names. */
  lemma ClaimsEntered(s: State, op: Op, x: TombKey)
    requires Inv(s) && Apply(s, op).result.Ok? && x in ClaimsOf(op)
    ensures exists e :: InIndex(Apply(s, op).state, e) && e.id == x && e.keyId in KeysOf(op)
  {
    hide Inv, InIndex;
    hide AcquireRunLease, AcquireReshareReceiverLease, CommitAvailablePresign, CommitSignAttempt;
    match op
    case OpAcquireLease(binding, kind, session) => LeaseEntered(s, binding, kind, session);
    case OpAcquireReceiver(anchor) => ReceiverEntered(s, anchor);
    case OpCommitPresign(lease, presignId, blob, metadata) => PresignEntered(s, lease, presignId, blob, metadata);
    case OpCommitAttempt(binding, presignId, intent, outbox) => AttemptEntered(s, binding, presignId, intent, outbox);
    case _ =>
  }
}

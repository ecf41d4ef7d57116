/** Record types and record validation of the durable lifecycle boundary.

    Digests are symbolic: sha256 and the lease-effect transcript are free
    constructors, which is exactly the assumption that they are injective.
    Byte strings are sequences; fixed-width identifiers (sessions, epochs) are
    the number their bytes spell, so the forbidden all-zero value is 0. */
module LifecycleRecords {
  import opened Options
  newtype byte = x: int | 0 <= x < 256
  type Bytes = seq<byte>

  type SessionId = nat
  type EpochId = nat
  type Token = nat

  datatype Error =
    | InvalidRecord
    | GenerationNotCurrent
    | GenerationConflict
    | RunLeaseConflict
    | RunLeaseNotFound
    | SessionAlreadyUsed
    | RefreshDisabled
    | PresignUnavailable
    | PresignBurned
    | AttemptNotFound
    | AttemptConflict
    | AttemptNonDeterminism
    | PersistFailed
    | CutoverConflict
    | LifecycleCorrupt
    | HistoryCompacted

  datatype Result<+T> = Ok(value: T) | Err(error: Error)

  // ---------------------------------------------------------------- identity

  datatype Binding = Binding(keyId: string, generation: string, epochId: EpochId)

  datatype EffectLabel = PresignLabel | ChildGenerationLabel | ReceiverGenerationLabel

  datatype Digest =
    | Sha256(data: Bytes)
    | LeaseEffectDigest(purpose: EffectLabel, binding: Binding, identifier: string,
                        blobDigest: Digest, metadataDigest: Digest)

  function EffectDigest(purpose: EffectLabel, binding: Binding, identifier: string, blob: Bytes, metadata: Bytes): Digest {
    LeaseEffectDigest(purpose, binding, identifier, Sha256(blob), Sha256(metadata))
  }

  // ----------------------------------------------------------------- records

  datatype GenerationStatus = CurrentGeneration | RetiredGeneration

  datatype Generation = Generation(binding: Binding, blob: Bytes, metadata: Bytes, status: GenerationStatus)

  /** A run kind is a free string in the store's interface; `OtherKind` is any
      string that names no run kind. */
  datatype RunKind = Keygen | Presigning | Signing | ChildDerivation | Refresh | Reshare | OtherKind(name: string)

  datatype LeaseState = UnsetState | Active | Completed | Aborted

  datatype LeaseOutcome = LeaseCompleted | LeaseAborted | OtherOutcome

  datatype Lease = Lease(token: Token, binding: Binding, kind: RunKind, session: SessionId, state: LeaseState)

  datatype DisabledRecord = DisabledRecord(keyId: string, session: SessionId, reason: string)

  datatype ReceiverAnchor = ReceiverAnchor(source: Binding, targetGeneration: string, session: SessionId,
                                           planDigest: Bytes, sourceEpochDigest: Bytes)

  datatype Intent = Intent(attemptId: string, session: SessionId, intentDigest: Bytes)

  datatype AttemptQuery = AttemptQuery(binding: Binding, presignId: string, attemptId: string, intentDigest: Bytes)

  datatype Attempt = Attempt(binding: Binding, presignId: string, intent: Intent, presignMetadata: Bytes,
                             exactOutbox: Bytes, outboxDigest: Digest, delivery: Bytes, completion: Bytes,
                             delivered: bool, completed: bool, aborted: bool, abortReason: string)
  {
    /** No outbound replay or completion work remains. */
    predicate Terminal() { aborted || (delivered && completed) }

    function Query(): AttemptQuery {
      AttemptQuery(binding, presignId, intent.attemptId, intent.intentDigest)
    }
  }

  datatype PresignCandidate = PresignCandidate(binding: Binding, presignId: string, blob: Bytes, metadata: Bytes)

  datatype Fence = Fence(token: Token, source: Binding, target: Binding)

  datatype PresignState = AvailablePresign | ClaimedPresign | BurnedPresign

  datatype Presign = Presign(binding: Binding, blob: Bytes, metadata: Bytes, artifact: Digest,
                             state: PresignState, attemptId: string, reason: string)

  datatype EffectKind =
    | PresignEffect(presignId: string, digest: Digest)
    | CutoverEffect(target: Binding, cutoverToken: Token)
    | RefreshFailedEffect(reason: string)
    | ChildEffect(target: Binding, digest: Digest)
    | ReceiverEffect(target: Binding, digest: Digest)
    | RetirementEffect(target: Binding)
  {
    predicate HasTarget() { !PresignEffect? && !RefreshFailedEffect? }
  }

  datatype Effect = Effect(leaseToken: Token, kind: EffectKind)

  datatype CutoverState = ActiveCutover | CommittedCutover | AbortedCutover

  datatype Cutover = Cutover(fence: Fence, state: CutoverState, targetBlob: Option<Digest>,
                             targetMetadata: Option<Digest>, reason: string)

  /** What a tombstone names. The namespace and the hashed identifier of the
      store together are this value. */
  datatype TombKey =
    | GenerationTomb(binding: Binding)
    | GenerationNameTomb(keyId: string, generation: string)
    | SessionTomb(session: SessionId)
    | PresignTomb(presignId: string)
    | ArtifactTomb(artifact: Digest)
    | AttemptTomb(attemptId: string)
    | CutoverTomb(token: Token)

  datatype Tombstone = Tombstone(keyId: string, state: string)

  // -------------------------------------------------------------- validation

  const MAX_IDENTIFIER_BYTES: nat := 256
  const MAX_BLOB_BYTES: nat := 16 * 1024 * 1024
  const DIGEST_BYTES: nat := 32
  const CUTOVER_REASON := "generation cutover"

  function CharBytes(c: char): nat {
    var code := c as int;
    if code < 0x80 then 1 else if code < 0x800 then 2 else if code < 0x10000 then 3 else 4
  }

  function Utf8Length(s: string): nat {
    if s == "" then 0 else CharBytes(s[0]) + Utf8Length(s[1..])
  }

  /** Identifiers and reasons: present, at most 256 encoded bytes, no control characters. */
  predicate ValidText(s: string) {
    s != "" && Utf8Length(s) <= MAX_IDENTIFIER_BYTES && forall c | c in s :: 0x20 <= c as int && c as int != 0x7f
  }

  predicate ValidBlob(b: Bytes, required: bool) {
    (required ==> b != []) && |b| <= MAX_BLOB_BYTES
  }

  predicate ValidBinding(b: Binding) {
    ValidText(b.keyId) && ValidText(b.generation) && b.epochId != 0
  }

  predicate ValidSession(s: SessionId) { s != 0 }

  predicate ValidKind(k: RunKind) { !k.OtherKind? }

  predicate ExclusiveKind(k: RunKind) { k.Keygen? || k.ChildDerivation? || k.Refresh? || k.Reshare? }

  predicate CutoverKind(k: RunKind) { k.Refresh? || k.Reshare? }

  predicate ValidLease(l: Lease) {
    l.token != 0 && !l.state.UnsetState? && ValidBinding(l.binding) && ValidKind(l.kind) && ValidSession(l.session)
  }

  predicate ZeroDigest(b: Bytes) { forall i | 0 <= i < |b| :: b[i] == 0 }

  predicate ValidAnchor(a: ReceiverAnchor) {
    && ValidBinding(a.source)
    && ValidText(a.targetGeneration) && a.targetGeneration != a.source.generation
    && ValidSession(a.session)
    && |a.planDigest| == DIGEST_BYTES && |a.sourceEpochDigest| == DIGEST_BYTES
    && !ZeroDigest(a.planDigest) && !ZeroDigest(a.sourceEpochDigest)
  }

  predicate ValidIntent(i: Intent) {
    ValidText(i.attemptId) && ValidSession(i.session) && |i.intentDigest| == DIGEST_BYTES
  }

  predicate ValidQuery(q: AttemptQuery) {
    ValidBinding(q.binding) && ValidText(q.presignId) && ValidText(q.attemptId) && |q.intentDigest| == DIGEST_BYTES
  }

  predicate ValidCutoverBindings(source: Binding, target: Binding) {
    && ValidBinding(source) && ValidBinding(target)
    && source.keyId == target.keyId
    && source.generation != target.generation
    && source.epochId != target.epochId
  }

  predicate ValidFence(f: Fence) { f.token != 0 && ValidCutoverBindings(f.source, f.target) }

  predicate ValidPresignInput(b: Binding, presignId: string, blob: Bytes, metadata: Bytes) {
    ValidBinding(b) && ValidText(presignId) && ValidBlob(blob, true) && ValidBlob(metadata, true)
  }

  predicate SameQuery(a: Attempt, q: AttemptQuery) { a.Query() == q }

  /** The immutable part of an attempt that a commit must repeat exactly. */
  predicate SameBase(a: Attempt, binding: Binding, presignId: string, intent: Intent, outboxDigest: Digest) {
    a.binding == binding && a.presignId == presignId && a.intent == intent && a.outboxDigest == outboxDigest
  }

  lemma {:induction false} Utf8LengthBound(s: string)
    ensures Utf8Length(s) <= 4 * |s|
  {
    if s != "" { Utf8LengthBound(s[1..]); }
  }

  lemma ShortTextValid(s: string)
    requires 0 < |s| <= 64
    requires forall i | 0 <= i < |s| :: 0x20 <= s[i] as int < 0x7f
    ensures ValidText(s)
  {
    Utf8LengthBound(s);
  }

  lemma CutoverReasonValid()
    ensures ValidText(CUTOVER_REASON)
  {
    ShortTextValid(CUTOVER_REASON);
  }
}

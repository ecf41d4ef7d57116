/** The file store refines the store it shards: for every run of operations the
    snapshots and buckets on disk represent one valid state, and each reply is
    the reply of that state. */
module LifecycleFileRuns {
  import opened LifecycleRecords
  import opened LifecycleState
  import opened LifecycleOps
  import opened LifecycleInvariant
  import opened LifecycleInductive
  import opened LifecyclePreservation
  import opened LifecycleSlices
  import opened LifecycleLocality
  import opened LifecycleLocalityCutovers
  import opened LifecycleRestriction
  import opened LifecycleLineages
  import opened LifecycleIndex
  import opened LifecycleBuckets
  import opened LifecycleFileStore
  import LifecycleValidator
  import opened LifecycleRuns
  import opened LifecycleEvolution
  import opened LifecycleTheorems

  /** Operations that only read are not published. */
  predicate Mutates(op: Op) {
    !(op.OpLoadCurrent? || op.OpQueryLease? || op.OpPrepareCandidate? || op.OpQueryAttempt?)
  }

  /** What one transaction does to the state the disk represents. */
  function Publish(s: State, op: Op): Step {
    var step := Apply(s, op);
    if step.result.Ok? && Mutates(op) then Step(Bump(step.state, s.nextLease + 1), step.result) else Step(s, step.result)
  }

  predicate EmptyRecords(s: State) {
    s.gens == map[] && s.leases == map[] && s.presigns == map[] && s.attempts == map[] && s.cutovers == map[] && s.tombs == map[]
  }

  // ------------------------------------------------------------------- loading

  lemma NothingQueued(s: State, queue: seq<string>)
    ensures ClosedUpTo(s, {}, queue)
  {
  }

  lemma ClosedAtEnd(s: State, loaded: set<string>)
    requires ClosedUpTo(s, loaded, [])
    ensures Closed(s, loaded)
  {
  }

  lemma HeldAt(lineages: map<string, Lineage>, s: State, k: string)
    requires Holds(lineages, s)
    ensures k in lineages ==> lineages[k] == Encode(s, k)
    ensures k !in lineages ==> Encode(s, k) == EmptyLineage
  {
    hide Encode;
    assert LineageAt(lineages, k) == Encode(s, k);
  }

  lemma EncodedEffects(s: State, k: string)
    ensures Encode(s, k).effects == EffectsOf(s.effects, s.leases, {k})
    ensures forall t | t in EffectsOf(s.effects, s.leases, {k}) :: Encode(s, k).effects[t] == s.effects[t]
  {
  }

  /** Loads the named lineages and every lineage their effects lead to, and
      validates what it loaded. */
  method Load(lineages: map<string, Lineage>, txId: nat, keyIds: seq<string>, ghost s: State) returns (r: Result<State>, ghost loaded: set<string>)
    requires Inv(s) && Holds(lineages, s) && s.nextLease == txId && s.nextCutover == txId
    ensures r.Ok? && Inv(r.value)
    ensures r == Ok(Restrict(s, loaded))
    ensures (forall k | k in keyIds :: k in loaded) && Closed(s, loaded)
  {
    hide Inv, Restrict, Slice, Encode, ClosedUpTo, Closed, Targets, Holds, EffectsOf, Valid;
    var memory := Empty.(nextLease := txId, nextCutover := txId);
    var seen: set<string> := {};
    var queue := keyIds;
    NothingLoaded(s);
    NothingQueued(s, queue);
    ghost var universe := (set k | k in keyIds) + Targets(lineages);
    while queue != []
      invariant memory == Restrict(s, seen)
      invariant forall k | k in keyIds :: k in seen || k in queue
      invariant ClosedUpTo(s, seen, queue)
      invariant forall k | k in queue :: k in universe
      decreases universe - seen, |queue|
    {
      var keyId, rest := queue[0], queue[1..];
      assert queue == [keyId] + rest;
      HeldAt(lineages, s, keyId);
      EncodedEffects(s, keyId);
      if keyId in seen {
        ClosedSkip(s, seen, keyId, rest);
        queue := rest;
      } else if keyId !in lineages {
        AbsentLineage(s, seen, keyId);
        ClosedStep(s, seen, keyId, rest, []);
        assert rest + [] == rest;
        queue, seen := rest, seen + {keyId};
      } else {
        var lineage := ReadLineage(lineages[keyId], keyId, s);
        var targets := TargetsOf(lineages[keyId].effects, keyId);
        var merged := MergeLineage(memory, lineage, keyId, s, seen);
        ClosedStep(s, seen, keyId, rest, targets);
        if merged.Err? { return Err(LifecycleCorrupt), seen; }
        memory := merged.value;
        queue, seen := rest + targets, seen + {keyId};
      }
    }
    ClosedAtEnd(s, seen);
    RestrictInv(s, seen);
    InvValid(memory);
    var accepted := LifecycleValidator.ValidateState(memory);
    if !accepted && !EmptyRecords(memory) { return Err(LifecycleCorrupt), seen; }
    return Ok(memory), seen;
  }

  lemma InvValid(s: State)
    requires Inv(s)
    ensures Valid(s)
  {
    hide Valid, Strong;
  }

  // ---------------------------------------------------------------- publishing

  /** Writes a snapshot of each of the lineages. */
  method WriteLineages(lineages: map<string, Lineage>, memory: State, keys: set<string>) returns (out: map<string, Lineage>)
    ensures forall k: string :: LineageAt(out, k) == if k in keys then Encode(memory, k) else LineageAt(lineages, k)
  {
    hide Encode;
    out := lineages;
    var todo := keys;
    while todo != {}
      invariant todo <= keys
      invariant forall k: string :: LineageAt(out, k) == if k in keys && k !in todo then Encode(memory, k) else LineageAt(lineages, k)
      decreases todo
    {
      var k :| k in todo;
      todo := todo - {k};
      out := out[k := Encode(memory, k)];
    }
  }

  lemma EncodeBumped(s: State, n: nat)
    ensures forall k: string :: Encode(Bump(s, n), k) == Encode(s, k)
    ensures forall e: Entry :: InIndex(Bump(s, n), e) <==> InIndex(s, e)
  {
    hide GensOf, ByKeyOf, LeasesOf, SessionsOf, EffectsOf, AnchorsOf, PresignsOf, AttemptsOf, CutoversOf, TombsOf, ArtifactHeld;
  }

  /** The new snapshots and buckets represent the published state. */
  lemma Published(s: State, op: Op, loaded: set<string>, lineages: map<string, Lineage>, out: map<string, Lineage>,
                  buckets: Buckets, newBuckets: Buckets, bucketOf: TombKey -> nat, left: set<Entry>, entered: set<Entry>)
    requires Inv(s) && KeysOf(op) <= loaded && Apply(s, op).result.Ok? && LeaseIn(s, op, loaded) && Mutates(op)
    requires Represents(s.nextLease, lineages, buckets, bucketOf, s)
    requires EntriesAround(Restrict(s, loaded), Apply(Restrict(s, loaded), op).state, KeysOf(op), left, entered)
    requires forall k: string :: LineageAt(out, k) == if k in KeysOf(op) then Encode(Apply(Restrict(s, loaded), op).state, k) else LineageAt(lineages, k)
    requires Updated(buckets, newBuckets, bucketOf, KeysOf(op), Prefixes(bucketOf, left + entered), entered)
    ensures Represents(s.nextLease + 1, out, newBuckets, bucketOf, Publish(s, op).state) && Inv(Publish(s, op).state)
  {
    hide Inv, Apply, Restrict, KeysOf, LeaseIn, LineageAt, Encode, InIndex, BucketAt, Updated, EntriesAround, Prefixes;
    SnapshotsFollow(s, op, loaded, lineages, out);
    IndexFollows(s, op, loaded, buckets, bucketOf, left, entered);
    StepKeepsInv(s, op);
    OpFramed(s, op, {});
    EncodeBumped(Apply(s, op).state, s.nextLease + 1);
    BumpInv(Apply(s, op).state, s.nextLease + 1);
  }

  method Listed(keys: set<string>) returns (list: seq<string>)
    ensures forall k :: k in list <==> k in keys
  {
    list := [];
    var todo := keys;
    while todo != {}
      invariant todo <= keys
      invariant forall k :: k in list <==> k in keys && k !in todo
      decreases todo
    {
      var k :| k in todo;
      todo := todo - {k};
      list := list + [k];
    }
  }

  lemma LeasesFact(s: State)
    requires Inv(s)
    ensures LeasesValid(s.leases, s.bySession, s.nextLease)
  {
    hide LeasesValid;
  }

  /** A read claims nothing and changes nothing. */
  lemma ReadsOnly(s: State, op: Op, keys: set<string>)
    requires !Mutates(op)
    ensures ClaimsOwned(s, op, keys) && Publish(s, op) == Step(s, Apply(s, op).result)
  {
    hide Apply, OwnedIn;
  }

  lemma EmptyShown(bucketOf: TombKey -> nat)
    ensures Inv(Empty) && Represents(0, map[], map[], bucketOf, Empty)
  {
    EmptyInv();
    hide Inv, GensOf, ByKeyOf, LeasesOf, SessionsOf, EffectsOf, AnchorsOf, PresignsOf, AttemptsOf, CutoversOf, TombsOf;
  }

  lemma LeaseInMore(s: State, op: Op, keys: set<string>)
    requires KeysOf(op) <= keys
    ensures LeaseIn(s, op, KeysOf(op)) ==> LeaseIn(s, op, keys)
  {
    hide KeysOf;
  }

  /** The operation presents no lease, or one as the store issued it. */
  predicate Issued(s: State, op: Op) {
    LeaseOf(op).Some? && LeaseOf(op).value.token in s.leases ==> s.leases[LeaseOf(op).value.token].binding == LeaseOf(op).value.binding
  }

  lemma IssuedIn(s: State, op: Op, keys: set<string>)
    requires Issued(s, op) && KeysOf(op) <= keys
    ensures LeaseIn(s, op, keys)
  {
  }

  // ---------------------------------------------------------------------- runs

  /** One served operation: an accepted one is answered and published as the
      shown state says; a refused one changes nothing, and is one that state
      refuses or one with a lease of a lineage it does not name. */
  predicate Follows(before: State, op: Op, result: Result<Reply>, after: State) {
    if result.Ok? then result == Apply(before, op).result && after == Publish(before, op).state
    else after == before && (Apply(before, op).result.Err? || !LeaseIn(before, op, KeysOf(op)))
  }

  predicate Trace(shown: seq<State>, ops: seq<Op>, results: seq<Result<Reply>>) {
    && |shown| == |ops| + 1 && |results| == |ops|
    && forall k | 0 <= k < |ops| :: Follows(shown[k], ops[k], results[k], shown[k + 1])
  }

  /** One operation under failures: an accepted one is answered and published as the
      shown state says; any other leaves the state, or is published although the
      caller was told of a failure. */
  predicate Moves(before: State, op: Op, result: Result<Reply>, after: State) {
    if result.Ok? then result == Apply(before, op).result && after == Publish(before, op).state
    else after == before || after == Publish(before, op).state
  }

  predicate History(shown: seq<State>, ops: seq<Op>, results: seq<Result<Reply>>) {
    && |shown| == |ops| + 1 && |results| == |ops|
    && forall k | 0 <= k < |ops| :: Moves(shown[k], ops[k], results[k], shown[k + 1])
  }

  lemma TraceIsHistory(shown: seq<State>, ops: seq<Op>, results: seq<Result<Reply>>)
    requires Trace(shown, ops, results)
    ensures History(shown, ops, results)
  {
    hide Apply, Publish, LeaseIn, KeysOf;
    forall k | 0 <= k < |ops| ensures Moves(shown[k], ops[k], results[k], shown[k + 1]) {
      assert Follows(shown[k], ops[k], results[k], shown[k + 1]);
    }
  }

  lemma BumpEvolves(s: State, n: nat)
    requires s.nextLease <= n && s.nextCutover <= n
    ensures Evolves(s, Bump(s, n))
  {
    EvolvesRefl(s);
  }

  lemma PublishEvolves(before: State, op: Op)
    requires Inv(before) && before.nextLease == before.nextCutover
    ensures var after := Publish(before, op).state; Inv(after) && Evolves(before, after) && after.nextLease == after.nextCutover
  {
    hide Inv, Evolves, Apply;
    EvolvesRefl(before);
    if Apply(before, op).result.Ok? && Mutates(op) {
      StepKeepsInv(before, op);
      StepEvolves(before, op);
      OpFramed(before, op, {});
      BumpInv(Apply(before, op).state, before.nextLease + 1);
      BumpEvolves(Apply(before, op).state, before.nextLease + 1);
      EvolvesTransitive(before, Apply(before, op).state, Publish(before, op).state);
    }
  }

  lemma MovesEvolve(before: State, op: Op, result: Result<Reply>, after: State)
    requires Inv(before) && before.nextLease == before.nextCutover && Moves(before, op, result, after)
    ensures Inv(after) && Evolves(before, after) && after.nextLease == after.nextCutover
  {
    hide Inv, Evolves, Apply, Publish;
    EvolvesRefl(before);
    PublishEvolves(before, op);
  }

  /** Every state of a history is valid, and later ones evolve from earlier ones. */
  lemma {:induction false} HistoryEvolves(shown: seq<State>, ops: seq<Op>, results: seq<Result<Reply>>, i: nat, j: nat)
    requires History(shown, ops, results) && Inv(shown[0]) && shown[0].nextLease == shown[0].nextCutover && i <= j < |shown|
    ensures Inv(shown[i]) && Inv(shown[j]) && Evolves(shown[i], shown[j]) && shown[j].nextLease == shown[j].nextCutover
    decreases j
  {
    hide Inv, Evolves, Moves;
    if j == 0 {
      EvolvesRefl(shown[0]);
    } else if i < j {
      HistoryEvolves(shown, ops, results, i, j - 1);
      assert Moves(shown[j - 1], ops[j - 1], results[j - 1], shown[j]);
      MovesEvolve(shown[j - 1], ops[j - 1], results[j - 1], shown[j]);
      EvolvesTransitive(shown[i], shown[j - 1], shown[j]);
    } else {
      HistoryEvolves(shown, ops, results, j - 1, j - 1);
      assert Moves(shown[j - 1], ops[j - 1], results[j - 1], shown[j]);
      MovesEvolve(shown[j - 1], ops[j - 1], results[j - 1], shown[j]);
      EvolvesRefl(shown[j]);
    }
  }

  lemma CommitShown(before: State, binding: Binding, presignId: string, intent: Intent, outbox: Bytes, result: Result<Reply>, after: State)
    requires Inv(before) && result.Ok? && Moves(before, OpCommitAttempt(binding, presignId, intent, outbox), result, after)
    ensures intent.attemptId in after.attempts && SameBase(after.attempts[intent.attemptId], binding, presignId, intent, Sha256(outbox))
    ensures presignId in after.presigns && after.presigns[presignId].attemptId == intent.attemptId
  {
    hide Inv, CommitSignAttempt;
    CommitStores(before, binding, presignId, intent, outbox);
  }

  /** One use survives sharding and failures: over any history of the file store, all
      accepted commits that name one presign carry one binding, intent and outbox. */
  lemma FilePresignOneUse(shown: seq<State>, ops: seq<Op>, results: seq<Result<Reply>>, i: nat, j: nat,
                          b: Binding, c: Binding, presignId: string, x: Intent, y: Intent, out: Bytes, put: Bytes)
    requires History(shown, ops, results) && Inv(shown[0]) && shown[0].nextLease == shown[0].nextCutover
    requires i < j < |ops| && results[i].Ok? && results[j].Ok?
    requires ops[i] == OpCommitAttempt(b, presignId, x, out) && ops[j] == OpCommitAttempt(c, presignId, y, put)
    ensures b == c && x == y && Sha256(out) == Sha256(put)
  {
    hide Inv, Evolves, Moves;
    HistoryEvolves(shown, ops, results, i, j);
    HistoryEvolves(shown, ops, results, i + 1, j + 1);
    assert Moves(shown[i], ops[i], results[i], shown[i + 1]) && Moves(shown[j], ops[j], results[j], shown[j + 1]);
    CommitShown(shown[i], b, presignId, x, out, results[i], shown[i + 1]);
    CommitShown(shown[j], c, presignId, y, put, results[j], shown[j + 1]);
    LinkPersists(shown[i + 1], shown[j + 1], x.attemptId, presignId);
  }

  class FileLifecycleStore {
    const bucketOf: TombKey -> nat
    var txId: nat
    var lineages: map<string, Lineage>
    var buckets: Buckets

    ghost predicate Shows(s: State)
      reads this
    {
      Inv(s) && Represents(txId, lineages, buckets, bucketOf, s)
    }

    /** A new store shows the empty state. */
    constructor (bucketOf: TombKey -> nat)
      ensures this.bucketOf == bucketOf && Shows(Empty)
    {
      this.bucketOf := bucketOf;
      txId, lineages, buckets := 0, map[], map[];
      new;
      EmptyShown(bucketOf);
    }

    /** One operation of the store, published as one transaction. The store
        accepts what the state it shows accepts, for a lease of the lineages it
        loads, and then shows the state that follows. */
    method Perform(op: Op, ghost s: State) returns (result: Result<Reply>, ghost loaded: set<string>)
      requires Shows(s)
      modifies this
      ensures KeysOf(op) <= loaded
      ensures result.Ok? <==> Apply(s, op).result.Ok? && LeaseIn(s, op, loaded)
      ensures Issued(s, op) ==> (result.Ok? <==> Apply(s, op).result.Ok?)
      ensures result.Ok? ==> result == Apply(s, op).result && Shows(Publish(s, op).state)
      ensures result.Err? ==> unchanged(this)
    {
      hide Issued, Inv, Apply, Restrict, KeysOf, LeaseIn, ClaimsOwned, Encode, InIndex, BucketAt, Updated, Prefixes, Holds, Exact, Closed, Distinct, Refreshed, LineageAt, LeasesValid, Mutates;
      var keys := KeysOf(op);
      var keyIds := Listed(keys);
      var memory: Result<State>;
      memory, loaded := Load(lineages, txId, keyIds, s);
      assert keys <= loaded;
      if Issued(s, op) { IssuedIn(s, op, loaded); }
      OpAgrees(s, op, loaded);
      RestrictInv(s, loaded);
      var step := Apply(memory.value, op);
      if step.result.Err? { return Err(step.result.error), loaded; }
      if !Mutates(op) {
        ReadsOnly(s, op, loaded);
        return step.result, loaded;
      }
      StepKeepsInv(memory.value, op);
      LeasesFact(memory.value);
      LeasesFact(step.state);
      var left := IndexesFor(memory.value, keys);
      var entered := IndexesFor(step.state, keys);
      var newLineages := WriteLineages(lineages, step.state, keys);
      var newBuckets := UpdateBuckets(buckets, bucketOf, keys, left, entered);
      if newBuckets.Ok? {
        NoConflictOwns(s, op, loaded, buckets, bucketOf, left, entered);
        Published(s, op, loaded, lineages, newLineages, buckets, newBuckets.value, bucketOf, left, entered);
        txId, lineages, buckets := txId + 1, newLineages, newBuckets.value;
        return step.result, loaded;
      }
      if Apply(s, op).result.Ok? && LeaseIn(s, op, loaded) { IndexFollows(s, op, loaded, buckets, bucketOf, left, entered); assert false; }
      return Err(newBuckets.error), loaded;
    }

    /** Serves a sequence of operations; the states shown along the way form a
        trace of the store. */
    method Serve(ops: seq<Op>, ghost s: State) returns (results: seq<Result<Reply>>, ghost shown: seq<State>)
      requires Shows(s)
      modifies this
      ensures Trace(shown, ops, results) && shown[0] == s && Shows(shown[|ops|])
    {
      hide Inv, Apply, LeaseIn, KeysOf, Represents, Publish;
      results, shown := [], [s];
      for i := 0 to |ops|
        invariant |results| == i && |shown| == i + 1 && shown[0] == s
        invariant Shows(shown[i])
        invariant forall k | 0 <= k < i :: Follows(shown[k], ops[k], results[k], shown[k + 1])
      {
        var result, loaded := Perform(ops[i], shown[i]);
        LeaseInMore(shown[i], ops[i], loaded);
        results := results + [result];
        shown := shown + [if result.Ok? then Publish(shown[i], ops[i]).state else shown[i]];
      }
    }
  }
}

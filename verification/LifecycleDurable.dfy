/** The file store on its medium: what an operation writes, what a failure or a crash
    at any point of it leaves, and what the reopened store then shows. */
module LifecycleDurable {
  import opened Options
  import opened LifecycleRecords
  import opened LifecycleState
  import opened LifecycleOps
  import opened LifecycleInvariant
  import opened LifecycleInductive
  import opened LifecycleSlices
  import opened LifecycleLocality
  import opened LifecycleLocalityCutovers
  import opened LifecycleLineages
  import opened LifecycleIndex
  import opened LifecycleBuckets
  import opened LifecycleFileStore
  import opened LifecycleFileRuns
  import opened LifecycleCrash
  import opened LifecycleRecovery

  // ------------------------------------------------------------- the next root

  /** The root of the next transaction: new snapshots for its lineages, new or
      dropped buckets where the index changed, everything else as before. */
  function NextRoot(root: Root, snapshots: map<string, Ref>, buckets: map<nat, Ref>, dropped: set<nat>): Root {
    Root(root.txId + 1, root.lineages + snapshots, (root.buckets - dropped) + buckets)
  }

  lemma NextRootExtends(root: Root, snapshots: map<string, Ref>, buckets: map<nat, Ref>, dropped: set<nat>, writes: seq<Write>)
    requires WellTyped(root)
    requires forall k | k in snapshots :: snapshots[k].digest.SnapshotContent? && WrittenBy(snapshots[k], writes)
    requires forall p | p in buckets :: buckets[p].digest.BucketContent? && WrittenBy(buckets[p], writes)
    ensures Extends(NextRoot(root, snapshots, buckets, dropped), root, writes)
  {
    hide WrittenBy;
  }

  lemma NextLineages(root: Root, snapshots: map<string, Ref>, buckets: map<nat, Ref>, dropped: set<nat>)
    requires WellTyped(root) && WellTyped(NextRoot(root, snapshots, buckets, dropped))
    ensures forall k: string :: LineageAt(DiskOf(NextRoot(root, snapshots, buckets, dropped)).lineages, k) ==
              if k in snapshots then snapshots[k].digest.lineage else LineageAt(DiskOf(root).lineages, k)
  {
  }

  lemma NextBuckets(root: Root, snapshots: map<string, Ref>, buckets: map<nat, Ref>, dropped: set<nat>)
    requires WellTyped(root) && WellTyped(NextRoot(root, snapshots, buckets, dropped))
    ensures var disk := DiskOf(NextRoot(root, snapshots, buckets, dropped));
            && (forall p: nat :: BucketAt(disk.buckets, p) ==
                  if p in buckets then buckets[p].digest.entries else if p in dropped then {} else BucketAt(DiskOf(root).buckets, p))
            && (forall p | p in disk.buckets :: p in buckets || (p in DiskOf(root).buckets && disk.buckets[p] == DiskOf(root).buckets[p]))
  {
  }

  // ---------------------------------------------------- preparing a transaction

  /** Names no blob has yet, all different. */
  ghost predicate FreshNames(name: nat -> string, blobs: map<string, Blob>) {
    && (forall i :: name(i) !in blobs)
    && (forall i, j :: i != j ==> name(i) != name(j))
  }

  /** The writes and the root that publish `memory` for the lineages `keys`. */
  ghost predicate Prepared(prior: Root, blobs: map<string, Blob>, memory: State, keys: set<string>, left: set<Entry>, entered: set<Entry>,
                           bucketOf: TombKey -> nat, writes: seq<Write>, root: Root)
    requires WellTyped(prior)
  {
    && IdsFresh(writes, blobs) && Extends(root, prior, writes)
    && (forall k: string :: LineageAt(DiskOf(root).lineages, k) == if k in keys then Encode(memory, k) else LineageAt(DiskOf(prior).lineages, k))
    && Updated(DiskOf(prior).buckets, DiskOf(root).buckets, bucketOf, keys, Prefixes(bucketOf, left + entered), entered)
  }

  predicate Named(writes: seq<Write>, name: nat -> string) { forall i | 0 <= i < |writes| :: writes[i].id == name(i) }

  lemma NamedFresh(writes: seq<Write>, name: nat -> string, blobs: map<string, Blob>)
    requires FreshNames(name, blobs) && Named(writes, name)
    ensures IdsFresh(writes, blobs)
  {
  }

  lemma WrittenMore(r: Ref, writes: seq<Write>, w: Write)
    ensures WrittenBy(r, writes) ==> WrittenBy(r, writes + [w])
    ensures w == Write(r.id, r.digest) ==> WrittenBy(r, writes + [w])
  {
    if WrittenBy(r, writes) {
      var i :| 0 <= i < |writes| && writes[i] == Write(r.id, r.digest);
      assert (writes + [w])[i] == Write(r.id, r.digest);
    }
    if w == Write(r.id, r.digest) { assert (writes + [w])[|writes|] == w; }
  }

  predicate SnapshotsWritten(snapshots: map<string, Ref>, memory: State, writes: seq<Write>) {
    forall k | k in snapshots :: snapshots[k].digest == SnapshotContent(Encode(memory, k)) && WrittenBy(snapshots[k], writes)
  }

  function SetLineage(root: Root, k: string, ref: Ref): Root { root.(lineages := root.lineages[k := ref]) }

  function SetBucket(root: Root, p: nat, ref: Ref): Root { root.(buckets := root.buckets[p := ref]) }

  function DropBucket(root: Root, p: nat): Root { root.(buckets := root.buckets - {p}) }

  lemma FirstRoot(prior: Root)
    ensures NextRoot(prior, map[], map[], {}) == prior.(txId := prior.txId + 1)
  {
    assert prior.lineages + map[] == prior.lineages;
    assert prior.buckets - {} + map[] == prior.buckets;
  }

  lemma SnapshotSet(prior: Root, snapshots: map<string, Ref>, memory: State, writes: seq<Write>, k: string, id: string)
    requires SnapshotsWritten(snapshots, memory, writes)
    ensures var ref := Ref(id, SnapshotContent(Encode(memory, k)));
            && SnapshotsWritten(snapshots[k := ref], memory, writes + [Write(ref.id, ref.digest)])
            && SetLineage(NextRoot(prior, snapshots, map[], {}), k, ref) == NextRoot(prior, snapshots[k := ref], map[], {})
  {
    hide Encode, WrittenBy;
    var ref := Ref(id, SnapshotContent(Encode(memory, k)));
    var after := snapshots[k := ref];
    forall j | j in after ensures WrittenBy(after[j], writes + [Write(ref.id, ref.digest)]) { WrittenMore(after[j], writes, Write(ref.id, ref.digest)); }
    assert (prior.lineages + snapshots)[k := ref] == prior.lineages + snapshots[k := ref];
  }

  /** Writes one snapshot per lineage and enters it in the next root. */
  method WriteSnapshots(prior: Root, memory: State, keys: set<string>, name: nat -> string)
    returns (next: Root, writes: seq<Write>, ghost snapshots: map<string, Ref>)
    ensures snapshots.Keys == keys && SnapshotsWritten(snapshots, memory, writes)
    ensures next == NextRoot(prior, snapshots, map[], {}) && Named(writes, name)
  {
    hide Encode, SnapshotsWritten, NextRoot, SetLineage;
    FirstRoot(prior);
    assert SnapshotsWritten(map[], memory, []) by { NoSnapshots(memory); }
    next, writes, snapshots := prior.(txId := prior.txId + 1), [], map[];
    var todo := keys;
    while todo != {}
      invariant todo <= keys && snapshots.Keys == keys - todo && SnapshotsWritten(snapshots, memory, writes)
      invariant next == NextRoot(prior, snapshots, map[], {}) && Named(writes, name)
      decreases todo
    {
      var k :| k in todo;
      todo := todo - {k};
      var ref := Ref(name(|writes|), SnapshotContent(Encode(memory, k)));
      SnapshotSet(prior, snapshots, memory, writes, k, ref.id);
      next, writes, snapshots := SetLineage(next, k, ref), writes + [Write(ref.id, ref.digest)], snapshots[k := ref];
    }
  }

  lemma NoSnapshots(memory: State)
    ensures SnapshotsWritten(map[], memory, [])
  {
  }

  /** What is known of the buckets handled so far. */
  predicate BucketsWritten(buckets: map<nat, Ref>, dropped: set<nat>, prior: Buckets, bucketOf: TombKey -> nat, keys: set<string>, entered: set<Entry>, writes: seq<Write>) {
    && (forall p | p in buckets :: buckets[p].digest == BucketContent(Refreshed(prior, bucketOf, keys, entered, p))
                                   && Refreshed(prior, bucketOf, keys, entered, p) != {} && WrittenBy(buckets[p], writes))
    && (forall p | p in dropped :: Refreshed(prior, bucketOf, keys, entered, p) == {})
  }

  lemma BucketSet(prior: Root, snapshots: map<string, Ref>, buckets: map<nat, Ref>, dropped: set<nat>, index: Buckets, bucketOf: TombKey -> nat, keys: set<string>,
                  entered: set<Entry>, writes: seq<Write>, p: nat, id: string)
    requires BucketsWritten(buckets, dropped, index, bucketOf, keys, entered, writes) && Refreshed(index, bucketOf, keys, entered, p) != {}
    ensures var ref := Ref(id, BucketContent(Refreshed(index, bucketOf, keys, entered, p)));
            && BucketsWritten(buckets[p := ref], dropped, index, bucketOf, keys, entered, writes + [Write(ref.id, ref.digest)])
            && SetBucket(NextRoot(prior, snapshots, buckets, dropped), p, ref) == NextRoot(prior, snapshots, buckets[p := ref], dropped)
  {
    hide Refreshed, WrittenBy;
    var ref := Ref(id, BucketContent(Refreshed(index, bucketOf, keys, entered, p)));
    var after := buckets[p := ref];
    forall q | q in after ensures WrittenBy(after[q], writes + [Write(ref.id, ref.digest)]) { WrittenMore(after[q], writes, Write(ref.id, ref.digest)); }
    assert ((prior.buckets - dropped) + buckets)[p := ref] == (prior.buckets - dropped) + buckets[p := ref];
  }

  lemma BucketDropped(prior: Root, snapshots: map<string, Ref>, buckets: map<nat, Ref>, dropped: set<nat>, index: Buckets, bucketOf: TombKey -> nat,
                      keys: set<string>, entered: set<Entry>, writes: seq<Write>, p: nat)
    requires BucketsWritten(buckets, dropped, index, bucketOf, keys, entered, writes) && Refreshed(index, bucketOf, keys, entered, p) == {} && p !in buckets
    ensures BucketsWritten(buckets, dropped + {p}, index, bucketOf, keys, entered, writes)
    ensures DropBucket(NextRoot(prior, snapshots, buckets, dropped), p) == NextRoot(prior, snapshots, buckets, dropped + {p})
  {
    hide Refreshed, WrittenBy;
    assert ((prior.buckets - dropped) + buckets) - {p} == (prior.buckets - (dropped + {p})) + buckets;
  }

  lemma NoBuckets(index: Buckets, bucketOf: TombKey -> nat, keys: set<string>, entered: set<Entry>, writes: seq<Write>)
    ensures BucketsWritten(map[], {}, index, bucketOf, keys, entered, writes)
  {
  }

  /** Rewrites or drops every bucket the transaction affects, unless an identifier is
      entered twice. */
  method WriteBuckets(prior: Root, start: Root, bucketOf: TombKey -> nat, keys: set<string>, left: set<Entry>, entered: set<Entry>,
                      first: seq<Write>, name: nat -> string, ghost snapshots: map<string, Ref>)
    returns (error: Option<Error>, next: Root, writes: seq<Write>, ghost buckets: map<nat, Ref>, ghost dropped: set<nat>)
    requires WellTyped(prior) && start == NextRoot(prior, snapshots, map[], {}) && Named(first, name)
    ensures Named(writes, name) && first <= writes
    ensures error.None? <==> forall p | p in Prefixes(bucketOf, left + entered) :: Distinct(Refreshed(DiskOf(prior).buckets, bucketOf, keys, entered, p))
    ensures error.None? ==>
              && buckets.Keys + dropped == Prefixes(bucketOf, left + entered)
              && BucketsWritten(buckets, dropped, DiskOf(prior).buckets, bucketOf, keys, entered, writes)
              && next == NextRoot(prior, snapshots, buckets, dropped)
  {
    hide Refreshed, Distinct, Prefixes, DiskOf, BucketsWritten, NextRoot, SetBucket, DropBucket;
    var index := DiskOf(prior).buckets;
    var prefixes := Prefixes(bucketOf, left + entered);
    next, writes, buckets, dropped := start, first, map[], {};
    NoBuckets(index, bucketOf, keys, entered, writes);
    var todo := prefixes;
    while todo != {}
      invariant todo <= prefixes && buckets.Keys + dropped == prefixes - todo
      invariant forall p | p in prefixes && p !in todo :: Distinct(Refreshed(index, bucketOf, keys, entered, p))
      invariant BucketsWritten(buckets, dropped, index, bucketOf, keys, entered, writes)
      invariant next == NextRoot(prior, snapshots, buckets, dropped) && Named(writes, name) && first <= writes
      decreases todo
    {
      var p :| p in todo;
      var filtered := Refreshed(index, bucketOf, keys, entered, p);
      var conflict := Canonicalize(filtered);
      if conflict.Some? { error := Some(ConflictError(conflict.value)); return; }
      ghost var done := buckets.Keys + dropped;
      assert prefixes - (todo - {p}) == done + {p};
      todo := todo - {p};
      if filtered == {} {
        BucketDropped(prior, snapshots, buckets, dropped, index, bucketOf, keys, entered, writes, p);
        next, dropped := DropBucket(next, p), dropped + {p};
      } else {
        var ref := Ref(name(|writes|), BucketContent(filtered));
        BucketSet(prior, snapshots, buckets, dropped, index, bucketOf, keys, entered, writes, p, ref.id);
        next, writes, buckets := SetBucket(next, p, ref), writes + [Write(ref.id, ref.digest)], buckets[p := ref];
      }
      assert buckets.Keys + dropped == done + {p};
    }
    error := None;
  }

  lemma SnapshotsStay(snapshots: map<string, Ref>, memory: State, first: seq<Write>, writes: seq<Write>)
    requires SnapshotsWritten(snapshots, memory, first) && first <= writes
    ensures SnapshotsWritten(snapshots, memory, writes)
  {
    hide Encode;
    forall k | k in snapshots ensures WrittenBy(snapshots[k], writes) {
      var i :| 0 <= i < |first| && first[i] == Write(snapshots[k].id, snapshots[k].digest);
      assert writes[i] == first[i];
    }
  }

  lemma BucketsUpdated(prior: Root, snapshots: map<string, Ref>, buckets: map<nat, Ref>, dropped: set<nat>, bucketOf: TombKey -> nat, keys: set<string>,
                       entered: set<Entry>, affected: set<nat>, writes: seq<Write>)
    requires WellTyped(prior) && WellTyped(NextRoot(prior, snapshots, buckets, dropped)) && buckets.Keys + dropped == affected
    requires BucketsWritten(buckets, dropped, DiskOf(prior).buckets, bucketOf, keys, entered, writes)
    ensures Updated(DiskOf(prior).buckets, DiskOf(NextRoot(prior, snapshots, buckets, dropped)).buckets, bucketOf, keys, affected, entered)
  {
    hide Refreshed, DiskOf, WrittenBy, NextRoot, BucketAt;
    NextBuckets(prior, snapshots, buckets, dropped);
    NonEmptyAt(DiskOf(NextRoot(prior, snapshots, buckets, dropped)).buckets);
  }

  lemma NonEmptyAt(buckets: Buckets)
    ensures forall p | p in buckets :: buckets[p] == BucketAt(buckets, p)
  {
  }

  /** Everything a transaction writes: the snapshots of its lineages, the buckets it
      affects, and the root that refers to them. */
  method Prepare(prior: Root, memory: State, bucketOf: TombKey -> nat, keys: set<string>, left: set<Entry>, entered: set<Entry>, name: nat -> string,
                 ghost blobs: map<string, Blob>)
    returns (error: Option<Error>, writes: seq<Write>, root: Root)
    requires WellTyped(prior) && FreshNames(name, blobs)
    ensures IdsFresh(writes, blobs) && Named(writes, name)
    ensures error.None? <==> forall p | p in Prefixes(bucketOf, left + entered) :: Distinct(Refreshed(DiskOf(prior).buckets, bucketOf, keys, entered, p))
    ensures error.None? ==> Prepared(prior, blobs, memory, keys, left, entered, bucketOf, writes, root)
  {
    hide Refreshed, Distinct, Prefixes, DiskOf, Encode, WrittenBy, Updated, Extends, IdsFresh, NextRoot, LineageAt, FreshNames, Named;
    var first, next;
    ghost var snapshots, buckets, dropped;
    next, first, snapshots := WriteSnapshots(prior, memory, keys, name);
    error, root, writes, buckets, dropped := WriteBuckets(prior, next, bucketOf, keys, left, entered, first, name, snapshots);
    NamedFresh(writes, name, blobs);
    if error.None? {
      SnapshotsStay(snapshots, memory, first, writes);
      NextRootExtends(prior, snapshots, buckets, dropped, writes);
      ExtendsTyped(root, prior, writes);
      NextLineages(prior, snapshots, buckets, dropped);
      BucketsUpdated(prior, snapshots, buckets, dropped, bucketOf, keys, entered, Prefixes(bucketOf, left + entered), writes);
    }
  }

  lemma ExtendsTyped(root: Root, prior: Root, writes: seq<Write>)
    requires Extends(root, prior, writes)
    ensures WellTyped(root)
  {
  }

  // ------------------------------------------------------- a published operation

  ghost predicate DiskShows(d: Disk, bucketOf: TombKey -> nat, s: State) {
    Inv(s) && Represents(d.txId, d.lineages, d.buckets, bucketOf, s)
  }

  /** The medium is sound and a reader of it sees the state. */
  ghost predicate MediumShows(m: Medium, bucketOf: TombKey -> nat, s: State) {
    Sound(m) && WellTyped(Visible(m)) && DiskShows(DiskOf(Visible(m)), bucketOf, s)
  }

  /** The operation is accepted by the lineages it loads, and this is what publishes it. */
  ghost predicate Publishes(m: Medium, bucketOf: TombKey -> nat, s: State, op: Op, loaded: set<string>, left: set<Entry>, entered: set<Entry>,
                            writes: seq<Write>, root: Root)
  {
    && KeysOf(op) <= loaded && Apply(s, op).result.Ok? && LeaseIn(s, op, loaded) && Mutates(op)
    && EntriesAround(Restrict(s, loaded), Apply(Restrict(s, loaded), op).state, KeysOf(op), left, entered)
    && WellTyped(Visible(m))
    && Prepared(Visible(m), m.blobs, Apply(Restrict(s, loaded), op).state, KeysOf(op), left, entered, bucketOf, writes, root)
  }

  /** The prepared root describes the state after the operation. */
  lemma PreparedShows(m: Medium, bucketOf: TombKey -> nat, s: State, op: Op, loaded: set<string>, left: set<Entry>, entered: set<Entry>,
                      writes: seq<Write>, root: Root)
    requires MediumShows(m, bucketOf, s) && Publishes(m, bucketOf, s, op, loaded, left, entered, writes, root)
    ensures IdsFresh(writes, m.blobs) && Extends(root, Visible(m), writes) && WellTyped(root)
    ensures DiskShows(DiskOf(root), bucketOf, Publish(s, op).state)
  {
    hide Inv, Sound, Apply, Restrict, KeysOf, LeaseIn, Mutates, EntriesAround, Holds, Exact, Updated, Prefixes, Encode, LineageAt, IdsFresh, Supplied, Publish;
    Published(s, op, loaded, DiskOf(Visible(m)).lineages, DiskOf(root).lineages, DiskOf(Visible(m)).buckets, DiskOf(root).buckets, bucketOf, left, entered);
  }

  lemma StepsShow(m: Medium, bucketOf: TombKey -> nat, s: State, op: Op, loaded: set<string>, left: set<Entry>, entered: set<Entry>,
                  writes: seq<Write>, root: Root, n: nat)
    requires MediumShows(m, bucketOf, s) && Publishes(m, bucketOf, s, op, loaded, left, entered, writes, root) && n <= |PersistSteps(writes, root)|
    ensures MediumShows(Run(m, PersistSteps(writes, root)[..n]), bucketOf, if n < |PersistSteps(writes, root)| - 1 then s else Publish(s, op).state)
    ensures n == |PersistSteps(writes, root)| ==> Run(m, PersistSteps(writes, root)[..n]).pending == []
  {
    hide DiskShows, Publishes, Publish, Run, PersistSteps, IdsFresh, Sound, DiskOf, Supplied, WellTyped;
    PreparedShows(m, bucketOf, s, op, loaded, left, entered, writes, root);
    TransactionSound(m, writes, root, n);
  }

  /** An operation cut short anywhere. A process that dies leaves a medium that shows
      the state before or, from the rename on, the state after. A machine that
      crashes comes back with one of these two if no earlier rename is pending, and
      with the state after once every step is done. */
  lemma CrashedOperation(m: Medium, bucketOf: TombKey -> nat, s: State, op: Op, loaded: set<string>, left: set<Entry>, entered: set<Entry>,
                         writes: seq<Write>, root: Root, n: nat, m': Medium)
    requires MediumShows(m, bucketOf, s) && Publishes(m, bucketOf, s, op, loaded, left, entered, writes, root)
    requires n <= |PersistSteps(writes, root)| && CrashOutcome(Run(m, PersistSteps(writes, root)[..n]), m')
    ensures MediumShows(Run(m, PersistSteps(writes, root)[..n]), bucketOf, if n < |PersistSteps(writes, root)| - 1 then s else Publish(s, op).state)
    ensures Reopen(m').Some?
    ensures m.pending == [] ==> DiskShows(Reopen(m').value, bucketOf, s) || DiskShows(Reopen(m').value, bucketOf, Publish(s, op).state)
    ensures n == |PersistSteps(writes, root)| ==> DiskShows(Reopen(m').value, bucketOf, Publish(s, op).state)
  {
    hide DiskShows, Publishes, Publish, Reopen, CrashOutcome, Run, PersistSteps, IdsFresh, Sound, DiskOf, Supplied, WellTyped;
    PreparedShows(m, bucketOf, s, op, loaded, left, entered, writes, root);
    StepsShow(m, bucketOf, s, op, loaded, left, entered, writes, root, n);
    CrashReopens(m, writes, root, n, m');
  }

  /** An operation whose directory sync failed shows as done, to an exact query too, and
      a crash can still undo it. */
  lemma OutcomeForgotten(m: Medium, bucketOf: TombKey -> nat, s: State, op: Op, loaded: set<string>, left: set<Entry>, entered: set<Entry>,
                         writes: seq<Write>, root: Root)
    requires MediumShows(m, bucketOf, s) && m.pending == [] && Publishes(m, bucketOf, s, op, loaded, left, entered, writes, root)
    ensures var now := Run(m, PersistSteps(writes, root)[..|PersistSteps(writes, root)| - 1]);
            && MediumShows(now, bucketOf, Publish(s, op).state)
            && CrashOutcome(now, CrashTo(now, m.durable)) && MediumShows(CrashTo(now, m.durable), bucketOf, s)
  {
    hide DiskShows, Publishes, Publish, Reopen, CrashOutcome, Run, BlobSteps, IdsFresh, DiskOf, Supplied, WellTyped, Backed;
    PreparedShows(m, bucketOf, s, op, loaded, left, entered, writes, root);
    StepsShow(m, bucketOf, s, op, loaded, left, entered, writes, root, |PersistSteps(writes, root)| - 1);
    FailedSyncForgets(m, writes, root);
  }

  /** A crash with no rename pending changes nothing that a reader sees. */
  lemma SettledCrash(m: Medium, m': Medium, bucketOf: TombKey -> nat, s: State)
    requires MediumShows(m, bucketOf, s) && m.pending == [] && CrashOutcome(m, m')
    ensures MediumShows(m', bucketOf, s)
  {
    hide DiskShows;
    assert Backed(m'.durable, m'.blobs);
  }

  // ------------------------------------------------------------------ the store

  /** Where a transaction fails: nowhere, or after so many of its steps; blobs that
      cannot be removed then are left behind. */
  datatype Fault = NoFault | FailsAfter(steps: nat, leftover: set<string>)

  /** Removes what a failed transaction wrote. */
  function Cleanup(writes: seq<Write>, leftover: set<string>): seq<DiskStep> {
    if writes == [] then [RemoveTemp]
    else
      var id := writes[|writes| - 1].id;
      (if id in leftover then [] else [RemoveBlob(id)]) + Cleanup(writes[..|writes| - 1], leftover)
  }

  lemma {:induction false} CleanupHarmless(m: Medium, writes: seq<Write>, leftover: set<string>)
    requires IdsFresh(writes, m.blobs)
    ensures AllHarmless(Cleanup(writes, leftover), m)
  {
    if writes != [] { CleanupHarmless(m, writes[..|writes| - 1], leftover); }
  }

  lemma EarlyHarmless(m: Medium, writes: seq<Write>, root: Root, n: nat, leftover: set<string>)
    requires IdsFresh(writes, m.blobs) && n < |PersistSteps(writes, root)| - 1
    ensures AllHarmless(PersistSteps(writes, root)[..n] + Cleanup(writes, leftover), m)
  {
    hide IdsFresh, BlobSteps, Cleanup;
    BlobStepsHarmless(m, writes);
    CleanupHarmless(m, writes, leftover);
  }

  lemma KeptShows(m: Medium, steps: seq<DiskStep>, bucketOf: TombKey -> nat, s: State)
    requires MediumShows(m, bucketOf, s) && AllHarmless(steps, m)
    ensures MediumShows(Run(m, steps), bucketOf, s) && Run(m, steps).pending == m.pending && Run(m, steps).durable == m.durable
  {
    hide DiskShows, Run, AllHarmless, Sound, DiskOf;
    HarmlessKeeps(m, steps);
    KeptSound(m, Run(m, steps));
  }

  lemma ShownFacts(m: Medium, bucketOf: TombKey -> nat, s: State)
    requires MediumShows(m, bucketOf, s)
    ensures WellTyped(Visible(m)) && Inv(s) && s.nextLease == s.nextCutover == DiskOf(Visible(m)).txId
    ensures Holds(DiskOf(Visible(m)).lineages, s) && Exact(DiskOf(Visible(m)).buckets, bucketOf, s)
  {
    hide Holds, Exact, Inv, Sound, WellTyped;
  }

  lemma ReopensTo(m: Medium, bucketOf: TombKey -> nat, s: State)
    requires MediumShows(m, bucketOf, s)
    ensures Reopen(m) == Some(DiskOf(Visible(m)))
  {
    hide DiskShows;
    SoundOpens(m);
  }

  method Execute(m: Medium, steps: seq<DiskStep>) returns (out: Medium)
    ensures out == Run(m, steps)
  {
    hide Exec;
    out := m;
    for i := 0 to |steps|
      invariant out == Run(m, steps[..i])
    {
      out := Exec(out, steps[i]);
      assert steps[..i + 1][..i] == steps[..i];
    }
    assert steps[..|steps|] == steps;
  }

  // ------------------------------------------------------------------- names

  /** Every blob was there before or has one of the names. */
  ghost predicate Within(m: Medium, blobs: map<string, Blob>, name: nat -> string) {
    forall id | id in m.blobs :: id in blobs || exists i :: name(i) == id
  }

  ghost predicate WritesNamed(steps: seq<DiskStep>, name: nat -> string) {
    forall i | 0 <= i < |steps| && steps[i].WriteBlob? :: exists j :: name(j) == steps[i].id
  }

  lemma {:induction false} RunWithin(m: Medium, steps: seq<DiskStep>, name: nat -> string)
    requires WritesNamed(steps, name)
    ensures Within(Run(m, steps), m.blobs, name)
  {
    if steps != [] {
      RunWithin(m, steps[..|steps| - 1], name);
      assert steps[|steps| - 1].WriteBlob? ==> exists j :: name(j) == steps[|steps| - 1].id;
    }
  }

  lemma StaysWithin(m: Medium, name: nat -> string)
    ensures Within(m, m.blobs, name)
  {
  }

  lemma {:induction false} BlobStepsNamed(writes: seq<Write>, name: nat -> string)
    requires Named(writes, name)
    ensures WritesNamed(BlobSteps(writes), name)
  {
    if writes != [] {
      BlobStepsNamed(writes[..|writes| - 1], name);
      assert writes[|writes| - 1].id == name(|writes| - 1);
    }
  }

  lemma {:induction false} CleanupNamed(writes: seq<Write>, leftover: set<string>, name: nat -> string)
    ensures WritesNamed(Cleanup(writes, leftover), name)
  {
    if writes != [] { CleanupNamed(writes[..|writes| - 1], leftover, name); }
  }

  lemma StepsNamed(writes: seq<Write>, root: Root, n: nat, leftover: set<string>, name: nat -> string)
    requires Named(writes, name) && n <= |PersistSteps(writes, root)|
    ensures WritesNamed(PersistSteps(writes, root)[..n], name) && WritesNamed(PersistSteps(writes, root)[..n] + Cleanup(writes, leftover), name)
    ensures WritesNamed(BlobSteps(writes) + Cleanup(writes, leftover), name)
  {
    hide Named, BlobSteps, Cleanup;
    BlobStepsNamed(writes, name);
    CleanupNamed(writes, leftover, name);
  }

  class DurableLifecycleStore {
    const bucketOf: TombKey -> nat
    var medium: Medium

    ghost predicate Shows(s: State)
      reads this
    {
      MediumShows(medium, bucketOf, s)
    }

    constructor (bucketOf: TombKey -> nat)
      ensures this.bucketOf == bucketOf && Shows(Empty) && medium.pending == []
    {
      this.bucketOf := bucketOf;
      medium := Medium(map[], Root(0, map[], map[]), [], None);
      new;
      EmptyShown(bucketOf);
      assert DiskOf(Root(0, map[], map[])) == Disk(0, map[], map[]);
    }

    /** A transaction refused by the index removes what it had written. */
    method Abandon(writes: seq<Write>, ghost s: State, ghost name: nat -> string)
      requires Shows(s) && IdsFresh(writes, medium.blobs) && Named(writes, name)
      modifies this
      ensures Within(medium, old(medium.blobs), name)
      ensures Shows(s) && medium.pending == old(medium.pending) && medium.durable == old(medium.durable)
    {
      hide MediumShows, IdsFresh, BlobSteps, Cleanup, Run, Named, WritesNamed, Within;
      var steps := BlobSteps(writes) + Cleanup(writes, {});
      BlobStepsHarmless(medium, writes);
      CleanupHarmless(medium, writes, {});
      KeptShows(medium, steps, bucketOf, s);
      StepsNamed(writes, Visible(medium), 0, {}, name);
      RunWithin(medium, steps, name);
      medium := Execute(medium, steps);
    }

    /** Writes the blobs, then the root, renames it and syncs its directory. */
    method Persist(writes: seq<Write>, root: Root, fault: Fault, ghost s: State, ghost op: Op, ghost loaded: set<string>, ghost left: set<Entry>,
                   ghost entered: set<Entry>, ghost name: nat -> string)
      returns (ok: bool)
      requires Shows(s) && Named(writes, name) && Publishes(medium, bucketOf, s, op, loaded, left, entered, writes, root)
      modifies this
      ensures ok <==> fault.NoFault?
      ensures ok ==> Shows(Publish(s, op).state) && medium.pending == []
      ensures !ok ==> if fault.steps < |PersistSteps(writes, root)| - 1
                      then Shows(s) && medium.pending == old(medium.pending) && medium.durable == old(medium.durable)
                      else Shows(Publish(s, op).state)
      ensures Within(medium, old(medium.blobs), name)
    {
      hide Named, WritesNamed, Within, MediumShows, IdsFresh, PersistSteps, Cleanup, Run, Publishes, Publish, Extends, Sound, WellTyped;
      PreparedShows(medium, bucketOf, s, op, loaded, left, entered, writes, root);
      var steps := PersistSteps(writes, root);
      if fault.FailsAfter? && fault.steps < |steps| - 1 {
        EarlyHarmless(medium, writes, root, fault.steps, fault.leftover);
        KeptShows(medium, steps[..fault.steps] + Cleanup(writes, fault.leftover), bucketOf, s);
        StepsNamed(writes, root, fault.steps, fault.leftover, name);
        RunWithin(medium, steps[..fault.steps] + Cleanup(writes, fault.leftover), name);
        medium := Execute(medium, steps[..fault.steps] + Cleanup(writes, fault.leftover));
        return false;
      }
      var n := if fault.FailsAfter? && fault.steps < |steps| then fault.steps else |steps|;
      StepsShow(medium, bucketOf, s, op, loaded, left, entered, writes, root, n);
      StepsNamed(writes, root, n, {}, name);
      RunWithin(medium, steps[..n], name);
      medium := Execute(medium, steps[..n]);
      return fault.NoFault?;
    }

    /** One operation, which may fail at any step of its transaction. Without a failure
        it is accepted exactly when the state shown accepts it, and no rename is
        pending then. With one, the store shows the state before or the state after. */
    method Perform(op: Op, name: nat -> string, fault: Fault, ghost s: State) returns (result: Result<Reply>, ghost loaded: set<string>)
      requires Shows(s) && FreshNames(name, medium.blobs)
      modifies this
      ensures KeysOf(op) <= loaded
      ensures result.Ok? <==> Apply(s, op).result.Ok? && LeaseIn(s, op, loaded) && (fault.NoFault? || !Mutates(op))
      ensures result.Ok? ==> result == Apply(s, op).result && Shows(Publish(s, op).state) && (Mutates(op) ==> medium.pending == [])
      ensures result.Err? ==>
                || (Shows(s) && medium.pending == old(medium.pending) && medium.durable == old(medium.durable))
                || (Shows(Publish(s, op).state) && Apply(s, op).result.Ok? && LeaseIn(s, op, loaded) && fault.FailsAfter?)
      ensures Within(medium, old(medium.blobs), name)
    {
      hide Named, Within, Inv, Apply, Restrict, KeysOf, LeaseIn, ClaimsOwned, Mutates, MediumShows, DiskOf, Reopen, FreshNames, Prefixes, Distinct, Refreshed;
      StaysWithin(medium, name);
      var keys := KeysOf(op);
      var keyIds := Listed(keys);
      ReopensTo(medium, bucketOf, s);
      var disk := Reopen(medium).value;
      var memory: Result<State>;
      ShownFacts(medium, bucketOf, s);
      memory, loaded := Load(disk.lineages, disk.txId, keyIds, s);
      assert keys <= loaded;
      OpAgrees(s, op, loaded);
      var step := Apply(memory.value, op);
      if step.result.Err? { return Err(step.result.error), loaded; }
      if !Mutates(op) {
        ReadsOnly(s, op, loaded);
        return step.result, loaded;
      }
      StepKeepsInv(memory.value, op);
      LeasesFact(memory.value);
      LeasesFact(step.state);
      var left := IndexesFor(memory.value, keys);
      var entered := IndexesFor(step.state, keys);
      var error, writes, root := Prepare(Visible(medium), step.state, bucketOf, keys, left, entered, name, medium.blobs);
      if error.Some? {
        if Apply(s, op).result.Ok? && LeaseIn(s, op, loaded) { IndexFollows(s, op, loaded, disk.buckets, bucketOf, left, entered); assert false; }
        Abandon(writes, s, name);
        return Err(error.value), loaded;
      }
      NoConflictOwns(s, op, loaded, disk.buckets, bucketOf, left, entered);
      assert Publishes(medium, bucketOf, s, op, loaded, left, entered, writes, root);
      var done := Persist(writes, root, fault, s, op, loaded, left, entered, name);
      if done { return step.result, loaded; }
      return Err(PersistFailed), loaded;
    }

    /** Serves operations that may each fail anywhere; the states shown along the way
        form a history. */
    method Serve(ops: seq<Op>, faults: seq<Fault>, name: (nat, nat) -> string, ghost s: State) returns (results: seq<Result<Reply>>, ghost shown: seq<State>)
      requires Shows(s) && |faults| == |ops| && NamesAhead(name, medium.blobs, 0)
      modifies this
      ensures History(shown, ops, results) && shown[0] == s && Shows(shown[|ops|])
    {
      hide Inv, Apply, LeaseIn, KeysOf, Publish, MediumShows, NamesAhead, Within, Mutates;
      results, shown := [], [s];
      for i := 0 to |ops|
        invariant |results| == i && |shown| == i + 1 && shown[0] == s && Shows(shown[i]) && NamesAhead(name, medium.blobs, i)
        invariant forall k | 0 <= k < i :: Moves(shown[k], ops[k], results[k], shown[k + 1])
      {
        var supply: nat -> string := (j: nat) => name(i, j);
        NamesNow(name, medium.blobs, i, supply);
        ghost var blobs := medium.blobs;
        var result, _ := Perform(ops[i], supply, faults[i], shown[i]);
        NamesNext(name, blobs, medium, i, supply);
        ghost var after: State :| Moves(shown[i], ops[i], result, after) && Shows(after);
        results := results + [result];
        shown := shown + [after];
      }
    }

    /** Opening the store again, with recovery. A reader sees the same state; the medium
        stays sound when no root that may come back needs a removed blob. */
    method Open(ghost s: State)
      requires Shows(s)
      modifies this
      ensures Visible(medium) == old(Visible(medium)) && Reopen(medium) == old(Reopen(medium))
      ensures Shared(old(medium)) ==> Shows(s)
      ensures old(medium.pending) == [] ==> Shows(s) && medium.pending == []
    {
      hide DiskShows, RecoverSteps, Orphans, Run, Sound, Reopen, DiskOf, WellTyped;
      var ids, out := Recover(medium);
      ghost var n := |RecoverSteps(medium, ids)|;
      assert RecoverSteps(medium, ids)[..n] == RecoverSteps(medium, ids);
      if medium.pending == [] { SettledShared(medium); }
      if Shared(medium) { RecoveredSound(medium, ids, n); }
      medium := out;
    }
  }

  /** The names of later operations are not in use. */
  ghost predicate NamesAhead(name: (nat, nat) -> string, blobs: map<string, Blob>, from: nat) {
    && (forall k: nat, i: nat | k >= from :: name(k, i) !in blobs)
    && (forall k: nat, i: nat, l: nat, j: nat :: name(k, i) == name(l, j) ==> k == l && i == j)
  }

  lemma NamesNow(name: (nat, nat) -> string, blobs: map<string, Blob>, k: nat, supply: nat -> string)
    requires NamesAhead(name, blobs, k) && forall j :: supply(j) == name(k, j)
    ensures FreshNames(supply, blobs)
  {
  }

  lemma NamesNext(name: (nat, nat) -> string, blobs: map<string, Blob>, m: Medium, k: nat, supply: nat -> string)
    requires NamesAhead(name, blobs, k) && (forall j :: supply(j) == name(k, j)) && Within(m, blobs, supply)
    ensures NamesAhead(name, m.blobs, k + 1)
  {
  }
}

/** The root index is kept in hash-prefixed buckets. A transaction rewrites only
    the buckets its own entries fall into, yet the index stays exact and finds
    every identifier that two lineages claim. */
module LifecycleBuckets {
  import opened Options
  import opened LifecycleRecords
  import opened LifecycleState
  import opened LifecycleOps
  import opened LifecycleInvariant
  import opened LifecycleInductive
  import opened LifecycleSlices
  import opened LifecycleLocality
  import opened LifecycleLocalityCutovers
  import opened LifecycleRestriction
  import opened LifecycleIndex

  type Buckets = map<nat, set<Entry>>

  function BucketAt(buckets: Buckets, p: nat): set<Entry> {
    if p in buckets then buckets[p] else {}
  }

  /** The buckets hold exactly the entries of the state. */
  ghost predicate Exact(buckets: Buckets, bucketOf: TombKey -> nat, s: State) {
    && (forall e: Entry :: e in BucketAt(buckets, bucketOf(e.id)) <==> InIndex(s, e))
    && (forall p: nat, e: Entry | e in BucketAt(buckets, p) :: bucketOf(e.id) == p)
    && (forall p | p in buckets :: buckets[p] != {})
  }

  /** No identifier is entered twice. */
  predicate Distinct(entries: set<Entry>) {
    forall e, f | e in entries && f in entries :: e.id == f.id ==> e == f
  }

  /** One bucket after a transaction on `keys` whose entries are now `entered`. */
  function Refreshed(buckets: Buckets, bucketOf: TombKey -> nat, keys: set<string>, entered: set<Entry>, p: nat): (r: set<Entry>)
    ensures forall e :: e in r <==> (e in BucketAt(buckets, p) && e.keyId !in keys) || (e in entered && bucketOf(e.id) == p)
  {
    (set e | e in BucketAt(buckets, p) && e.keyId !in keys) + (set e | e in entered && bucketOf(e.id) == p)
  }

  function Prefixes(bucketOf: TombKey -> nat, entries: set<Entry>): (r: set<nat>)
    ensures forall e | e in entries :: bucketOf(e.id) in r
    ensures forall p | p in r :: exists e :: e in entries && bucketOf(e.id) == p
  {
    set e | e in entries :: bucketOf(e.id)
  }

  /** Every affected bucket is refreshed, every other one is left alone, and none is empty. */
  ghost predicate Updated(buckets: Buckets, out: Buckets, bucketOf: TombKey -> nat, keys: set<string>, affected: set<nat>, entered: set<Entry>) {
    && (forall p | p in affected :: BucketAt(out, p) == Refreshed(buckets, bucketOf, keys, entered, p))
    && (forall p | p !in affected :: BucketAt(out, p) == BucketAt(buckets, p))
    && ((forall p | p in buckets :: buckets[p] != {}) ==> forall p | p in out :: out[p] != {})
  }

  function ConflictError(x: TombKey): Error {
    match x
    case SessionTomb(_) => SessionAlreadyUsed
    case PresignTomb(_) => PresignUnavailable
    case ArtifactTomb(_) => PresignUnavailable
    case AttemptTomb(_) => AttemptConflict
    case _ => LifecycleCorrupt
  }

  /** Finds an identifier that is entered twice. */
  method Canonicalize(entries: set<Entry>) returns (conflict: Option<TombKey>)
    ensures conflict.None? <==> Distinct(entries)
  {
    var seen: map<TombKey, Entry> := map[];
    var todo := entries;
    while todo != {}
      invariant todo <= entries
      invariant forall x | x in seen :: seen[x] in entries && seen[x].id == x
      invariant forall e | e in entries && e !in todo :: e.id in seen && seen[e.id] == e
      decreases todo
    {
      var e :| e in todo;
      if e.id in seen && seen[e.id] != e { return Some(e.id); }
      todo := todo - {e};
      seen := seen[e.id := e];
    }
    conflict := None;
  }

  function PutBucket(buckets: Buckets, p: nat, entries: set<Entry>): Buckets {
    if entries == {} then buckets - {p} else buckets[p := entries]
  }

  lemma NoneWritten(buckets: Buckets, bucketOf: TombKey -> nat, keys: set<string>, entered: set<Entry>)
    ensures Updated(buckets, buckets, bucketOf, keys, {}, entered)
  {
  }

  lemma BucketWritten(buckets: Buckets, out: Buckets, bucketOf: TombKey -> nat, keys: set<string>, done: set<nat>, entered: set<Entry>, p: nat)
    requires Updated(buckets, out, bucketOf, keys, done, entered) && p !in done
    ensures Updated(buckets, PutBucket(out, p, Refreshed(buckets, bucketOf, keys, entered, p)), bucketOf, keys, done + {p}, entered)
  {
    hide Refreshed;
  }

  /** Rewrites the buckets that entries of the transaction fall into, before or after it. */
  method UpdateBuckets(buckets: Buckets, bucketOf: TombKey -> nat, keys: set<string>, left: set<Entry>, entered: set<Entry>)
    returns (r: Result<Buckets>)
    ensures r.Ok? <==> forall p | p in Prefixes(bucketOf, left + entered) :: Distinct(Refreshed(buckets, bucketOf, keys, entered, p))
    ensures r.Ok? ==> Updated(buckets, r.value, bucketOf, keys, Prefixes(bucketOf, left + entered), entered)
  {
    hide Refreshed, Distinct, Updated, Prefixes;
    var prefixes := Prefixes(bucketOf, left + entered);
    var out := buckets;
    NoneWritten(buckets, bucketOf, keys, entered);
    assert prefixes - prefixes == {};
    var todo := prefixes;
    while todo != {}
      invariant todo <= prefixes
      invariant forall p | p in prefixes && p !in todo :: Distinct(Refreshed(buckets, bucketOf, keys, entered, p))
      invariant Updated(buckets, out, bucketOf, keys, prefixes - todo, entered)
      decreases todo
    {
      var p :| p in todo;
      var filtered := Refreshed(buckets, bucketOf, keys, entered, p);
      var conflict := Canonicalize(filtered);
      if conflict.Some? { return Err(ConflictError(conflict.value)); }
      BucketWritten(buckets, out, bucketOf, keys, prefixes - todo, entered, p);
      assert prefixes - (todo - {p}) == prefixes - todo + {p};
      todo := todo - {p};
      out := PutBucket(out, p, filtered);
    }
    assert prefixes - todo == prefixes;
    r := Ok(out);
  }

  // ------------------------------------------------------ a transaction's index

  /** `left` and `entered` are the entries of the named lineages around an operation. */
  ghost predicate EntriesAround(before: State, after: State, keys: set<string>, left: set<Entry>, entered: set<Entry>) {
    && (forall e :: e in left <==> InIndex(before, e) && e.keyId in keys)
    && (forall e :: e in entered <==> InIndex(after, e) && e.keyId in keys)
  }

  /** What the index of the whole state becomes, lineage by lineage. */
  lemma EntryAfter(s: State, op: Op, loaded: set<string>, e: Entry)
    requires Inv(s) && KeysOf(op) <= loaded && Apply(s, op).result.Ok? && LeaseIn(s, op, loaded)
    ensures Apply(Restrict(s, loaded), op).result.Ok?
    ensures e.keyId in KeysOf(op) ==> (InIndex(Apply(s, op).state, e) <==> InIndex(Apply(Restrict(s, loaded), op).state, e))
    ensures e.keyId !in KeysOf(op) ==> (InIndex(Apply(s, op).state, e) <==> InIndex(s, e))
  {
    hide Inv, Apply, InIndex, Restrict, LeaseIn, ClaimsOwned, KeysOf;
    OpAgrees(s, op, loaded);
    if e.keyId in KeysOf(op) {
      EntryLocal(Apply(s, op).state, e, loaded);
    } else {
      OpFramed(s, op, {e.keyId});
      EntrySlice(s, e, {e.keyId});
      EntrySlice(Apply(s, op).state, e, {e.keyId});
    }
  }

  lemma RefreshedFromState(s: State, op: Op, loaded: set<string>, buckets: Buckets, bucketOf: TombKey -> nat, left: set<Entry>, entered: set<Entry>, e: Entry)
    requires Inv(s) && KeysOf(op) <= loaded && Apply(s, op).result.Ok? && LeaseIn(s, op, loaded)
    requires Exact(buckets, bucketOf, s)
    requires EntriesAround(Restrict(s, loaded), Apply(Restrict(s, loaded), op).state, KeysOf(op), left, entered)
    ensures e in Refreshed(buckets, bucketOf, KeysOf(op), entered, bucketOf(e.id)) <==> InIndex(Apply(s, op).state, e)
    ensures bucketOf(e.id) !in Prefixes(bucketOf, left + entered) ==> (InIndex(s, e) <==> InIndex(Apply(s, op).state, e))
  {
    hide Inv, Apply, InIndex, Restrict, LeaseIn, KeysOf, Refreshed, Prefixes, BucketAt;
    EntryAfter(s, op, loaded, e);
    if e.keyId in KeysOf(op) { EntryLocal(s, e, loaded); }
  }

  /** An operation the whole store accepts meets no conflict in the index, and
      leaves the index exact. */
  lemma IndexFollows(s: State, op: Op, loaded: set<string>, buckets: Buckets, bucketOf: TombKey -> nat, left: set<Entry>, entered: set<Entry>)
    requires Inv(s) && KeysOf(op) <= loaded && Apply(s, op).result.Ok? && LeaseIn(s, op, loaded)
    requires Exact(buckets, bucketOf, s)
    requires EntriesAround(Restrict(s, loaded), Apply(Restrict(s, loaded), op).state, KeysOf(op), left, entered)
    ensures forall p | p in Prefixes(bucketOf, left + entered) :: Distinct(Refreshed(buckets, bucketOf, KeysOf(op), entered, p))
    ensures forall out | Updated(buckets, out, bucketOf, KeysOf(op), Prefixes(bucketOf, left + entered), entered) ::
              Exact(out, bucketOf, Apply(s, op).state)
  {
    hide Inv, Apply, InIndex, Restrict, LeaseIn, KeysOf, Refreshed, Prefixes, BucketAt, EntriesAround;
    StepKeepsInv(s, op);
    forall e: Entry
      ensures e in Refreshed(buckets, bucketOf, KeysOf(op), entered, bucketOf(e.id)) <==> InIndex(Apply(s, op).state, e)
      ensures bucketOf(e.id) !in Prefixes(bucketOf, left + entered) ==> (InIndex(s, e) <==> InIndex(Apply(s, op).state, e))
    {
      RefreshedFromState(s, op, loaded, buckets, bucketOf, left, entered, e);
    }
    forall p, e, f | e in Refreshed(buckets, bucketOf, KeysOf(op), entered, p) && f in Refreshed(buckets, bucketOf, KeysOf(op), entered, p) && e.id == f.id
      ensures e == f
    {
      IndexUnique(Apply(s, op).state, e, f);
    }
  }

  /** An operation its lineages accept, whose entries meet no conflict in the
      index, claims nothing that another lineage owns. */
  lemma NoConflictOwns(s: State, op: Op, loaded: set<string>, buckets: Buckets, bucketOf: TombKey -> nat, left: set<Entry>, entered: set<Entry>)
    requires Inv(s) && KeysOf(op) <= loaded && Closed(s, loaded) && Apply(Restrict(s, loaded), op).result.Ok?
    requires Exact(buckets, bucketOf, s)
    requires EntriesAround(Restrict(s, loaded), Apply(Restrict(s, loaded), op).state, KeysOf(op), left, entered)
    requires forall p | p in Prefixes(bucketOf, left + entered) :: Distinct(Refreshed(buckets, bucketOf, KeysOf(op), entered, p))
    ensures ClaimsOwned(s, op, loaded)
  {
    hide Inv, Apply, InIndex, Restrict, KeysOf, Refreshed, Prefixes, BucketAt, Closed, OwnedIn, ClaimsOf;
    RestrictInv(s, loaded);
    forall x | x in ClaimsOf(op) ensures OwnedIn(s, x, loaded) {
      ClaimsEntered(Restrict(s, loaded), op, x);
      var e :| InIndex(Apply(Restrict(s, loaded), op).state, e) && e.id == x && e.keyId in KeysOf(op);
      forall f | InIndex(s, f) && f.id == x ensures f.keyId in loaded {
        var p := bucketOf(x);
        assert e in left + entered && p in Prefixes(bucketOf, left + entered);
        assert e in Refreshed(buckets, bucketOf, KeysOf(op), entered, p);
        assert f.keyId in KeysOf(op) || f in Refreshed(buckets, bucketOf, KeysOf(op), entered, p);
      }
      OwnedByIndex(s, x, loaded);
    }
  }
}

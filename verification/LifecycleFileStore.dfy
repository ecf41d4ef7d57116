/** The sharded file store: each operation loads the lineages it needs, runs on
    them alone, and publishes new snapshots and index buckets under one root. */
module LifecycleFileStore {
  import opened LifecycleRecords
  import opened LifecycleState
  import opened LifecycleOps
  import opened LifecycleInvariant
  import opened LifecycleSlices
  import opened LifecycleLocality
  import opened LifecycleLocalityCutovers
  import opened LifecycleLineages
  import opened LifecycleIndex
  import opened LifecycleBuckets

  // -------------------------------------------------------- transaction counters

  /** A published transaction raises both token counters to its number. */
  function Bump(s: State, n: nat): State { s.(nextLease := n, nextCutover := n) }

  lemma BumpLeases(s: State, n: nat)
    requires LeasesValid(s.leases, s.bySession, s.nextLease) && s.nextLease <= n
    ensures LeasesValid(s.leases, s.bySession, n)
  {
    hide ValidLease;
    forall t | t in s.leases ensures LeaseOk(s.leases[t], t, s.bySession, n) { assert LeaseOk(s.leases[t], t, s.bySession, s.nextLease); }
  }

  lemma BumpCutovers(s: State, n: nat)
    requires CutoversValid(s.cutovers, s.cutoverByKey, s.nextCutover, s.gens, s.current, s.leases, s.attempts) && s.nextCutover <= n
    ensures CutoversValid(s.cutovers, s.cutoverByKey, n, s.gens, s.current, s.leases, s.attempts)
  {
    hide ValidFence, FencedOk, CommittedOk, ValidText;
    forall t | t in s.cutovers ensures CutoverOk(s.cutovers[t], t, s.cutoverByKey, n, s.gens, s.current, s.leases, s.attempts) {
      assert CutoverOk(s.cutovers[t], t, s.cutoverByKey, s.nextCutover, s.gens, s.current, s.leases, s.attempts);
    }
  }

  lemma BumpTombs(s: State, n: nat)
    requires TombsStrong(s.tombs, s.gens, s.bySession, s.presigns, s.attempts, s.cutovers, s.nextCutover) && s.nextCutover <= n
    ensures TombsStrong(s.tombs, s.gens, s.bySession, s.presigns, s.attempts, s.cutovers, n)
  {
    forall x | x in s.tombs ensures TombOk(x, s.tombs[x].keyId, s.gens, s.bySession, s.presigns, s.attempts, s.cutovers, n) {
      assert TombOk(x, s.tombs[x].keyId, s.gens, s.bySession, s.presigns, s.attempts, s.cutovers, s.nextCutover);
    }
  }

  lemma BumpInv(s: State, n: nat)
    requires Inv(s) && s.nextLease <= n && s.nextCutover <= n
    ensures Inv(Bump(s, n))
  {
    hide LeasesValid, CutoversValid, TombsStrong;
    hide HoldersValid, EffectsValid, DisabledValid, PresignsValid, AttemptsValid, GenerationsValid, TombsValid;
    hide NamesUnique, EffectsStrong, MetadataKept, DisabledStrong, AttemptsStrong, FencesStrong;
    BumpLeases(s, n);
    BumpCutovers(s, n);
    BumpTombs(s, n);
  }

  // ------------------------------------------------------------ representation

  function LineageAt(lineages: map<string, Lineage>, keyId: string): Lineage {
    if keyId in lineages then lineages[keyId] else EmptyLineage
  }

  /** The snapshots hold the state, lineage by lineage. */
  ghost predicate Holds(lineages: map<string, Lineage>, s: State) {
    forall k: string :: LineageAt(lineages, k) == Encode(s, k)
  }

  ghost predicate Represents(txId: nat, lineages: map<string, Lineage>, buckets: Buckets, bucketOf: TombKey -> nat, s: State) {
    && s.nextLease == txId && s.nextCutover == txId
    && Holds(lineages, s)
    && Exact(buckets, bucketOf, s)
  }

  lemma EncodeOfSlice(s: State, t: State, k: string)
    requires Slice(s, {k}) == Slice(t, {k})
    ensures Encode(s, k) == Encode(t, k)
  {
    hide GensOf, ByKeyOf, LeasesOf, SessionsOf, EffectsOf, AnchorsOf, PresignsOf, AttemptsOf, CutoversOf, TombsOf;
  }

  lemma RecordsNarrow(s: State, keys: set<string>, one: set<string>)
    requires one <= keys
    ensures GensOf(GensOf(s.gens, keys), one) == GensOf(s.gens, one)
    ensures LeasesOf(LeasesOf(s.leases, keys), one) == LeasesOf(s.leases, one)
    ensures EffectsOf(EffectsOf(s.effects, s.leases, keys), LeasesOf(s.leases, keys), one) == EffectsOf(s.effects, s.leases, one)
    ensures AnchorsOf(AnchorsOf(s.anchors, keys), one) == AnchorsOf(s.anchors, one)
  {
    hide GensOf, LeasesOf, EffectsOf, AnchorsOf;
  }

  lemma ArtifactsNarrow(s: State, keys: set<string>, one: set<string>)
    requires one <= keys
    ensures PresignsOf(PresignsOf(s.presigns, keys), one) == PresignsOf(s.presigns, one)
    ensures AttemptsOf(AttemptsOf(s.attempts, keys), one) == AttemptsOf(s.attempts, one)
    ensures CutoversOf(CutoversOf(s.cutovers, keys), one) == CutoversOf(s.cutovers, one)
    ensures TombsOf(TombsOf(s.tombs, keys), one) == TombsOf(s.tombs, one)
  {
    hide PresignsOf, AttemptsOf, CutoversOf, TombsOf;
  }

  lemma ByKeyNarrow<V>(m: map<string, V>, keys: set<string>, one: set<string>)
    requires one <= keys
    ensures ByKeyOf(ByKeyOf(m, keys), one) == ByKeyOf(m, one)
  {
    hide ByKeyOf<V>;
  }

  lemma EncodeOfRestriction(s: State, keys: set<string>, k: string)
    requires k in keys
    ensures Encode(Restrict(s, keys), k) == Encode(s, k)
  {
    hide GensOf, ByKeyOf, LeasesOf, SessionsOf, EffectsOf, AnchorsOf, PresignsOf, AttemptsOf, CutoversOf, TombsOf;
    RecordsNarrow(s, keys, {k});
    ArtifactsNarrow(s, keys, {k});
    ByKeyNarrow(s.current, keys, {k});
    ByKeyNarrow(s.disabled, keys, {k});
  }

  /** Snapshots of the operation's own lineages, taken from what it ran on, bring
      the whole representation up to date. */
  lemma SnapshotsFollow(s: State, op: Op, loaded: set<string>, lineages: map<string, Lineage>, out: map<string, Lineage>)
    requires Inv(s) && KeysOf(op) <= loaded && Apply(s, op).result.Ok? && LeaseIn(s, op, loaded)
    requires Holds(lineages, s)
    requires forall k: string :: LineageAt(out, k) == if k in KeysOf(op) then Encode(Apply(Restrict(s, loaded), op).state, k) else LineageAt(lineages, k)
    ensures Holds(out, Apply(s, op).state)
  {
    hide Inv, Apply, Restrict, KeysOf, LeaseIn, ClaimsOwned, LineageAt, Encode;
    OpAgrees(s, op, loaded);
    forall k: string ensures LineageAt(out, k) == Encode(Apply(s, op).state, k) {
      if k in KeysOf(op) {
        EncodeOfRestriction(Apply(s, op).state, loaded, k);
      } else {
        OpFramed(s, op, {k});
        EncodeOfSlice(s, Apply(s, op).state, k);
      }
    }
  }

  // --------------------------------------------------------- a lineage's entries

  method SessionEntries(memory: State, keys: set<string>) returns (out: set<Entry>)
    requires LeasesValid(memory.leases, memory.bySession, memory.nextLease)
    ensures forall e :: e in out <==> e.id.SessionTomb? && !e.tomb && e.keyId in keys && InIndex(memory, e)
  {
    hide ValidLease, ArtifactHeld;
    out := {};
    var todo := memory.leases.Keys;
    while todo != {}
      invariant todo <= memory.leases.Keys
      invariant forall e | e in out :: e.id.SessionTomb? && !e.tomb && e.keyId in keys && InIndex(memory, e)
      invariant forall t | t in memory.leases && t !in todo && memory.leases[t].binding.keyId in keys ::
                  Entry(SessionTomb(memory.leases[t].session), memory.leases[t].binding.keyId, false) in out
      decreases todo
    {
      var t :| t in todo;
      var l := memory.leases[t];
      assert LeaseOk(l, t, memory.bySession, memory.nextLease);
      if l.binding.keyId in keys { out := out + {Entry(SessionTomb(l.session), l.binding.keyId, false)}; }
      todo := todo - {t};
    }
  }

  method PresignEntries(memory: State, keys: set<string>) returns (out: set<Entry>)
    ensures forall e :: e in out <==> (e.id.PresignTomb? || e.id.ArtifactTomb?) && !e.tomb && e.keyId in keys && InIndex(memory, e)
  {
    out := {};
    var todo := memory.presigns.Keys;
    while todo != {}
      invariant todo <= memory.presigns.Keys
      invariant forall e | e in out :: (e.id.PresignTomb? || e.id.ArtifactTomb?) && !e.tomb && e.keyId in keys && InIndex(memory, e)
      invariant forall id | id in memory.presigns && id !in todo && memory.presigns[id].binding.keyId in keys ::
                  && Entry(PresignTomb(id), memory.presigns[id].binding.keyId, false) in out
                  && Entry(ArtifactTomb(memory.presigns[id].artifact), memory.presigns[id].binding.keyId, false) in out
      decreases todo
    {
      var id :| id in todo;
      var p := memory.presigns[id];
      if p.binding.keyId in keys {
        out := out + {Entry(PresignTomb(id), p.binding.keyId, false), Entry(ArtifactTomb(p.artifact), p.binding.keyId, false)};
      }
      todo := todo - {id};
    }
  }

  method AttemptEntries(memory: State, keys: set<string>) returns (out: set<Entry>)
    ensures forall e :: e in out <==> e.id.AttemptTomb? && !e.tomb && e.keyId in keys && InIndex(memory, e)
  {
    out := {};
    var todo := memory.attempts.Keys;
    while todo != {}
      invariant todo <= memory.attempts.Keys
      invariant forall e | e in out :: e.id.AttemptTomb? && !e.tomb && e.keyId in keys && InIndex(memory, e)
      invariant forall id | id in memory.attempts && id !in todo && memory.attempts[id].binding.keyId in keys ::
                  Entry(AttemptTomb(id), memory.attempts[id].binding.keyId, false) in out
      decreases todo
    {
      var id :| id in todo;
      var a := memory.attempts[id];
      if a.binding.keyId in keys { out := out + {Entry(AttemptTomb(id), a.binding.keyId, false)}; }
      todo := todo - {id};
    }
  }

  method TombEntries(memory: State, keys: set<string>) returns (out: set<Entry>)
    ensures forall e :: e in out <==> e.tomb && e.keyId in keys && InIndex(memory, e)
  {
    out := {};
    var todo := memory.tombs.Keys;
    while todo != {}
      invariant todo <= memory.tombs.Keys
      invariant forall e | e in out :: e.tomb && e.keyId in keys && InIndex(memory, e)
      invariant forall x | x in memory.tombs && x !in todo && memory.tombs[x].keyId in keys :: Entry(x, memory.tombs[x].keyId, true) in out
      decreases todo
    {
      var x :| x in todo;
      if memory.tombs[x].keyId in keys { out := out + {Entry(x, memory.tombs[x].keyId, true)}; }
      todo := todo - {x};
    }
  }

  /** The entries of the given lineages. */
  method IndexesFor(memory: State, keys: set<string>) returns (out: set<Entry>)
    requires LeasesValid(memory.leases, memory.bySession, memory.nextLease)
    ensures forall e :: e in out <==> InIndex(memory, e) && e.keyId in keys
  {
    hide LeasesValid, ArtifactHeld;
    var sessions := SessionEntries(memory, keys);
    var presigns := PresignEntries(memory, keys);
    var attempts := AttemptEntries(memory, keys);
    var tombs := TombEntries(memory, keys);
    out := sessions + presigns + attempts + tombs;
  }

  // ------------------------------------------------------------------- loading

  lemma NothingLoaded(s: State)
    ensures Restrict(s, {}) == Empty.(nextLease := s.nextLease, nextCutover := s.nextCutover)
  {
    hide GensOf, ByKeyOf, LeasesOf, SessionsOf, EffectsOf, AnchorsOf, PresignsOf, AttemptsOf, CutoversOf, TombsOf;
  }

  lemma EmptySlice(s: State, k: string)
    requires Inv(s) && Encode(s, k) == EmptyLineage
    ensures Slice(s, {k}) == Empty
  {
    hide Inv, GensOf, ByKeyOf, LeasesOf, SessionsOf, EffectsOf, AnchorsOf, PresignsOf, AttemptsOf, CutoversOf, TombsOf;
    SessionsRebuilt(s, {k}, map[]);
    FencesRebuilt(s, {k}, map[]);
  }

  lemma PlusNothing<K, V>(m: map<K, V>)
    ensures m + map[] == m
  {
  }

  lemma JoinNothing(m: State)
    ensures Join(m, Empty) == m
  {
    PlusNothing(m.gens);
    PlusNothing(m.current);
    PlusNothing(m.leases);
    PlusNothing(m.bySession);
    PlusNothing(m.effects);
    PlusNothing(m.disabled);
    PlusNothing(m.anchors);
    PlusNothing(m.presigns);
    PlusNothing(m.attempts);
    PlusNothing(m.cutovers);
    PlusNothing(m.cutoverByKey);
    PlusNothing(m.tombs);
  }

  /** A lineage that has no snapshot holds nothing. */
  lemma AbsentLineage(s: State, keys: set<string>, k: string)
    requires Inv(s) && Encode(s, k) == EmptyLineage
    ensures Restrict(s, keys + {k}) == Restrict(s, keys)
  {
    hide Inv, Restrict, Slice, Encode, Join;
    EmptySlice(s, k);
    LineagesJoin(s, keys, k);
    JoinNothing(Restrict(s, keys));
  }

  /** The other lineages that effects of a lineage lead to. */
  method TargetsOf(effects: map<Token, Effect>, keyId: string) returns (targets: seq<string>)
    ensures forall t | t in effects && effects[t].kind.HasTarget() :: effects[t].kind.target.keyId == keyId || effects[t].kind.target.keyId in targets
    ensures forall k | k in targets :: exists t :: t in effects && effects[t].kind.HasTarget() && effects[t].kind.target.keyId == k
  {
    targets := [];
    var todo := effects.Keys;
    while todo != {}
      invariant todo <= effects.Keys
      invariant forall t | t in effects && t !in todo && effects[t].kind.HasTarget() ::
                  effects[t].kind.target.keyId == keyId || effects[t].kind.target.keyId in targets
      invariant forall k | k in targets :: exists t :: t in effects && effects[t].kind.HasTarget() && effects[t].kind.target.keyId == k
      decreases todo
    {
      var t :| t in todo;
      todo := todo - {t};
      if effects[t].kind.HasTarget() && effects[t].kind.target.keyId != keyId { targets := targets + [effects[t].kind.target.keyId]; }
    }
  }

  ghost function Targets(lineages: map<string, Lineage>): (r: set<string>)
    ensures forall k, t | k in lineages && t in lineages[k].effects && lineages[k].effects[t].kind.HasTarget() ::
              lineages[k].effects[t].kind.target.keyId in r
  {
    set k, t | k in lineages && t in lineages[k].effects && lineages[k].effects[t].kind.HasTarget() :: lineages[k].effects[t].kind.target.keyId
  }

  /** Every effect of a loaded lineage leads to a lineage loaded or queued. */
  ghost predicate ClosedUpTo(s: State, loaded: set<string>, queue: seq<string>) {
    forall t | t in EffectsOf(s.effects, s.leases, loaded) && s.effects[t].kind.HasTarget() ::
      s.effects[t].kind.target.keyId in loaded || s.effects[t].kind.target.keyId in queue
  }

  lemma ClosedStep(s: State, loaded: set<string>, k: string, rest: seq<string>, targets: seq<string>)
    requires ClosedUpTo(s, loaded, [k] + rest)
    requires forall t | t in EffectsOf(s.effects, s.leases, {k}) && s.effects[t].kind.HasTarget() :: s.effects[t].kind.target.keyId == k || s.effects[t].kind.target.keyId in targets
    ensures ClosedUpTo(s, loaded + {k}, rest + targets)
  {
    hide EffectsOf;
    forall t | t in EffectsOf(s.effects, s.leases, loaded + {k}) && s.effects[t].kind.HasTarget()
      ensures s.effects[t].kind.target.keyId in loaded + {k} || s.effects[t].kind.target.keyId in rest + targets
    {
      assert t in EffectsOf(s.effects, s.leases, loaded) || t in EffectsOf(s.effects, s.leases, {k});
    }
  }

  lemma ClosedSkip(s: State, loaded: set<string>, k: string, rest: seq<string>)
    requires ClosedUpTo(s, loaded, [k] + rest) && k in loaded
    ensures ClosedUpTo(s, loaded, rest)
  {
    hide EffectsOf;
  }
}

/** Lineage snapshots: the store's state cut into one snapshot per key, and put
    together again from the lineages an operation needs. */
module LifecycleLineages {
  import opened LifecycleRecords
  import opened LifecycleState
  import opened LifecycleInvariant
  import opened LifecycleInductive
  import opened LifecycleSlices
  import opened LifecycleLocality

  /** What one key's snapshot file holds. The session index and the active-fence
      index are not written; they are rebuilt from the leases and cutovers. */
  datatype Lineage = Lineage(
    current: map<string, Binding>,
    gens: map<Binding, Generation>,
    leases: map<Token, Lease>,
    effects: map<Token, Effect>,
    disabled: map<string, DisabledRecord>,
    anchors: map<Token, ReceiverAnchor>,
    presigns: map<string, Presign>,
    attempts: map<string, Attempt>,
    cutovers: map<Token, Cutover>,
    tombs: map<TombKey, Tombstone>)

  const EmptyLineage := Lineage(map[], map[], map[], map[], map[], map[], map[], map[], map[], map[])

  /** The records of one key. */
  function Encode(s: State, keyId: string): Lineage {
    var keys := {keyId};
    Lineage(ByKeyOf(s.current, keys), GensOf(s.gens, keys), LeasesOf(s.leases, keys), EffectsOf(s.effects, s.leases, keys),
            ByKeyOf(s.disabled, keys), AnchorsOf(s.anchors, keys), PresignsOf(s.presigns, keys), AttemptsOf(s.attempts, keys),
            CutoversOf(s.cutovers, keys), TombsOf(s.tombs, keys))
  }

  // --------------------------------------------------------- rebuilt indexes

  /** `m` indexes the leases by session. */
  predicate IndexesSessions(m: map<SessionId, Token>, leases: map<Token, Lease>) {
    && (forall i | i in m :: m[i] in leases && leases[m[i]].session == i)
    && (forall t | t in leases :: leases[t].session in m)
  }

  /** `m` indexes the active cutovers by the key they fence. */
  predicate IndexesFences(m: map<string, Token>, cutovers: map<Token, Cutover>) {
    && (forall k | k in m :: m[k] in cutovers && cutovers[m[k]].state.ActiveCutover? && cutovers[m[k]].fence.source.keyId == k)
    && (forall t | t in cutovers && cutovers[t].state.ActiveCutover? :: cutovers[t].fence.source.keyId in m)
  }

  method RebuildSessions(leases: map<Token, Lease>) returns (m: map<SessionId, Token>)
    ensures IndexesSessions(m, leases)
  {
    m := map[];
    var todo := leases.Keys;
    while todo != {}
      invariant todo <= leases.Keys
      invariant forall i | i in m :: m[i] in leases && leases[m[i]].session == i
      invariant forall t | t in leases && t !in todo :: leases[t].session in m
      decreases todo
    {
      var t :| t in todo;
      todo := todo - {t};
      m := m[leases[t].session := t];
    }
  }

  method RebuildFences(cutovers: map<Token, Cutover>) returns (m: map<string, Token>)
    ensures IndexesFences(m, cutovers)
  {
    m := map[];
    var todo := cutovers.Keys;
    while todo != {}
      invariant todo <= cutovers.Keys
      invariant forall k | k in m :: m[k] in cutovers && cutovers[m[k]].state.ActiveCutover? && cutovers[m[k]].fence.source.keyId == k
      invariant forall t | t in cutovers && t !in todo && cutovers[t].state.ActiveCutover? :: cutovers[t].fence.source.keyId in m
      decreases todo
    {
      var t :| t in todo;
      todo := todo - {t};
      if cutovers[t].state.ActiveCutover? { m := m[cutovers[t].fence.source.keyId := t]; }
    }
  }

  /** In a valid state the two indexes are determined by what they index. */
  lemma SessionsRebuilt(s: State, keys: set<string>, m: map<SessionId, Token>)
    requires Inv(s) && IndexesSessions(m, LeasesOf(s.leases, keys))
    ensures m == SessionsOf(s.bySession, s.leases, keys)
  {
    hide Inv, LeasesOf, SessionsOf, ValidLease;
    var r := SessionsOf(s.bySession, s.leases, keys);
    forall i | i in m ensures i in r && r[i] == m[i] { LeaseFact(s, m[i]); }
    forall i | i in r ensures i in m { SessionFact(s, i); assert s.bySession[i] in LeasesOf(s.leases, keys); }
  }

  lemma FencesRebuilt(s: State, keys: set<string>, m: map<string, Token>)
    requires Inv(s) && IndexesFences(m, CutoversOf(s.cutovers, keys))
    ensures m == ByKeyOf(s.cutoverByKey, keys)
  {
    hide Inv, CutoversOf, ByKeyOf, ValidFence, ValidText;
    var r := ByKeyOf(s.cutoverByKey, keys);
    forall k | k in m ensures k in r && r[k] == m[k] { CutoverFact(s, m[k]); }
    forall k | k in r ensures k in m { FenceFact(s, k); assert s.cutoverByKey[k] in CutoversOf(s.cutovers, keys); }
  }

  method Decode(l: Lineage) returns (s: State)
    ensures s == State(l.gens, l.current, l.leases, s.bySession, l.effects, l.disabled, l.anchors, l.presigns, l.attempts, l.cutovers, s.cutoverByKey, l.tombs, 0, 0)
    ensures IndexesSessions(s.bySession, l.leases) && IndexesFences(s.cutoverByKey, l.cutovers)
  {
    var bySession := RebuildSessions(l.leases);
    var byKey := RebuildFences(l.cutovers);
    s := State(l.gens, l.current, l.leases, bySession, l.effects, l.disabled, l.anchors, l.presigns, l.attempts, l.cutovers, byKey, l.tombs, 0, 0);
  }

  // ------------------------------------------------------------------ merging

  /** Adds the entries of `src` to `dst`, refusing a key both of them hold. */
  method MergeDistinct<K, V>(dst: map<K, V>, src: map<K, V>) returns (ok: bool, out: map<K, V>)
    ensures ok <==> forall k | k in src :: k !in dst
    ensures ok ==> out == dst + src
  {
    out := dst;
    var todo := src.Keys;
    while todo != {}
      invariant todo <= src.Keys
      invariant forall k | k in src && k !in todo :: k !in dst
      invariant forall k :: k in out <==> k in dst || (k in src && k !in todo)
      invariant forall k | k in out :: out[k] == if k in src && k !in todo then src[k] else dst[k]
      decreases todo
    {
      var k :| k in todo;
      if k in out { return false, out; }
      todo := todo - {k};
      out := out[k := src[k]];
    }
    ok := true;
  }

  /** The records of both states; the counters are those of the first. */
  function Join(dst: State, src: State): State {
    State(dst.gens + src.gens, dst.current + src.current, dst.leases + src.leases, dst.bySession + src.bySession,
          dst.effects + src.effects, dst.disabled + src.disabled, dst.anchors + src.anchors, dst.presigns + src.presigns,
          dst.attempts + src.attempts, dst.cutovers + src.cutovers, dst.cutoverByKey + src.cutoverByKey,
          dst.tombs + src.tombs, dst.nextLease, dst.nextCutover)
  }

  /** Puts a decoded lineage into the state being loaded. */
  method Merge(dst: State, src: State) returns (r: Result<State>)
    ensures r.Ok? <==> dst.gens.Keys !! src.gens.Keys && dst.current.Keys !! src.current.Keys && dst.leases.Keys !! src.leases.Keys
                       && dst.presigns.Keys !! src.presigns.Keys && dst.attempts.Keys !! src.attempts.Keys && dst.tombs.Keys !! src.tombs.Keys
    ensures r.Ok? ==> r.value == Join(dst, src)
  {
    var gensOk, gens := MergeDistinct(dst.gens, src.gens);
    if !gensOk { return Err(LifecycleCorrupt); }
    var currentOk, current := MergeDistinct(dst.current, src.current);
    if !currentOk { return Err(LifecycleCorrupt); }
    var leasesOk, leases := MergeDistinct(dst.leases, src.leases);
    if !leasesOk { return Err(LifecycleCorrupt); }
    var presignsOk, presigns := MergeDistinct(dst.presigns, src.presigns);
    if !presignsOk { return Err(LifecycleCorrupt); }
    var attemptsOk, attempts := MergeDistinct(dst.attempts, src.attempts);
    if !attemptsOk { return Err(LifecycleCorrupt); }
    var tombsOk, tombs := MergeDistinct(dst.tombs, src.tombs);
    if !tombsOk { return Err(LifecycleCorrupt); }
    r := Ok(State(gens, current, leases, dst.bySession + src.bySession, dst.effects + src.effects, dst.disabled + src.disabled,
                  dst.anchors + src.anchors, presigns, attempts, dst.cutovers + src.cutovers, dst.cutoverByKey + src.cutoverByKey,
                  tombs, dst.nextLease, dst.nextCutover));
  }

  // ------------------------------------------------------------------ loading

  lemma RecordsJoin(s: State, keys: set<string>, k: string)
    ensures GensOf(s.gens, keys) + GensOf(s.gens, {k}) == GensOf(s.gens, keys + {k})
    ensures LeasesOf(s.leases, keys) + LeasesOf(s.leases, {k}) == LeasesOf(s.leases, keys + {k})
    ensures SessionsOf(s.bySession, s.leases, keys) + SessionsOf(s.bySession, s.leases, {k}) == SessionsOf(s.bySession, s.leases, keys + {k})
    ensures EffectsOf(s.effects, s.leases, keys) + EffectsOf(s.effects, s.leases, {k}) == EffectsOf(s.effects, s.leases, keys + {k})
    ensures AnchorsOf(s.anchors, keys) + AnchorsOf(s.anchors, {k}) == AnchorsOf(s.anchors, keys + {k})
  {
    hide GensOf, LeasesOf, SessionsOf, EffectsOf, AnchorsOf;
  }

  lemma ArtifactsJoin(s: State, keys: set<string>, k: string)
    ensures PresignsOf(s.presigns, keys) + PresignsOf(s.presigns, {k}) == PresignsOf(s.presigns, keys + {k})
    ensures AttemptsOf(s.attempts, keys) + AttemptsOf(s.attempts, {k}) == AttemptsOf(s.attempts, keys + {k})
    ensures CutoversOf(s.cutovers, keys) + CutoversOf(s.cutovers, {k}) == CutoversOf(s.cutovers, keys + {k})
    ensures TombsOf(s.tombs, keys) + TombsOf(s.tombs, {k}) == TombsOf(s.tombs, keys + {k})
  {
    hide PresignsOf, AttemptsOf, CutoversOf, TombsOf;
  }

  lemma ByKeyJoin<V>(m: map<string, V>, keys: set<string>, k: string)
    ensures ByKeyOf(m, keys) + ByKeyOf(m, {k}) == ByKeyOf(m, keys + {k})
  {
    hide ByKeyOf<V>;
  }

  lemma LineagesJoin(s: State, keys: set<string>, k: string)
    ensures Join(Restrict(s, keys), Slice(s, {k})) == Restrict(s, keys + {k})
  {
    hide GensOf, ByKeyOf, LeasesOf, SessionsOf, EffectsOf, AnchorsOf, PresignsOf, AttemptsOf, CutoversOf, TombsOf;
    RecordsJoin(s, keys, k);
    ArtifactsJoin(s, keys, k);
    ByKeyJoin(s.current, keys, k);
    ByKeyJoin(s.disabled, keys, k);
    ByKeyJoin(s.cutoverByKey, keys, k);
  }

  /** One lineage read back from its snapshot. */
  method ReadLineage(l: Lineage, keyId: string, ghost s: State) returns (r: State)
    requires Inv(s) && l == Encode(s, keyId)
    ensures r == Slice(s, {keyId})
  {
    r := Decode(l);
    SessionsRebuilt(s, {keyId}, r.bySession);
    FencesRebuilt(s, {keyId}, r.cutoverByKey);
  }

  /** Merging a further lineage widens the restriction by its key. */
  method MergeLineage(memory: State, lineage: State, keyId: string, ghost s: State, ghost keys: set<string>) returns (r: Result<State>)
    requires memory == Restrict(s, keys) && lineage == Slice(s, {keyId}) && keyId !in keys
    ensures r == Ok(Restrict(s, keys + {keyId}))
  {
    hide GensOf, ByKeyOf, LeasesOf, SessionsOf, EffectsOf, AnchorsOf, PresignsOf, AttemptsOf, CutoversOf, TombsOf;
    r := Merge(memory, lineage);
    LineagesJoin(s, keys, keyId);
  }
}

/** The part of a state that belongs to a set of key lineages. */
module LifecycleSlices {
  import opened Options
  import opened LifecycleRecords
  import opened LifecycleState
  import opened LifecycleOps
  import opened LifecycleInvariant

  function GensOf(m: map<Binding, Generation>, keys: set<string>): (r: map<Binding, Generation>)
    ensures forall b {:trigger b in r} :: b in r <==> b in m && b.keyId in keys
    ensures forall b {:trigger r[b]} | b in r :: r[b] == m[b]
  {
    map b | b in m && b.keyId in keys :: m[b]
  }

  function ByKeyOf<V>(m: map<string, V>, keys: set<string>): (r: map<string, V>)
    ensures forall k {:trigger k in r} :: k in r <==> k in m && k in keys
    ensures forall k {:trigger r[k]} | k in r :: r[k] == m[k]
  {
    map k | k in m && k in keys :: m[k]
  }

  function LeasesOf(m: map<Token, Lease>, keys: set<string>): (r: map<Token, Lease>)
    ensures forall t {:trigger t in r} :: t in r <==> t in m && m[t].binding.keyId in keys
    ensures forall t {:trigger r[t]} | t in r :: r[t] == m[t]
  {
    map t | t in m && m[t].binding.keyId in keys :: m[t]
  }

  /** The session index as it is rebuilt from the leases kept. */
  function SessionsOf(m: map<SessionId, Token>, leases: map<Token, Lease>, keys: set<string>): (r: map<SessionId, Token>)
    ensures forall i {:trigger i in r} :: i in r <==> i in m && m[i] in leases && leases[m[i]].binding.keyId in keys
    ensures forall i {:trigger r[i]} | i in r :: r[i] == m[i]
  {
    map i | i in m && m[i] in leases && leases[m[i]].binding.keyId in keys :: m[i]
  }

  function EffectsOf(m: map<Token, Effect>, leases: map<Token, Lease>, keys: set<string>): (r: map<Token, Effect>)
    ensures forall t {:trigger t in r} :: t in r <==> t in m && t in leases && leases[t].binding.keyId in keys
    ensures forall t {:trigger r[t]} | t in r :: r[t] == m[t]
  {
    map t | t in m && t in leases && leases[t].binding.keyId in keys :: m[t]
  }

  function AnchorsOf(m: map<Token, ReceiverAnchor>, keys: set<string>): (r: map<Token, ReceiverAnchor>)
    ensures forall t {:trigger t in r} :: t in r <==> t in m && m[t].source.keyId in keys
    ensures forall t {:trigger r[t]} | t in r :: r[t] == m[t]
  {
    map t | t in m && m[t].source.keyId in keys :: m[t]
  }

  function PresignsOf(m: map<string, Presign>, keys: set<string>): (r: map<string, Presign>)
    ensures forall id {:trigger id in r} :: id in r <==> id in m && m[id].binding.keyId in keys
    ensures forall id {:trigger r[id]} | id in r :: r[id] == m[id]
  {
    map id | id in m && m[id].binding.keyId in keys :: m[id]
  }

  function AttemptsOf(m: map<string, Attempt>, keys: set<string>): (r: map<string, Attempt>)
    ensures forall id {:trigger id in r} :: id in r <==> id in m && m[id].binding.keyId in keys
    ensures forall id {:trigger r[id]} | id in r :: r[id] == m[id]
  {
    map id | id in m && m[id].binding.keyId in keys :: m[id]
  }

  function CutoversOf(m: map<Token, Cutover>, keys: set<string>): (r: map<Token, Cutover>)
    ensures forall t {:trigger t in r} :: t in r <==> t in m && m[t].fence.source.keyId in keys
    ensures forall t {:trigger r[t]} | t in r :: r[t] == m[t]
  {
    map t | t in m && m[t].fence.source.keyId in keys :: m[t]
  }

  function TombsOf(m: map<TombKey, Tombstone>, keys: set<string>): (r: map<TombKey, Tombstone>)
    ensures forall x {:trigger x in r} :: x in r <==> x in m && m[x].keyId in keys
    ensures forall x {:trigger r[x]} | x in r :: r[x] == m[x]
  {
    map x | x in m && m[x].keyId in keys :: m[x]
  }

  function Restrict(s: State, keys: set<string>): State {
    State(GensOf(s.gens, keys), ByKeyOf(s.current, keys), LeasesOf(s.leases, keys), SessionsOf(s.bySession, s.leases, keys),
          EffectsOf(s.effects, s.leases, keys), ByKeyOf(s.disabled, keys), AnchorsOf(s.anchors, keys), PresignsOf(s.presigns, keys),
          AttemptsOf(s.attempts, keys), CutoversOf(s.cutovers, keys), ByKeyOf(s.cutoverByKey, keys), TombsOf(s.tombs, keys),
          s.nextLease, s.nextCutover)
  }

  /** A lineage snapshot carries no counters. */
  function Slice(s: State, keys: set<string>): State {
    Restrict(s, keys).(nextLease := 0, nextCutover := 0)
  }

  // ------------------------------------------------- guards read only their key

  lemma GenerationGuards(s: State, keys: set<string>, k: string)
    requires Inv(s) && k in keys
    ensures HasGenerationForKey(GensOf(s.gens, keys), k) <==> HasGenerationForKey(s.gens, k)
    ensures forall g :: HasKeyGeneration(GensOf(s.gens, keys), TombsOf(s.tombs, keys), k, g) <==> HasKeyGeneration(s.gens, s.tombs, k, g)
  {
    hide Valid, NamesUnique, EffectsStrong, MetadataKept, DisabledStrong, AttemptsStrong, FencesStrong, GensOf, TombsOf;
    forall g ensures GenerationNameTomb(k, g) in s.tombs ==> GenerationNameTomb(k, g) in TombsOf(s.tombs, keys) {
      var x := GenerationNameTomb(k, g);
      if x in s.tombs { assert TombOk(x, s.tombs[x].keyId, s.gens, s.bySession, s.presigns, s.attempts, s.cutovers, s.nextCutover); }
    }
  }

  lemma LeaseGuards(s: State, keys: set<string>, k: string)
    requires k in keys
    ensures HasActiveLeaseForKey(LeasesOf(s.leases, keys), k) <==> HasActiveLeaseForKey(s.leases, k)
    ensures forall t :: HasOtherActiveLeaseForKey(LeasesOf(s.leases, keys), k, t) <==> HasOtherActiveLeaseForKey(s.leases, k, t)
    ensures forall b: Binding | b.keyId == k :: HasActiveLease(LeasesOf(s.leases, keys), b) <==> HasActiveLease(s.leases, b)
    ensures forall b: Binding, t | b.keyId == k :: HasOtherActiveLease(LeasesOf(s.leases, keys), b, t) <==> HasOtherActiveLease(s.leases, b, t)
    ensures forall b: Binding, kind | b.keyId == k :: HasIncompatibleLease(LeasesOf(s.leases, keys), b, kind) <==> HasIncompatibleLease(s.leases, b, kind)
  {
    hide LeasesOf;
    var r := LeasesOf(s.leases, keys);
    assert forall t | t in s.leases && s.leases[t].binding.keyId == k :: t in r && r[t] == s.leases[t];
  }

  lemma AttemptGuards(s: State, keys: set<string>, k: string)
    requires k in keys
    ensures HasNonTerminalAttemptForKey(AttemptsOf(s.attempts, keys), k) <==> HasNonTerminalAttemptForKey(s.attempts, k)
    ensures forall b: Binding | b.keyId == k :: HasNonTerminalAttempt(AttemptsOf(s.attempts, keys), b) <==> HasNonTerminalAttempt(s.attempts, b)
  {
    hide AttemptsOf;
    var r := AttemptsOf(s.attempts, keys);
    assert forall id | id in s.attempts && s.attempts[id].binding.keyId == k :: id in r && r[id] == s.attempts[id];
  }

  lemma CurrentGuards(s: State, keys: set<string>, b: Binding)
    requires b.keyId in keys
    ensures IsCurrent(Restrict(s, keys), b) <==> IsCurrent(s, b)
    ensures forall i :: HasActiveSignLease(Restrict(s, keys), b, i) <==> HasActiveSignLease(s, b, i)
  {
    hide GensOf, ByKeyOf, LeasesOf, SessionsOf, EffectsOf, AnchorsOf, PresignsOf, AttemptsOf, CutoversOf, TombsOf;
  }

  // ------------------------------------------------------- slices of map updates

  lemma GensPut(m: map<Binding, Generation>, b: Binding, g: Generation, keys: set<string>)
    ensures GensOf(m[b := g], keys) == if b.keyId in keys then GensOf(m, keys)[b := g] else GensOf(m, keys)
  {
    hide GensOf;
  }

  lemma ByKeyPut<V>(m: map<string, V>, k: string, v: V, keys: set<string>)
    ensures ByKeyOf(m[k := v], keys) == if k in keys then ByKeyOf(m, keys)[k := v] else ByKeyOf(m, keys)
    ensures ByKeyOf(m - {k}, keys) == ByKeyOf(m, keys) - {k}
    ensures k !in keys ==> ByKeyOf(m, keys) - {k} == ByKeyOf(m, keys)
  {
    hide ByKeyOf<V>;
  }

  /** A lease is added, or replaced by one of the same lineage. */
  lemma LeasesPut(m: map<Token, Lease>, t: Token, l: Lease, keys: set<string>)
    requires t in m ==> m[t].binding.keyId == l.binding.keyId
    ensures LeasesOf(m[t := l], keys) == if l.binding.keyId in keys then LeasesOf(m, keys)[t := l] else LeasesOf(m, keys)
  {
    hide LeasesOf;
  }

  lemma IndexesKept(s: State, effects: map<Token, Effect>, t: Token, l: Lease, keys: set<string>)
    requires t in s.leases && s.leases[t].binding.keyId == l.binding.keyId
    ensures SessionsOf(s.bySession, s.leases[t := l], keys) == SessionsOf(s.bySession, s.leases, keys)
    ensures EffectsOf(effects, s.leases[t := l], keys) == EffectsOf(effects, s.leases, keys)
  {
    hide SessionsOf, EffectsOf;
  }

  lemma IndexesAdded(s: State, l: Lease, keys: set<string>)
    requires l.token !in s.leases && l.session !in s.bySession && l.token !in s.effects && forall i | i in s.bySession :: s.bySession[i] != l.token
    ensures SessionsOf(s.bySession[l.session := l.token], s.leases[l.token := l], keys)
         == if l.binding.keyId in keys then SessionsOf(s.bySession, s.leases, keys)[l.session := l.token] else SessionsOf(s.bySession, s.leases, keys)
    ensures EffectsOf(s.effects, s.leases[l.token := l], keys) == EffectsOf(s.effects, s.leases, keys)
  {
    hide SessionsOf, EffectsOf;
  }

  lemma EffectsPut(m: map<Token, Effect>, leases: map<Token, Lease>, t: Token, e: Effect, keys: set<string>)
    requires t in leases
    ensures EffectsOf(m[t := e], leases, keys) == if leases[t].binding.keyId in keys then EffectsOf(m, leases, keys)[t := e] else EffectsOf(m, leases, keys)
  {
    hide EffectsOf;
  }

  lemma AnchorsPut(m: map<Token, ReceiverAnchor>, t: Token, a: ReceiverAnchor, keys: set<string>)
    requires t in m ==> m[t].source.keyId == a.source.keyId
    ensures AnchorsOf(m[t := a], keys) == if a.source.keyId in keys then AnchorsOf(m, keys)[t := a] else AnchorsOf(m, keys)
  {
    hide AnchorsOf;
  }

  lemma AnchorsDrop(m: map<Token, ReceiverAnchor>, t: Token, keys: set<string>)
    ensures AnchorsOf(m - {t}, keys) == AnchorsOf(m, keys) - {t}
    ensures t !in m ==> AnchorsOf(m, keys) - {t} == AnchorsOf(m, keys)
    ensures t in m && m[t].source.keyId !in keys ==> AnchorsOf(m, keys) - {t} == AnchorsOf(m, keys)
  {
    hide AnchorsOf;
  }

  lemma PresignsPut(m: map<string, Presign>, id: string, p: Presign, keys: set<string>)
    requires id in m ==> m[id].binding.keyId == p.binding.keyId
    ensures PresignsOf(m[id := p], keys) == if p.binding.keyId in keys then PresignsOf(m, keys)[id := p] else PresignsOf(m, keys)
  {
    hide PresignsOf;
  }

  lemma AttemptsPut(m: map<string, Attempt>, id: string, a: Attempt, keys: set<string>)
    requires id in m ==> m[id].binding.keyId == a.binding.keyId
    ensures AttemptsOf(m[id := a], keys) == if a.binding.keyId in keys then AttemptsOf(m, keys)[id := a] else AttemptsOf(m, keys)
  {
    hide AttemptsOf;
  }

  lemma CutoversPut(m: map<Token, Cutover>, t: Token, c: Cutover, keys: set<string>)
    requires t in m ==> m[t].fence.source.keyId == c.fence.source.keyId
    ensures CutoversOf(m[t := c], keys) == if c.fence.source.keyId in keys then CutoversOf(m, keys)[t := c] else CutoversOf(m, keys)
  {
    hide CutoversOf;
  }

  lemma BurnOneLocal(s: State, id: string, keyId: string, epochId: EpochId, reason: string, keys: set<string>)
    requires PresignsValid(s.presigns, s.attempts, s.gens, s.current) && id in s.presigns
    ensures s.presigns[id].binding.keyId in keys ==>
      BurnOnCutover(s.presigns[id], AttemptsOf(s.attempts, keys), keyId, epochId, reason) == BurnOnCutover(s.presigns[id], s.attempts, keyId, epochId, reason)
    ensures s.presigns[id].binding.keyId in keys && keyId !in keys ==> BurnOnCutover(s.presigns[id], s.attempts, keyId, epochId, reason) == s.presigns[id]
    ensures BurnOnCutover(s.presigns[id], s.attempts, keyId, epochId, reason).binding == s.presigns[id].binding
  {
    hide AttemptsOf, ValidText, ValidBinding, IsCurrentIn;
    assert PresignOk(s.presigns[id], id, s.attempts, s.gens, s.current);
  }

  /** Burning an epoch commutes with restriction: the attempt a claim belongs to
      lies in the claim's own lineage. */
  lemma BurnLocal(s: State, keyId: string, epochId: EpochId, reason: string, keys: set<string>)
    requires PresignsValid(s.presigns, s.attempts, s.gens, s.current)
    ensures PresignsOf(BurnEpochPresigns(s.presigns, s.attempts, keyId, epochId, reason), keys)
         == if keyId in keys then BurnEpochPresigns(PresignsOf(s.presigns, keys), AttemptsOf(s.attempts, keys), keyId, epochId, reason)
            else PresignsOf(s.presigns, keys)
  {
    hide PresignsOf, AttemptsOf, PresignsValid, BurnOnCutover;
    forall id | id in s.presigns
      ensures s.presigns[id].binding.keyId in keys ==>
        BurnOnCutover(s.presigns[id], AttemptsOf(s.attempts, keys), keyId, epochId, reason) == BurnOnCutover(s.presigns[id], s.attempts, keyId, epochId, reason)
      ensures s.presigns[id].binding.keyId in keys && keyId !in keys ==> BurnOnCutover(s.presigns[id], s.attempts, keyId, epochId, reason) == s.presigns[id]
      ensures BurnOnCutover(s.presigns[id], s.attempts, keyId, epochId, reason).binding == s.presigns[id].binding
    {
      BurnOneLocal(s, id, keyId, epochId, reason, keys);
    }
  }

  // ------------------------------------------------ slices of elementary changes

  /** A change of one lineage, seen through a set of lineages: the same change if
      the lineage is among them, and otherwise nothing but the counters. */
  function Seen(before: State, changed: State, keyId: string, keys: set<string>, s: State): State {
    if keyId in keys then changed else before.(nextLease := s.nextLease, nextCutover := s.nextCutover)
  }

  lemma SliceAddLease(s: State, l: Lease, keys: set<string>)
    requires l.token !in s.leases && l.session !in s.bySession && l.token !in s.effects && forall i | i in s.bySession :: s.bySession[i] != l.token
    ensures Restrict(AddLease(s, l), keys) == Seen(Restrict(s, keys), AddLease(Restrict(s, keys), l), l.binding.keyId, keys, AddLease(s, l))
  {
    hide GensOf, ByKeyOf, LeasesOf, SessionsOf, EffectsOf, AnchorsOf, PresignsOf, AttemptsOf, CutoversOf, TombsOf;
    LeasesPut(s.leases, l.token, l, keys);
    IndexesAdded(s, l, keys);
  }

  lemma SliceEndLease(s: State, t: Token, st: LeaseState, keys: set<string>)
    requires t in s.leases
    ensures s.leases[t].binding.keyId in keys ==> t in Restrict(s, keys).leases && Restrict(EndLease(s, t, st), keys) == EndLease(Restrict(s, keys), t, st)
    ensures s.leases[t].binding.keyId !in keys ==> Restrict(EndLease(s, t, st), keys) == Restrict(s, keys)
  {
    hide GensOf, ByKeyOf, LeasesOf, SessionsOf, EffectsOf, AnchorsOf, PresignsOf, AttemptsOf, CutoversOf, TombsOf;
    var l := s.leases[t].(state := st);
    LeasesPut(s.leases, t, l, keys);
    IndexesKept(s, s.effects, t, l, keys);
    var r := Restrict(s, keys);
    assert Restrict(EndLease(s, t, st), keys) == r.(leases := if l.binding.keyId in keys then r.leases[t := l] else r.leases);
    assert l.binding.keyId in keys ==> t in r.leases && r.leases[t] == s.leases[t];
  }

  lemma SliceEffect(s: State, t: Token, kind: EffectKind, keys: set<string>)
    requires t in s.leases
    ensures Restrict(s.(effects := s.effects[t := Effect(t, kind)]), keys)
         == if s.leases[t].binding.keyId in keys then Restrict(s, keys).(effects := Restrict(s, keys).effects[t := Effect(t, kind)]) else Restrict(s, keys)
  {
    hide GensOf, ByKeyOf, LeasesOf, SessionsOf, EffectsOf, AnchorsOf, PresignsOf, AttemptsOf, CutoversOf, TombsOf;
    EffectsPut(s.effects, s.leases, t, Effect(t, kind), keys);
  }

  lemma SliceEndLeaseWith(s: State, t: Token, st: LeaseState, kind: EffectKind, keys: set<string>)
    requires t in s.leases
    ensures s.leases[t].binding.keyId in keys ==> t in Restrict(s, keys).leases && Restrict(EndLeaseWith(s, t, st, kind), keys) == EndLeaseWith(Restrict(s, keys), t, st, kind)
    ensures s.leases[t].binding.keyId !in keys ==> Restrict(EndLeaseWith(s, t, st, kind), keys) == Restrict(s, keys)
  {
    hide Restrict;
    SliceEndLease(s, t, st, keys);
    SliceEffect(EndLease(s, t, st), t, kind, keys);
    assert EndLeaseWith(s, t, st, kind) == EndLease(s, t, st).(effects := EndLease(s, t, st).effects[t := Effect(t, kind)]);
  }

  lemma SliceInstall(s: State, g: Generation, keys: set<string>)
    ensures Restrict(InstallCurrent(s, g), keys) == Seen(Restrict(s, keys), InstallCurrent(Restrict(s, keys), g), g.binding.keyId, keys, s)
  {
    hide GensOf, ByKeyOf, LeasesOf, SessionsOf, EffectsOf, AnchorsOf, PresignsOf, AttemptsOf, CutoversOf, TombsOf;
    GensPut(s.gens, g.binding, g, keys);
    ByKeyPut(s.current, g.binding.keyId, g.binding, keys);
  }

  lemma SliceRetire(s: State, b: Binding, reason: string, keys: set<string>)
    requires PresignsValid(s.presigns, s.attempts, s.gens, s.current) && b in s.gens
    ensures b.keyId in keys ==> b in Restrict(s, keys).gens && Restrict(Retire(s, b, reason), keys) == Retire(Restrict(s, keys), b, reason)
    ensures b.keyId !in keys ==> Restrict(Retire(s, b, reason), keys) == Restrict(s, keys)
  {
    hide GensOf, ByKeyOf, LeasesOf, SessionsOf, EffectsOf, AnchorsOf, PresignsOf, AttemptsOf, CutoversOf, TombsOf, PresignsValid, BurnEpochPresigns;
    var g := s.gens[b].(status := RetiredGeneration, blob := [], metadata := []);
    GensPut(s.gens, b, g, keys);
    BurnLocal(s, b.keyId, b.epochId, reason, keys);
    var r := Restrict(s, keys);
    assert Restrict(Retire(s, b, reason), keys)
        == r.(gens := if b.keyId in keys then r.gens[b := g] else r.gens,
              presigns := if b.keyId in keys then BurnEpochPresigns(r.presigns, r.attempts, b.keyId, b.epochId, reason) else r.presigns);
    assert b.keyId in keys ==> b in r.gens && r.gens[b] == s.gens[b];
  }

  lemma SliceRaiseFence(s: State, f: Fence, keys: set<string>)
    requires f.token !in s.cutovers
    ensures Restrict(RaiseFence(s, f), keys) == Seen(Restrict(s, keys), RaiseFence(Restrict(s, keys), f), f.source.keyId, keys, RaiseFence(s, f))
  {
    hide GensOf, ByKeyOf, LeasesOf, SessionsOf, EffectsOf, AnchorsOf, PresignsOf, AttemptsOf, CutoversOf, TombsOf;
    CutoversPut(s.cutovers, f.token, Cutover(f, ActiveCutover, None, None, ""), keys);
    ByKeyPut(s.cutoverByKey, f.source.keyId, f.token, keys);
  }

  lemma SliceAnchor(s: State, t: Token, a: ReceiverAnchor, keys: set<string>)
    requires t in s.anchors ==> s.anchors[t].source.keyId == a.source.keyId
    ensures Restrict(s.(anchors := s.anchors[t := a]), keys)
         == if a.source.keyId in keys then Restrict(s, keys).(anchors := Restrict(s, keys).anchors[t := a]) else Restrict(s, keys)
  {
    hide GensOf, ByKeyOf, LeasesOf, SessionsOf, EffectsOf, AnchorsOf, PresignsOf, AttemptsOf, CutoversOf, TombsOf;
    AnchorsPut(s.anchors, t, a, keys);
  }

  lemma SliceDropAnchor(s: State, t: Token, keys: set<string>)
    ensures Restrict(s.(anchors := s.anchors - {t}), keys) == Restrict(s, keys).(anchors := Restrict(s, keys).anchors - {t})
    ensures (t in s.anchors ==> s.anchors[t].source.keyId !in keys) ==> Restrict(s.(anchors := s.anchors - {t}), keys) == Restrict(s, keys)
  {
    hide GensOf, ByKeyOf, LeasesOf, SessionsOf, EffectsOf, AnchorsOf, PresignsOf, AttemptsOf, CutoversOf, TombsOf;
    AnchorsDrop(s.anchors, t, keys);
  }

  lemma SliceDisable(s: State, k: string, d: DisabledRecord, keys: set<string>)
    ensures Restrict(s.(disabled := s.disabled[k := d]), keys)
         == if k in keys then Restrict(s, keys).(disabled := Restrict(s, keys).disabled[k := d]) else Restrict(s, keys)
  {
    hide GensOf, ByKeyOf, LeasesOf, SessionsOf, EffectsOf, AnchorsOf, PresignsOf, AttemptsOf, CutoversOf, TombsOf;
    ByKeyPut(s.disabled, k, d, keys);
  }

  lemma SlicePresign(s: State, id: string, p: Presign, keys: set<string>)
    requires id in s.presigns ==> s.presigns[id].binding.keyId == p.binding.keyId
    ensures Restrict(s.(presigns := s.presigns[id := p]), keys)
         == if p.binding.keyId in keys then Restrict(s, keys).(presigns := Restrict(s, keys).presigns[id := p]) else Restrict(s, keys)
  {
    hide GensOf, ByKeyOf, LeasesOf, SessionsOf, EffectsOf, AnchorsOf, PresignsOf, AttemptsOf, CutoversOf, TombsOf;
    PresignsPut(s.presigns, id, p, keys);
  }

  lemma SliceAttempt(s: State, id: string, a: Attempt, keys: set<string>)
    requires id in s.attempts ==> s.attempts[id].binding.keyId == a.binding.keyId
    ensures Restrict(s.(attempts := s.attempts[id := a]), keys)
         == if a.binding.keyId in keys then Restrict(s, keys).(attempts := Restrict(s, keys).attempts[id := a]) else Restrict(s, keys)
  {
    hide GensOf, ByKeyOf, LeasesOf, SessionsOf, EffectsOf, AnchorsOf, PresignsOf, AttemptsOf, CutoversOf, TombsOf;
    AttemptsPut(s.attempts, id, a, keys);
  }

  lemma SliceCutover(s: State, t: Token, c: Cutover, keys: set<string>)
    requires t in s.cutovers ==> s.cutovers[t].fence.source.keyId == c.fence.source.keyId
    ensures Restrict(s.(cutovers := s.cutovers[t := c]), keys)
         == if c.fence.source.keyId in keys then Restrict(s, keys).(cutovers := Restrict(s, keys).cutovers[t := c]) else Restrict(s, keys)
  {
    hide GensOf, ByKeyOf, LeasesOf, SessionsOf, EffectsOf, AnchorsOf, PresignsOf, AttemptsOf, CutoversOf, TombsOf;
    CutoversPut(s.cutovers, t, c, keys);
  }

  lemma SliceLift(s: State, k: string, keys: set<string>)
    ensures Restrict(s.(cutoverByKey := s.cutoverByKey - {k}), keys) == Restrict(s, keys).(cutoverByKey := Restrict(s, keys).cutoverByKey - {k})
    ensures k !in keys ==> Restrict(s.(cutoverByKey := s.cutoverByKey - {k}), keys) == Restrict(s, keys)
  {
    hide GensOf, ByKeyOf, LeasesOf, SessionsOf, EffectsOf, AnchorsOf, PresignsOf, AttemptsOf, CutoversOf, TombsOf;
    ByKeyPut(s.cutoverByKey, k, 0, keys);
  }

  lemma SliceUncurrent(s: State, k: string, keys: set<string>)
    ensures Restrict(s.(current := s.current - {k}), keys) == Restrict(s, keys).(current := Restrict(s, keys).current - {k})
    ensures k !in keys ==> Restrict(s.(current := s.current - {k}), keys) == Restrict(s, keys)
  {
    hide GensOf, ByKeyOf, LeasesOf, SessionsOf, EffectsOf, AnchorsOf, PresignsOf, AttemptsOf, CutoversOf, TombsOf;
    ByKeyPut(s.current, k, Binding("", "", 0), keys);
  }

  lemma RestrictFields(s: State, keys: set<string>)
    ensures Restrict(s, keys).gens == GensOf(s.gens, keys) && Restrict(s, keys).current == ByKeyOf(s.current, keys)
    ensures Restrict(s, keys).leases == LeasesOf(s.leases, keys) && Restrict(s, keys).bySession == SessionsOf(s.bySession, s.leases, keys)
    ensures Restrict(s, keys).effects == EffectsOf(s.effects, s.leases, keys) && Restrict(s, keys).disabled == ByKeyOf(s.disabled, keys)
    ensures Restrict(s, keys).anchors == AnchorsOf(s.anchors, keys) && Restrict(s, keys).presigns == PresignsOf(s.presigns, keys)
    ensures Restrict(s, keys).attempts == AttemptsOf(s.attempts, keys) && Restrict(s, keys).cutovers == CutoversOf(s.cutovers, keys)
    ensures Restrict(s, keys).cutoverByKey == ByKeyOf(s.cutoverByKey, keys) && Restrict(s, keys).tombs == TombsOf(s.tombs, keys)
    ensures Restrict(s, keys).nextLease == s.nextLease && Restrict(s, keys).nextCutover == s.nextCutover
  {
  }
}

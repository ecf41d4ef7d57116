/** A valid state restricted to lineages that no effect leads out of is valid. */
module LifecycleRestriction {
  import opened LifecycleRecords
  import opened LifecycleState
  import opened LifecycleInvariant
  import opened LifecycleInductive
  import opened LifecycleSlices
  import opened LifecycleLocality
  import opened LifecycleTheorems

  /** The lineage an effect's target belongs to is among `keys`. */
  predicate EffectClosed(e: Effect, keys: set<string>) {
    e.kind.HasTarget() ==> e.kind.target.keyId in keys
  }

  predicate Closed(s: State, keys: set<string>) {
    forall t | t in EffectsOf(s.effects, s.leases, keys) :: EffectClosed(s.effects[t], keys)
  }

  lemma CurrentLocal(s: State, keys: set<string>, b: Binding)
    requires b.keyId in keys
    ensures IsCurrentIn(GensOf(s.gens, keys), ByKeyOf(s.current, keys), b) <==> IsCurrentIn(s.gens, s.current, b)
  {
    hide GensOf, ByKeyOf;
  }

  lemma GenerationsRestricted(s: State, keys: set<string>)
    requires GenerationsValid(s.gens, s.current) && NamesUnique(s.gens)
    ensures GenerationsValid(GensOf(s.gens, keys), ByKeyOf(s.current, keys)) && NamesUnique(GensOf(s.gens, keys))
  {
    hide GensOf, ByKeyOf, ValidBinding;
    var gens, current := GensOf(s.gens, keys), ByKeyOf(s.current, keys);
    forall b | b in gens ensures GenerationOk(gens[b], b, current) {
      assert GenerationOk(s.gens[b], b, s.current);
    }
    forall k | k in current ensures current[k].keyId == k && IsCurrentIn(gens, current, current[k]) {
      CurrentLocal(s, keys, s.current[k]);
    }
  }

  lemma LeasesRestricted(s: State, keys: set<string>)
    requires LeasesValid(s.leases, s.bySession, s.nextLease)
    ensures LeasesValid(LeasesOf(s.leases, keys), SessionsOf(s.bySession, s.leases, keys), s.nextLease)
  {
    hide LeasesOf, SessionsOf, ValidLease;
    var leases, bySession := LeasesOf(s.leases, keys), SessionsOf(s.bySession, s.leases, keys);
    forall t | t in leases ensures LeaseOk(leases[t], t, bySession, s.nextLease) {
      assert LeaseOk(s.leases[t], t, s.bySession, s.nextLease);
    }
  }

  lemma ReceiverRestricted(s: State, keys: set<string>, t: Token)
    requires Inv(s) && t in s.anchors && t in s.leases && s.leases[t].binding.keyId in keys
    ensures ReceiverOk(s.leases[t], s.anchors[t], GensOf(s.gens, keys), ByKeyOf(s.current, keys), AttemptsOf(s.attempts, keys),
                       ByKeyOf(s.cutoverByKey, keys), TombsOf(s.tombs, keys))
  {
    hide Inv, GensOf, ByKeyOf, AttemptsOf, TombsOf, HasKeyGeneration, HasNonTerminalAttemptForKey;
    AnchorFact(s, t);
    GenerationGuards(s, keys, s.leases[t].binding.keyId);
    AttemptGuards(s, keys, s.leases[t].binding.keyId);
  }

  lemma HolderRestricted(s: State, keys: set<string>, t: Token)
    requires Inv(s) && t in s.leases && s.leases[t].binding.keyId in keys && s.leases[t].state.Active? && t !in s.anchors
    ensures HolderOk(s.leases[t], GensOf(s.gens, keys), ByKeyOf(s.current, keys))
  {
    hide GensOf, ByKeyOf, HasGenerationForKey, IsCurrentIn;
    assert HolderOk(s.leases[t], s.gens, s.current);
    GenerationGuards(s, keys, s.leases[t].binding.keyId);
    CurrentLocal(s, keys, s.leases[t].binding);
  }

  lemma HoldersRestricted(s: State, keys: set<string>)
    requires Inv(s)
    ensures HoldersValid(LeasesOf(s.leases, keys), AnchorsOf(s.anchors, keys), GensOf(s.gens, keys), ByKeyOf(s.current, keys),
                         AttemptsOf(s.attempts, keys), ByKeyOf(s.cutoverByKey, keys), TombsOf(s.tombs, keys))
  {
    hide Inv, LeasesOf, AnchorsOf, GensOf, ByKeyOf, AttemptsOf, TombsOf, ReceiverOk, HolderOk;
    var leases, anchors := LeasesOf(s.leases, keys), AnchorsOf(s.anchors, keys);
    forall t | t in anchors
      ensures t in leases && leases[t].state.Active?
              && ReceiverOk(leases[t], anchors[t], GensOf(s.gens, keys), ByKeyOf(s.current, keys), AttemptsOf(s.attempts, keys), ByKeyOf(s.cutoverByKey, keys), TombsOf(s.tombs, keys))
    {
      LocalAnchor(s, t, keys);
      AnchorFact(s, t);
      ReceiverRestricted(s, keys, t);
    }
    forall t | t in leases && leases[t].state.Active? && t !in anchors ensures HolderOk(leases[t], GensOf(s.gens, keys), ByKeyOf(s.current, keys)) {
      LocalAnchor(s, t, keys);
      HolderRestricted(s, keys, t);
    }
    forall t, u | t in leases && u in leases && Overlap(leases[t], leases[u]) ensures t == u { ExclusiveFact(s, t, u); }
  }

  lemma EffectRestricted(s: State, keys: set<string>, t: Token)
    requires Inv(s) && t in s.effects && t in s.leases && s.leases[t].binding.keyId in keys && EffectClosed(s.effects[t], keys)
    ensures EffectOk(s.effects[t], s.leases[t], PresignsOf(s.presigns, keys), CutoversOf(s.cutovers, keys), ByKeyOf(s.disabled, keys), GensOf(s.gens, keys))
    ensures PresignEffectStrong(s.effects[t], s.leases[t], PresignsOf(s.presigns, keys))
  {
    hide Inv, PresignsOf, CutoversOf, ByKeyOf, GensOf, ValidText, ValidBinding, EffectDigest;
    EffectFact(s, t);
  }

  lemma EffectsRestricted(s: State, keys: set<string>)
    requires Inv(s) && Closed(s, keys)
    ensures EffectsValid(EffectsOf(s.effects, s.leases, keys), LeasesOf(s.leases, keys), PresignsOf(s.presigns, keys), CutoversOf(s.cutovers, keys),
                         ByKeyOf(s.disabled, keys), GensOf(s.gens, keys))
    ensures EffectsStrong(EffectsOf(s.effects, s.leases, keys), LeasesOf(s.leases, keys), PresignsOf(s.presigns, keys))
  {
    hide Inv, EffectsOf, LeasesOf, PresignsOf, CutoversOf, ByKeyOf, GensOf, EffectOk, PresignEffectStrong, EffectClosed;
    forall t | t in EffectsOf(s.effects, s.leases, keys)
      ensures s.effects[t].leaseToken == t && !s.leases[t].state.Active?
      ensures EffectOk(s.effects[t], s.leases[t], PresignsOf(s.presigns, keys), CutoversOf(s.cutovers, keys), ByKeyOf(s.disabled, keys), GensOf(s.gens, keys))
      ensures PresignEffectStrong(s.effects[t], s.leases[t], PresignsOf(s.presigns, keys))
    {
      EffectFact(s, t);
      EffectRestricted(s, keys, t);
    }
  }

  lemma MarkerRestricted(s: State, keys: set<string>, k: string)
    requires Inv(s) && k in s.disabled && k in keys
    ensures DisabledOk(s.disabled[k], k, SessionsOf(s.bySession, s.leases, keys), EffectsOf(s.effects, s.leases, keys), TombsOf(s.tombs, keys))
    ensures MarkerOwned(s.disabled[k], k, SessionsOf(s.bySession, s.leases, keys), LeasesOf(s.leases, keys), TombsOf(s.tombs, keys))
  {
    hide SessionsOf, EffectsOf, TombsOf, LeasesOf, ValidText;
    assert DisabledOk(s.disabled[k], k, s.bySession, s.effects, s.tombs);
    assert MarkerOwned(s.disabled[k], k, s.bySession, s.leases, s.tombs);
    var i := s.disabled[k].session;
    if i in s.bySession { SessionFact(s, i); }
  }

  lemma DisabledRestricted(s: State, keys: set<string>)
    requires Inv(s)
    ensures DisabledValid(ByKeyOf(s.disabled, keys), SessionsOf(s.bySession, s.leases, keys), EffectsOf(s.effects, s.leases, keys), TombsOf(s.tombs, keys))
    ensures DisabledStrong(ByKeyOf(s.disabled, keys), SessionsOf(s.bySession, s.leases, keys), LeasesOf(s.leases, keys), TombsOf(s.tombs, keys))
  {
    assert DisabledStrong(s.disabled, s.bySession, s.leases, s.tombs);
    hide Inv, ByKeyOf, SessionsOf, EffectsOf, TombsOf, LeasesOf, DisabledOk, MarkerOwned;
    forall k | k in ByKeyOf(s.disabled, keys)
      ensures DisabledOk(s.disabled[k], k, SessionsOf(s.bySession, s.leases, keys), EffectsOf(s.effects, s.leases, keys), TombsOf(s.tombs, keys))
      ensures MarkerOwned(s.disabled[k], k, SessionsOf(s.bySession, s.leases, keys), LeasesOf(s.leases, keys), TombsOf(s.tombs, keys))
    {
      MarkerRestricted(s, keys, k);
    }
  }

  lemma PresignRestricted(s: State, keys: set<string>, id: string)
    requires Inv(s) && id in s.presigns && s.presigns[id].binding.keyId in keys
    ensures PresignOk(s.presigns[id], id, AttemptsOf(s.attempts, keys), GensOf(s.gens, keys), ByKeyOf(s.current, keys))
  {
    hide Inv, AttemptsOf, GensOf, ByKeyOf, ValidText, ValidBinding, IsCurrentIn;
    PresignFact(s, id);
    CurrentLocal(s, keys, s.presigns[id].binding);
  }

  lemma PresignsRestricted(s: State, keys: set<string>)
    requires Inv(s)
    ensures PresignsValid(PresignsOf(s.presigns, keys), AttemptsOf(s.attempts, keys), GensOf(s.gens, keys), ByKeyOf(s.current, keys))
    ensures MetadataKept(PresignsOf(s.presigns, keys))
  {
    assert PresignsValid(s.presigns, s.attempts, s.gens, s.current) && MetadataKept(s.presigns);
    hide Inv, PresignsOf, AttemptsOf, GensOf, ByKeyOf, PresignOk;
    var presigns := PresignsOf(s.presigns, keys);
    forall id | id in presigns ensures PresignOk(presigns[id], id, AttemptsOf(s.attempts, keys), GensOf(s.gens, keys), ByKeyOf(s.current, keys)) {
      PresignRestricted(s, keys, id);
    }
  }

  lemma AttemptRestricted(s: State, keys: set<string>, id: string)
    requires Inv(s) && id in s.attempts && s.attempts[id].binding.keyId in keys
    ensures AttemptOk(s.attempts[id], id, PresignsOf(s.presigns, keys), LeasesOf(s.leases, keys), SessionsOf(s.bySession, s.leases, keys),
                      GensOf(s.gens, keys), ByKeyOf(s.current, keys))
  {
    hide Inv, PresignsOf, LeasesOf, SessionsOf, GensOf, ByKeyOf, ValidText, ValidBinding, ValidIntent, ProgressOk, IsCurrentIn, PresignOk;
    AttemptFact(s, id);
    CurrentLocal(s, keys, s.attempts[id].binding);
  }

  lemma AttemptsRestricted(s: State, keys: set<string>)
    requires Inv(s)
    ensures AttemptsValid(AttemptsOf(s.attempts, keys), PresignsOf(s.presigns, keys), LeasesOf(s.leases, keys), SessionsOf(s.bySession, s.leases, keys),
                          GensOf(s.gens, keys), ByKeyOf(s.current, keys))
    ensures AttemptsStrong(AttemptsOf(s.attempts, keys))
  {
    assert AttemptsStrong(s.attempts);
    hide Inv, AttemptsOf, PresignsOf, LeasesOf, SessionsOf, GensOf, ByKeyOf, AttemptOk;
    var attempts := AttemptsOf(s.attempts, keys);
    forall id | id in attempts
      ensures AttemptOk(attempts[id], id, PresignsOf(s.presigns, keys), LeasesOf(s.leases, keys), SessionsOf(s.bySession, s.leases, keys),
                        GensOf(s.gens, keys), ByKeyOf(s.current, keys))
    {
      AttemptRestricted(s, keys, id);
    }
  }

  lemma CutoverRestricted(s: State, keys: set<string>, t: Token)
    requires Inv(s) && t in s.cutovers && s.cutovers[t].fence.source.keyId in keys
    ensures CutoverOk(s.cutovers[t], t, ByKeyOf(s.cutoverByKey, keys), s.nextCutover, GensOf(s.gens, keys), ByKeyOf(s.current, keys),
                      LeasesOf(s.leases, keys), AttemptsOf(s.attempts, keys))
    ensures s.cutovers[t].state.ActiveCutover? ==>
      !HasKeyGeneration(GensOf(s.gens, keys), TombsOf(s.tombs, keys), s.cutovers[t].fence.target.keyId, s.cutovers[t].fence.target.generation)
  {
    hide Inv, ByKeyOf, GensOf, LeasesOf, AttemptsOf, TombsOf, ValidText, ValidBinding, IsCurrentIn, HasKeyGeneration, HasActiveLeaseForKey, HasNonTerminalAttempt;
    CutoverFact(s, t);
    var k := s.cutovers[t].fence.source.keyId;
    CurrentLocal(s, keys, s.cutovers[t].fence.source);
    LeaseGuards(s, keys, k);
    AttemptGuards(s, keys, k);
    GenerationGuards(s, keys, k);
  }

  lemma CutoversRestricted(s: State, keys: set<string>)
    requires Inv(s)
    ensures CutoversValid(CutoversOf(s.cutovers, keys), ByKeyOf(s.cutoverByKey, keys), s.nextCutover, GensOf(s.gens, keys), ByKeyOf(s.current, keys),
                          LeasesOf(s.leases, keys), AttemptsOf(s.attempts, keys))
    ensures FencesStrong(CutoversOf(s.cutovers, keys), GensOf(s.gens, keys), TombsOf(s.tombs, keys))
  {
    hide Inv, CutoversOf, ByKeyOf, GensOf, LeasesOf, AttemptsOf, TombsOf, CutoverOk, HasKeyGeneration;
    var cutovers := CutoversOf(s.cutovers, keys);
    forall t | t in cutovers
      ensures CutoverOk(cutovers[t], t, ByKeyOf(s.cutoverByKey, keys), s.nextCutover, GensOf(s.gens, keys), ByKeyOf(s.current, keys),
                        LeasesOf(s.leases, keys), AttemptsOf(s.attempts, keys))
      ensures cutovers[t].state.ActiveCutover? ==>
        !HasKeyGeneration(GensOf(s.gens, keys), TombsOf(s.tombs, keys), cutovers[t].fence.target.keyId, cutovers[t].fence.target.generation)
    {
      CutoverRestricted(s, keys, t);
    }
    var byKey := ByKeyOf(s.cutoverByKey, keys);
    forall k | k in byKey ensures byKey[k] in cutovers && cutovers[byKey[k]].state.ActiveCutover? && cutovers[byKey[k]].fence.source.keyId == k {
      FenceFact(s, k);
    }
  }

  lemma TombRestricted(s: State, keys: set<string>, x: TombKey)
    requires Inv(s) && x in s.tombs && s.tombs[x].keyId in keys
    ensures TombOk(x, s.tombs[x].keyId, GensOf(s.gens, keys), SessionsOf(s.bySession, s.leases, keys), PresignsOf(s.presigns, keys),
                   AttemptsOf(s.attempts, keys), CutoversOf(s.cutovers, keys), s.nextCutover)
    ensures x.GenerationTomb? ==> GenerationNameTomb(x.binding.keyId, x.binding.generation) in TombsOf(s.tombs, keys)
    ensures ValidText(s.tombs[x].keyId) && s.tombs[x].state != ""
  {
    hide Strong, GenerationsValid, LeasesValid, HoldersValid, EffectsValid, DisabledValid, PresignsValid, AttemptsValid, CutoversValid;
    hide TombsOf, GensOf, SessionsOf, PresignsOf, AttemptsOf, CutoversOf, ValidText;
    TombFact(s, x);
    if x.GenerationTomb? { TombFact(s, GenerationNameTomb(x.binding.keyId, x.binding.generation)); }
  }

  lemma TombsRestricted(s: State, keys: set<string>)
    requires Inv(s)
    ensures TombsValid(TombsOf(s.tombs, keys))
    ensures TombsStrong(TombsOf(s.tombs, keys), GensOf(s.gens, keys), SessionsOf(s.bySession, s.leases, keys), PresignsOf(s.presigns, keys),
                        AttemptsOf(s.attempts, keys), CutoversOf(s.cutovers, keys), s.nextCutover)
  {
    hide Inv, TombsOf, GensOf, SessionsOf, PresignsOf, AttemptsOf, CutoversOf, ValidText, TombOk;
    var tombs := TombsOf(s.tombs, keys);
    forall x | x in tombs
      ensures TombOk(x, tombs[x].keyId, GensOf(s.gens, keys), SessionsOf(s.bySession, s.leases, keys), PresignsOf(s.presigns, keys),
                     AttemptsOf(s.attempts, keys), CutoversOf(s.cutovers, keys), s.nextCutover)
      ensures x.GenerationTomb? ==> GenerationNameTomb(x.binding.keyId, x.binding.generation) in tombs
      ensures ValidText(tombs[x].keyId) && tombs[x].state != ""
    {
      TombRestricted(s, keys, x);
    }
  }

  /** Lineages that no effect leads out of form a valid state by themselves. */
  lemma RestrictInv(s: State, keys: set<string>)
    requires Inv(s) && Closed(s, keys)
    ensures Inv(Restrict(s, keys))
  {
    hide GensOf, ByKeyOf, LeasesOf, SessionsOf, EffectsOf, AnchorsOf, PresignsOf, AttemptsOf, CutoversOf, TombsOf, Closed;
    hide GenerationsValid, LeasesValid, HoldersValid, EffectsValid, DisabledValid, PresignsValid, AttemptsValid, CutoversValid, TombsValid;
    hide NamesUnique, EffectsStrong, MetadataKept, DisabledStrong, AttemptsStrong, FencesStrong, TombsStrong;
    GenerationsRestricted(s, keys);
    LeasesRestricted(s, keys);
    HoldersRestricted(s, keys);
    EffectsRestricted(s, keys);
    DisabledRestricted(s, keys);
    PresignsRestricted(s, keys);
    AttemptsRestricted(s, keys);
    CutoversRestricted(s, keys);
    TombsRestricted(s, keys);
  }
}

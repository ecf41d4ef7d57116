/** The executable validator: loops with counters that decide exactly `Valid`. */
module LifecycleValidator {
  import opened Counting
  import opened LifecycleRecords
  import opened LifecycleState
  import opened LifecycleInvariant

  function CountOf(counts: map<string, nat>, k: string): nat { if k in counts then counts[k] else 0 }

  function Bumped(counts: map<string, nat>, k: string): map<string, nat> { counts[k := CountOf(counts, k) + 1] }

  // -------------------------------------------------------------- generations

  /** How often the current generation of a key has been met. */
  predicate CountsCurrent(counts: map<string, nat>, gens: map<Binding, Generation>, current: map<string, Binding>, met: set<Binding>, k: string) {
    CountOf(counts, k) == if k in current && current[k] in met && current[k] in gens && gens[current[k]].status.CurrentGeneration? then 1 else 0
  }

  lemma CountsStep(counts: map<string, nat>, after: map<string, nat>, gens: map<Binding, Generation>, current: map<string, Binding>, met: set<Binding>, b: Binding)
    requires (forall k | k in current :: current[k].keyId == k) && b in gens && b !in met && GenerationOk(gens[b], b, current)
    requires forall k :: CountsCurrent(counts, gens, current, met, k)
    requires after == if gens[b].status.CurrentGeneration? then Bumped(counts, b.keyId) else counts
    ensures forall k :: CountsCurrent(after, gens, current, met + {b}, k)
  {
    hide ValidBinding;
    assert CountsCurrent(counts, gens, current, met, b.keyId);
    forall k ensures CountsCurrent(after, gens, current, met + {b}, k) {
      assert CountsCurrent(counts, gens, current, met, k);
    }
  }

  method ValidateGenerations(gens: map<Binding, Generation>, current: map<string, Binding>) returns (ok: bool)
    ensures ok <==> GenerationsValid(gens, current)
  {
    hide ValidBinding;
    var todoKeys := current.Keys;
    while todoKeys != {}
      invariant todoKeys <= current.Keys
      invariant forall k | k in current && k !in todoKeys :: current[k].keyId == k
      decreases todoKeys
    {
      var k :| k in todoKeys;
      if current[k].keyId != k || !ValidBinding(current[k]) {
        assert current[k] in gens ==> (GenerationOk(gens[current[k]], current[k], current) ==> ValidBinding(current[k]));
        return false;
      }
      todoKeys := todoKeys - {k};
    }
    var counts: map<string, nat> := map[];
    var todo := gens.Keys;
    while todo != {}
      invariant todo <= gens.Keys
      invariant forall b | b in gens && b !in todo :: GenerationOk(gens[b], b, current)
      invariant forall k :: CountsCurrent(counts, gens, current, gens.Keys - todo, k)
      decreases todo
    {
      var b :| b in todo;
      if !GenerationOk(gens[b], b, current) { return false; }
      ghost var before, met := counts, gens.Keys - todo;
      if gens[b].status.CurrentGeneration? { counts := Bumped(counts, b.keyId); }
      todo := todo - {b};
      CountsStep(before, counts, gens, current, met, b);
      assert gens.Keys - todo == met + {b};
    }
    var left := current.Keys;
    while left != {}
      invariant left <= current.Keys
      invariant forall k | k in current && k !in left :: IsCurrentIn(gens, current, current[k])
      decreases left
    {
      var k :| k in left;
      assert CountsCurrent(counts, gens, current, gens.Keys - todo, k);
      if CountOf(counts, k) != 1 { return false; }
      left := left - {k};
    }
    return true;
  }

  // ------------------------------------------------------------------- leases

  function ActiveTokens(leases: map<Token, Lease>, met: set<Token>, k: string): set<Token> {
    set t | t in met && t in leases && ActiveOnKey(leases[t], k)
  }

  predicate LeaseSound(leases: map<Token, Lease>, anchors: map<Token, ReceiverAnchor>, bySession: map<SessionId, Token>, nextLease: nat,
                       gens: map<Binding, Generation>, current: map<string, Binding>, attempts: map<string, Attempt>,
                       cutoverByKey: map<string, Token>, tombs: map<TombKey, Tombstone>, t: Token)
    requires t in leases
  {
    && LeaseOk(leases[t], t, bySession, nextLease)
    && (t in anchors ==> leases[t].state.Active? && ReceiverOk(leases[t], anchors[t], gens, current, attempts, cutoverByKey, tombs))
    && (leases[t].state.Active? && t !in anchors ==> HolderOk(leases[t], gens, current))
  }

  lemma OneMore(leases: map<Token, Lease>, met: set<Token>, t: Token, k: string)
    requires t in leases && t !in met
    ensures |ActiveTokens(leases, met + {t}, k)| == |ActiveTokens(leases, met, k)| + (if ActiveOnKey(leases[t], k) then 1 else 0)
  {
    if ActiveOnKey(leases[t], k) {
      assert ActiveTokens(leases, met + {t}, k) == ActiveTokens(leases, met, k) + {t};
    } else {
      assert ActiveTokens(leases, met + {t}, k) == ActiveTokens(leases, met, k);
    }
  }

  lemma AloneIfOne(leases: map<Token, Lease>, k: string, t: Token, u: Token)
    requires t in leases && u in leases && ActiveOnKey(leases[t], k) && ActiveOnKey(leases[u], k)
    requires |ActiveTokens(leases, leases.Keys, k)| == 1
    ensures t == u
  {
    var active := ActiveTokens(leases, leases.Keys, k);
    if t != u {
      SubsetSize({t, u}, active);
      assert false;
    }
  }

  lemma OneIfAlone(leases: map<Token, Lease>, k: string, t: Token)
    requires ExclusiveAlone(leases) && t in leases && ActiveOnKey(leases[t], k) && ExclusiveKind(leases[t].kind)
    ensures |ActiveTokens(leases, leases.Keys, k)| == 1
  {
    var active := ActiveTokens(leases, leases.Keys, k);
    forall u | u in active ensures u == t { assert Overlap(leases[t], leases[u]); }
    assert active == {t};
  }

  /** What the scan knows about the leases it has met. */
  ghost predicate Counted(leases: map<Token, Lease>, met: set<Token>, counts: map<string, nat>) {
    forall k :: CountOf(counts, k) == |ActiveTokens(leases, met, k)|
  }

  predicate HasExclusive(leases: map<Token, Lease>, met: set<Token>, k: string) {
    exists t :: t in met && t in leases && ActiveOnKey(leases[t], k) && ExclusiveKind(leases[t].kind)
  }

  ghost predicate Exclusives(leases: map<Token, Lease>, met: set<Token>, exclusive: set<string>) {
    forall k :: k in exclusive <==> HasExclusive(leases, met, k)
  }

  ghost predicate Scanned(s: State, met: set<Token>, counts: map<string, nat>, exclusive: set<string>, anchored: nat) {
    Counted(s.leases, met, counts) && Exclusives(s.leases, met, exclusive) && anchored == |met * s.anchors.Keys|
  }

  lemma CountStep(leases: map<Token, Lease>, met: set<Token>, counts: map<string, nat>, t: Token)
    requires Counted(leases, met, counts) && t in leases && t !in met
    ensures leases[t].state.Active? ==> Counted(leases, met + {t}, Bumped(counts, leases[t].binding.keyId))
    ensures !leases[t].state.Active? ==> Counted(leases, met + {t}, counts)
  {
    hide ActiveTokens;
    forall k ensures |ActiveTokens(leases, met + {t}, k)| == |ActiveTokens(leases, met, k)| + (if ActiveOnKey(leases[t], k) then 1 else 0) {
      OneMore(leases, met, t, k);
    }
  }

  lemma ExclusiveStep(leases: map<Token, Lease>, met: set<Token>, exclusive: set<string>, t: Token)
    requires Exclusives(leases, met, exclusive) && t in leases && t !in met
    ensures Exclusives(leases, met + {t}, if leases[t].state.Active? && ExclusiveKind(leases[t].kind) then exclusive + {leases[t].binding.keyId} else exclusive)
  {
    forall k ensures HasExclusive(leases, met + {t}, k) <==> HasExclusive(leases, met, k) || (ActiveOnKey(leases[t], k) && ExclusiveKind(leases[t].kind)) {
      if ActiveOnKey(leases[t], k) && ExclusiveKind(leases[t].kind) { assert t in met + {t}; }
    }
  }

  lemma AnchorStep(s: State, met: set<Token>, t: Token)
    requires t !in met
    ensures |(met + {t}) * s.anchors.Keys| == |met * s.anchors.Keys| + (if t in s.anchors then 1 else 0)
  {
    assert (met + {t}) * s.anchors.Keys == if t in s.anchors then met * s.anchors.Keys + {t} else met * s.anchors.Keys;
  }

  lemma ScanStep(s: State, met: set<Token>, counts: map<string, nat>, exclusive: set<string>, anchored: nat, t: Token,
                 counts': map<string, nat>, exclusive': set<string>, anchored': nat)
    requires Scanned(s, met, counts, exclusive, anchored) && t in s.leases && t !in met
    requires counts' == if s.leases[t].state.Active? then Bumped(counts, s.leases[t].binding.keyId) else counts
    requires exclusive' == if s.leases[t].state.Active? && ExclusiveKind(s.leases[t].kind) then exclusive + {s.leases[t].binding.keyId} else exclusive
    requires anchored' == if t in s.anchors then anchored + 1 else anchored
    ensures Scanned(s, met + {t}, counts', exclusive', anchored')
  {
    hide Counted, Exclusives;
    CountStep(s.leases, met, counts, t);
    ExclusiveStep(s.leases, met, exclusive, t);
    AnchorStep(s, met, t);
  }

  lemma ScanStart(s: State)
    ensures Scanned(s, {}, map[], {}, 0)
  {
  }

  predicate Sound(s: State, t: Token)
    requires t in s.leases
  {
    LeaseSound(s.leases, s.anchors, s.bySession, s.nextLease, s.gens, s.current, s.attempts, s.cutoverByKey, s.tombs, t)
  }

  method ScanLeases(s: State) returns (ok: bool, counts: map<string, nat>, exclusive: set<string>, anchored: nat)
    ensures ok <==> forall t | t in s.leases :: Sound(s, t)
    ensures ok ==> Scanned(s, s.leases.Keys, counts, exclusive, anchored)
  {
    hide Sound, Scanned;
    counts, exclusive, anchored := map[], {}, 0;
    var todo := s.leases.Keys;
    ScanStart(s);
    assert s.leases.Keys - todo == {};
    while todo != {}
      invariant todo <= s.leases.Keys
      invariant forall t | t in s.leases && t !in todo :: Sound(s, t)
      invariant Scanned(s, s.leases.Keys - todo, counts, exclusive, anchored)
      decreases todo
    {
      var t :| t in todo;
      var l := s.leases[t];
      if !Sound(s, t) { return false, counts, exclusive, anchored; }
      ghost var met, c, e, a := s.leases.Keys - todo, counts, exclusive, anchored;
      if l.state.Active? {
        counts := Bumped(counts, l.binding.keyId);
        if ExclusiveKind(l.kind) { exclusive := exclusive + {l.binding.keyId}; }
      }
      if t in s.anchors { anchored := anchored + 1; }
      ScanStep(s, met, c, e, a, t, counts, exclusive, anchored);
      todo := todo - {t};
      assert s.leases.Keys - todo == met + {t};
    }
    assert s.leases.Keys - todo == s.leases.Keys;
    ok := true;
  }

  /** No key with exclusive work has a second active lease. */
  method CheckExclusive(s: State, counts: map<string, nat>, exclusive: set<string>, ghost anchored: nat) returns (ok: bool)
    requires Scanned(s, s.leases.Keys, counts, exclusive, anchored)
    ensures ok <==> ExclusiveAlone(s.leases)
  {
    var left := exclusive;
    while left != {}
      invariant left <= exclusive
      invariant forall k | k in exclusive && k !in left :: CountOf(counts, k) == 1
      decreases left
    {
      var k :| k in left;
      if CountOf(counts, k) != 1 {
        Crowded(s.leases, k);
        return false;
      }
      left := left - {k};
    }
    forall t, u | t in s.leases && u in s.leases && Overlap(s.leases[t], s.leases[u]) ensures t == u {
      var k := s.leases[t].binding.keyId;
      assert HasExclusive(s.leases, s.leases.Keys, k);
      AloneIfOne(s.leases, k, t, u);
    }
    return true;
  }

  lemma Crowded(leases: map<Token, Lease>, k: string)
    requires HasExclusive(leases, leases.Keys, k) && |ActiveTokens(leases, leases.Keys, k)| != 1
    ensures !ExclusiveAlone(leases)
  {
    if ExclusiveAlone(leases) {
      var t :| t in leases && ActiveOnKey(leases[t], k) && ExclusiveKind(leases[t].kind);
      OneIfAlone(leases, k, t);
      assert false;
    }
  }

  method ValidateLeases(s: State) returns (ok: bool)
    ensures ok <==> LeasesValid(s.leases, s.bySession, s.nextLease)
                    && HoldersValid(s.leases, s.anchors, s.gens, s.current, s.attempts, s.cutoverByKey, s.tombs)
  {
    hide LeasesValid, HoldersValid, Sound, ExclusiveAlone, Scanned;
    LeaseVerdict(s);
    if |s.leases| != |s.bySession| { return false; }
    var sound, counts, exclusive, anchored := ScanLeases(s);
    if !sound { return false; }
    AnchorSizes(s, counts, exclusive, anchored);
    if anchored != |s.anchors| { return false; }
    ok := CheckExclusive(s, counts, exclusive, anchored);
  }

  /** The four questions of the scan together decide the two sections. */
  lemma LeaseVerdict(s: State)
    ensures LeasesValid(s.leases, s.bySession, s.nextLease) && HoldersValid(s.leases, s.anchors, s.gens, s.current, s.attempts, s.cutoverByKey, s.tombs)
       <==> |s.leases| == |s.bySession| && (forall t | t in s.leases :: Sound(s, t)) && (forall t | t in s.anchors :: t in s.leases) && ExclusiveAlone(s.leases)
  {
    hide LeasesValid, HoldersValid, LeasesFound, ReceiversOk, OthersOk, Sound, ExclusiveAlone;
    IndexSizes(s.leases, s.bySession, s.nextLease);
    SoundLeases(s);
    HoldersSplit(s);
  }

  predicate LeasesFound(leases: map<Token, Lease>, bySession: map<SessionId, Token>, nextLease: nat) {
    forall t | t in leases :: LeaseOk(leases[t], t, bySession, nextLease)
  }

  predicate ReceiversOk(s: State) {
    forall t | t in s.leases && t in s.anchors ::
      s.leases[t].state.Active? && ReceiverOk(s.leases[t], s.anchors[t], s.gens, s.current, s.attempts, s.cutoverByKey, s.tombs)
  }

  predicate OthersOk(s: State) {
    forall t | t in s.leases :: s.leases[t].state.Active? && t !in s.anchors ==> HolderOk(s.leases[t], s.gens, s.current)
  }

  lemma HoldersSplit(s: State)
    ensures HoldersValid(s.leases, s.anchors, s.gens, s.current, s.attempts, s.cutoverByKey, s.tombs)
       <==> (forall t | t in s.anchors :: t in s.leases) && ReceiversOk(s) && OthersOk(s) && ExclusiveAlone(s.leases)
  {
    hide ReceiverOk, HolderOk, ExclusiveAlone;
    if (forall t | t in s.anchors :: t in s.leases) && ReceiversOk(s) && OthersOk(s) && ExclusiveAlone(s.leases) {
      HoldersJoined(s);
    }
  }

  lemma HoldersJoined(s: State)
    requires (forall t | t in s.anchors :: t in s.leases) && ReceiversOk(s) && OthersOk(s) && ExclusiveAlone(s.leases)
    ensures HoldersValid(s.leases, s.anchors, s.gens, s.current, s.attempts, s.cutoverByKey, s.tombs)
  {
    hide ReceiverOk, HolderOk, ExclusiveAlone;
  }

  lemma SoundLeases(s: State)
    ensures (forall t | t in s.leases :: Sound(s, t)) <==> LeasesFound(s.leases, s.bySession, s.nextLease) && ReceiversOk(s) && OthersOk(s)
  {
    hide ReceiverOk, HolderOk, LeaseOk;
    if forall t | t in s.leases :: Sound(s, t) {
      forall t | t in s.leases ensures LeaseOk(s.leases[t], t, s.bySession, s.nextLease) { assert Sound(s, t); }
      forall t | t in s.leases && t in s.anchors
        ensures s.leases[t].state.Active? && ReceiverOk(s.leases[t], s.anchors[t], s.gens, s.current, s.attempts, s.cutoverByKey, s.tombs)
      {
        assert Sound(s, t);
      }
      forall t | t in s.leases && s.leases[t].state.Active? && t !in s.anchors ensures HolderOk(s.leases[t], s.gens, s.current) { assert Sound(s, t); }
    }
  }

  /** Counting the anchored leases finds every anchor without a lease. */
  lemma AnchorSizes(s: State, counts: map<string, nat>, exclusive: set<string>, anchored: nat)
    requires Scanned(s, s.leases.Keys, counts, exclusive, anchored)
    ensures anchored == |s.anchors| <==> forall t | t in s.anchors :: t in s.leases
  {
    if anchored == |s.anchors| {
      SubsetSize(s.leases.Keys * s.anchors.Keys, s.anchors.Keys);
      forall t | t in s.anchors ensures t in s.leases { assert t in s.leases.Keys * s.anchors.Keys; }
    }
    if forall t | t in s.anchors :: t in s.leases {
      assert s.leases.Keys * s.anchors.Keys == s.anchors.Keys;
    }
  }

  function Sessions(leases: map<Token, Lease>, ts: set<Token>): (r: set<SessionId>)
    requires ts <= leases.Keys
    ensures forall i :: i in r <==> exists t :: t in ts && leases[t].session == i
  {
    set t | t in ts :: leases[t].session
  }

  /** When every lease is found under its session, the index holds nothing else
      exactly if it has as many entries as there are leases. */
  lemma IndexSizes(leases: map<Token, Lease>, bySession: map<SessionId, Token>, nextLease: nat)
    ensures LeasesValid(leases, bySession, nextLease) <==> LeasesFound(leases, bySession, nextLease) && |leases| == |bySession|
  {
    hide ValidLease;
    if LeasesFound(leases, bySession, nextLease) {
      ImageSize(leases, bySession, nextLease, leases.Keys);
      var sessions := Sessions(leases, leases.Keys);
      assert sessions <= bySession.Keys;
      if |leases| == |bySession| {
        SubsetSize(sessions, bySession.Keys);
        forall i | i in bySession ensures bySession[i] in leases && leases[bySession[i]].session == i { assert i in sessions; }
      }
      if LeasesValid(leases, bySession, nextLease) {
        forall i | i in bySession ensures i in sessions { assert leases[bySession[i]].session == i; }
        assert sessions == bySession.Keys;
      }
    }
  }

  lemma {:induction false} ImageSize(leases: map<Token, Lease>, bySession: map<SessionId, Token>, nextLease: nat, ts: set<Token>)
    requires LeasesFound(leases, bySession, nextLease) && ts <= leases.Keys
    ensures |Sessions(leases, ts)| == |ts|
    decreases |ts|
  {
    hide ValidLease;
    if ts == {} {
      assert Sessions(leases, ts) == {};
    } else {
      var t :| t in ts;
      ImageSize(leases, bySession, nextLease, ts - {t});
      assert Sessions(leases, ts) == Sessions(leases, ts - {t}) + {leases[t].session};
    }
  }

  // ---------------------------------------------------------- record by record

  method ValidateEffects(s: State) returns (ok: bool)
    ensures ok <==> EffectsValid(s.effects, s.leases, s.presigns, s.cutovers, s.disabled, s.gens)
  {
    hide EffectOk;
    var todo := s.effects.Keys;
    while todo != {}
      invariant todo <= s.effects.Keys
      invariant forall t | t in s.effects && t !in todo ::
                  && s.effects[t].leaseToken == t && t in s.leases && !s.leases[t].state.Active?
                  && EffectOk(s.effects[t], s.leases[t], s.presigns, s.cutovers, s.disabled, s.gens)
      decreases todo
    {
      var t :| t in todo;
      if s.effects[t].leaseToken != t || t !in s.leases || s.leases[t].state.Active? { return false; }
      if !EffectOk(s.effects[t], s.leases[t], s.presigns, s.cutovers, s.disabled, s.gens) { return false; }
      todo := todo - {t};
    }
    return true;
  }

  method ValidateDisabled(s: State) returns (ok: bool)
    ensures ok <==> DisabledValid(s.disabled, s.bySession, s.effects, s.tombs)
  {
    hide DisabledOk;
    var todo := s.disabled.Keys;
    while todo != {}
      invariant todo <= s.disabled.Keys
      invariant forall k | k in s.disabled && k !in todo :: DisabledOk(s.disabled[k], k, s.bySession, s.effects, s.tombs)
      decreases todo
    {
      var k :| k in todo;
      if !DisabledOk(s.disabled[k], k, s.bySession, s.effects, s.tombs) { return false; }
      todo := todo - {k};
    }
    return true;
  }

  /** Each artifact is owned by the first presign met with it. */
  method ValidatePresigns(s: State) returns (ok: bool)
    ensures ok <==> PresignsValid(s.presigns, s.attempts, s.gens, s.current)
  {
    hide PresignOk;
    var owners: map<Digest, string> := map[];
    var todo := s.presigns.Keys;
    while todo != {}
      invariant todo <= s.presigns.Keys
      invariant forall id | id in s.presigns && id !in todo ::
                  && PresignOk(s.presigns[id], id, s.attempts, s.gens, s.current)
                  && s.presigns[id].artifact in owners && owners[s.presigns[id].artifact] == id
      invariant forall d | d in owners :: owners[d] in s.presigns && owners[d] !in todo && s.presigns[owners[d]].artifact == d
      decreases todo
    {
      var id :| id in todo;
      var p := s.presigns[id];
      if p.artifact in owners && owners[p.artifact] != id { return false; }
      if !PresignOk(p, id, s.attempts, s.gens, s.current) { return false; }
      owners := owners[p.artifact := id];
      todo := todo - {id};
    }
    return true;
  }

  method ValidateAttempts(s: State) returns (ok: bool)
    ensures ok <==> AttemptsValid(s.attempts, s.presigns, s.leases, s.bySession, s.gens, s.current)
  {
    hide AttemptOk;
    var todo := s.attempts.Keys;
    while todo != {}
      invariant todo <= s.attempts.Keys
      invariant forall id | id in s.attempts && id !in todo :: AttemptOk(s.attempts[id], id, s.presigns, s.leases, s.bySession, s.gens, s.current)
      decreases todo
    {
      var id :| id in todo;
      if !AttemptOk(s.attempts[id], id, s.presigns, s.leases, s.bySession, s.gens, s.current) { return false; }
      todo := todo - {id};
    }
    return true;
  }

  method ValidateTombs(s: State) returns (ok: bool)
    ensures ok <==> TombsValid(s.tombs)
  {
    hide ValidText;
    var todo := s.tombs.Keys;
    while todo != {}
      invariant todo <= s.tombs.Keys
      invariant forall x | x in s.tombs && x !in todo :: ValidText(s.tombs[x].keyId) && s.tombs[x].state != ""
      decreases todo
    {
      var x :| x in todo;
      if !ValidText(s.tombs[x].keyId) || s.tombs[x].state == "" { return false; }
      todo := todo - {x};
    }
    return true;
  }

  // ----------------------------------------------------------------- cutovers

  predicate CutoverSound(s: State, t: Token)
    requires t in s.cutovers
  {
    CutoverOk(s.cutovers[t], t, s.cutoverByKey, s.nextCutover, s.gens, s.current, s.leases, s.attempts)
  }

  /** The fence index leads this key to an active cutover of it. */
  predicate Fences(s: State, k: string) {
    k in s.cutoverByKey && s.cutoverByKey[k] in s.cutovers && s.cutovers[s.cutoverByKey[k]].state.ActiveCutover?
    && s.cutovers[s.cutoverByKey[k]].fence.source.keyId == k
  }

  /** Counting the active cutovers finds every stale entry of the fence index. */
  method ValidateCutovers(s: State) returns (ok: bool)
    ensures ok <==> CutoversValid(s.cutovers, s.cutoverByKey, s.nextCutover, s.gens, s.current, s.leases, s.attempts)
  {
    hide CutoverSound, CutoversValid;
    CutoversSplit(s);
    var active := 0;
    ghost var fenced: set<string> := {};
    var todo := s.cutovers.Keys;
    while todo != {}
      invariant todo <= s.cutovers.Keys
      invariant forall t | t in s.cutovers && t !in todo :: CutoverSound(s, t)
      invariant forall k | k in fenced :: Fences(s, k) && s.cutoverByKey[k] !in todo
      invariant forall t | t in s.cutovers && t !in todo && s.cutovers[t].state.ActiveCutover? :: s.cutovers[t].fence.source.keyId in fenced
      invariant |fenced| == active
      decreases todo
    {
      var t :| t in todo;
      var c := s.cutovers[t];
      if !CutoverSound(s, t) { return false; }
      if c.state.ActiveCutover? {
        SoundFence(s, t);
        assert c.fence.source.keyId !in fenced;
        active := active + 1;
        fenced := fenced + {c.fence.source.keyId};
      }
      todo := todo - {t};
    }
    FenceSizes(s, fenced);
    return active == |s.cutoverByKey|;
  }

  lemma FenceSizes(s: State, fenced: set<string>)
    requires forall k | k in fenced :: Fences(s, k)
    requires forall t | t in s.cutovers && s.cutovers[t].state.ActiveCutover? :: s.cutovers[t].fence.source.keyId in fenced
    ensures |fenced| == |s.cutoverByKey| <==> forall k | k in s.cutoverByKey :: Fences(s, k)
  {
    assert fenced <= s.cutoverByKey.Keys;
    if |fenced| == |s.cutoverByKey| { SubsetSize(fenced, s.cutoverByKey.Keys); }
    if forall k | k in s.cutoverByKey :: Fences(s, k) { assert fenced == s.cutoverByKey.Keys; }
  }

  lemma SoundFence(s: State, t: Token)
    requires t in s.cutovers && CutoverSound(s, t) && s.cutovers[t].state.ActiveCutover?
    ensures Fences(s, s.cutovers[t].fence.source.keyId) && s.cutoverByKey[s.cutovers[t].fence.source.keyId] == t
  {
  }

  lemma CutoversSplit(s: State)
    ensures CutoversValid(s.cutovers, s.cutoverByKey, s.nextCutover, s.gens, s.current, s.leases, s.attempts)
       <==> (forall t | t in s.cutovers :: CutoverSound(s, t)) && (forall k | k in s.cutoverByKey :: Fences(s, k))
  {
    hide CutoverOk;
  }

  /** The validator accepts a state exactly when it is valid. */
  method ValidateState(s: State) returns (ok: bool)
    ensures ok <==> Valid(s)
  {
    hide GenerationsValid, LeasesValid, HoldersValid, EffectsValid, DisabledValid, PresignsValid, AttemptsValid, CutoversValid, TombsValid;
    ok := ValidateGenerations(s.gens, s.current);
    if !ok { return; }
    ok := ValidateLeases(s);
    if !ok { return; }
    ok := ValidateEffects(s);
    if !ok { return; }
    ok := ValidateDisabled(s);
    if !ok { return; }
    ok := ValidatePresigns(s);
    if !ok { return; }
    ok := ValidateAttempts(s);
    if !ok { return; }
    ok := ValidateCutovers(s);
    if !ok { return; }
    ok := ValidateTombs(s);
  }
}

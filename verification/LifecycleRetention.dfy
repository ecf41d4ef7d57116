/** Which records compaction retains: of each pass, the most recent candidates. */
module LifecycleRetention {
  import opened LifecycleRecords
  import opened LifecycleState
  import opened LifecycleInvariant
  import opened LifecycleCompaction
  import opened LifecycleCompactionTheorem

  /** `keep` are `retain` of the candidates, none of them older than one let go. */
  predicate TopBy<T>(keep: set<T>, candidates: set<T>, rank: T -> nat, retain: nat) {
    && keep <= candidates
    && |keep| == (if retain <= |candidates| then retain else |candidates|)
    && forall x, y | x in keep && y in candidates && y !in keep :: rank(x) >= rank(y)
  }

  /** The newest of a non-empty set. */
  method Newest<T(==)>(candidates: set<T>, rank: T -> nat) returns (best: T)
    requires candidates != {}
    ensures best in candidates && forall y | y in candidates :: rank(best) >= rank(y)
  {
    best :| best in candidates;
    var todo := candidates - {best};
    while todo != {}
      invariant best in candidates && todo <= candidates
      invariant forall y | y in candidates && y !in todo :: rank(best) >= rank(y)
      decreases todo
    {
      var y :| y in todo;
      todo := todo - {y};
      if rank(y) > rank(best) { best := y; }
    }
  }

  /** The `retain` newest candidates, or all of them. */
  method Top<T(==)>(candidates: set<T>, rank: T -> nat, retain: nat) returns (keep: set<T>)
    ensures TopBy(keep, candidates, rank, retain)
  {
    keep := {};
    var rest := candidates;
    while |keep| < retain && rest != {}
      invariant keep <= candidates && rest == candidates - keep && |keep| <= retain
      invariant forall x, y | x in keep && y in rest :: rank(x) >= rank(y)
      decreases rest
    {
      var best := Newest(rest, rank);
      keep := keep + {best};
      rest := rest - {best};
    }
    if rest == {} {
      assert keep == candidates;
    } else {
      assert keep + rest == candidates;
    }
  }

  lemma TopSame<T>(keep: set<T>, candidates: set<T>, rank: T -> nat, other: T -> nat, retain: nat)
    requires TopBy(keep, candidates, rank, retain) && forall x | x in candidates :: rank(x) == other(x)
    ensures TopBy(keep, candidates, other, retain)
  {
  }

  // ------------------------------------------------------------------- orders

  predicate Largest(ts: set<nat>, t: nat) {
    (t == 0 || t in ts) && forall u | u in ts :: u <= t
  }

  /** The largest of a set of tokens, zero if it is empty. */
  ghost function Maximum(ts: set<nat>): (t: nat)
    ensures Largest(ts, t)
    decreases |ts|
  {
    if ts == {} then 0
    else
      var x :| x in ts;
      var rest := Maximum(ts - {x});
      assert forall u | u in ts :: u == x || u in ts - {x};
      if x >= rest then x else rest
  }

  predicate ForPresign(e: Effect, id: string) { e.kind.PresignEffect? && e.kind.presignId == id }

  predicate ForTarget(e: Effect, b: Binding) { e.kind.HasTarget() && e.kind.target == b }

  function PresignTokens(effects: map<Token, Effect>, id: string): set<nat> { set t | t in effects && ForPresign(effects[t], id) }

  function TargetTokens(effects: map<Token, Effect>, b: Binding): set<nat> { set t | t in effects && ForTarget(effects[t], b) }

  function SessionOrder(s: State): string -> nat {
    id => if id in s.attempts && s.attempts[id].intent.session in s.bySession then s.bySession[s.attempts[id].intent.session] else 0
  }

  ghost function PresignOrder(s: State): string -> nat { id => Maximum(PresignTokens(s.effects, id)) }

  ghost function GenerationOrder(s: State): Binding -> nat { b => Maximum(TargetTokens(s.effects, b)) }

  function TokenOrder(): Token -> nat { t => t }

  method LargestOf(ts: set<nat>) returns (t: nat)
    ensures t == Maximum(ts)
  {
    t := 0;
    var todo := ts;
    while todo != {}
      invariant todo <= ts
      invariant (t == 0 || t in ts) && forall u | u in ts && u !in todo :: u <= t
      decreases todo
    {
      var u :| u in todo;
      todo := todo - {u};
      if u > t { t := u; }
    }
    assert Largest(ts, t) && Largest(ts, Maximum(ts));
  }

  // --------------------------------------------------------------- candidates

  function AttemptCandidates(s: State, keyId: string): set<string> { set id | id in s.attempts && AttemptCandidate(s, keyId, id) }

  function PresignCandidates(s: State, keyId: string): set<string> { set id | id in s.presigns && LifecycleCompaction.PresignCandidate(s, keyId, id) }

  function LeaseCandidates(s: State, keyId: string): set<Token> { set t | t in s.leases && LeaseCandidate(s, keyId, t) }

  function CutoverCandidates(s: State, keyId: string): set<Token> { set c | c in s.cutovers && CutoverCandidate(s, keyId, c) }

  function GenerationCandidates(s: State, keyId: string): set<Binding> { set b | b in s.gens && GenerationCandidate(s, keyId, b) }

  /** Every pass keeps its most recent candidates. */
  ghost predicate Retains(s: State, keyId: string, keep: Retained, retain: nat) {
    var s1 := CompactAttempts(s, keyId, keep.attempts);
    var s2 := CompactPresigns(s1, keyId, keep.presigns);
    var s3 := CompactLeases(s2, keyId, keep.leases);
    var s4 := CompactCutovers(s3, keyId, keep.cutovers);
    && TopBy(keep.attempts, AttemptCandidates(s, keyId), SessionOrder(s), retain)
    && TopBy(keep.presigns, PresignCandidates(s1, keyId), PresignOrder(s1), retain)
    && TopBy(keep.leases, LeaseCandidates(s2, keyId), TokenOrder(), retain)
    && TopBy(keep.cutovers, CutoverCandidates(s3, keyId), TokenOrder(), retain)
    && TopBy(keep.gens, GenerationCandidates(s4, keyId), GenerationOrder(s), retain)
  }

  // ----------------------------------------------------------------- the passes

  method PresignOrders(effects: map<Token, Effect>, candidates: set<string>) returns (orders: map<string, nat>)
    ensures forall id | id in candidates :: id in orders && orders[id] == Maximum(PresignTokens(effects, id))
  {
    orders := map[];
    var todo := candidates;
    while todo != {}
      invariant todo <= candidates
      invariant forall id | id in candidates && id !in todo :: id in orders && orders[id] == Maximum(PresignTokens(effects, id))
      decreases todo
    {
      var id :| id in todo;
      todo := todo - {id};
      var order := LargestOf(PresignTokens(effects, id));
      orders := orders[id := order];
    }
  }

  method GenerationOrders(effects: map<Token, Effect>, candidates: set<Binding>) returns (orders: map<Binding, nat>)
    ensures forall b | b in candidates :: b in orders && orders[b] == Maximum(TargetTokens(effects, b))
  {
    orders := map[];
    var todo := candidates;
    while todo != {}
      invariant todo <= candidates
      invariant forall b | b in candidates && b !in todo :: b in orders && orders[b] == Maximum(TargetTokens(effects, b))
      decreases todo
    {
      var b :| b in todo;
      todo := todo - {b};
      var order := LargestOf(TargetTokens(effects, b));
      orders := orders[b := order];
    }
  }

  /** All five passes: terminal attempts with their presigns, unlinked burned
      presigns, terminal leases, terminal cutovers, retired generations. */
  method Compact(s: State, keyId: string, retain: nat) returns (out: State, ghost keep: Retained)
    ensures Retains(s, keyId, keep, retain) && out == Compacted(s, keyId, keep)
    ensures retain == 0 ==> out == Compacted(s, keyId, RetainNone)
  {
    hide CompactAttempts, CompactPresigns, CompactLeases, CompactCutovers, CompactGenerations, TopBy;
    hide AttemptCandidates, PresignCandidates, LeaseCandidates, CutoverCandidates, GenerationCandidates;
    var attempts := Top(AttemptCandidates(s, keyId), SessionOrder(s), retain);
    out := CompactAttempts(s, keyId, attempts);
    var burned := PresignCandidates(out, keyId);
    var orders := PresignOrders(out.effects, burned);
    var rank: string -> nat := id => if id in orders then orders[id] else 0;
    var presigns := Top(burned, rank, retain);
    TopSame(presigns, burned, rank, PresignOrder(out), retain);
    out := CompactPresigns(out, keyId, presigns);
    var leases := Top(LeaseCandidates(out, keyId), TokenOrder(), retain);
    out := CompactLeases(out, keyId, leases);
    var cutovers := Top(CutoverCandidates(out, keyId), TokenOrder(), retain);
    out := CompactCutovers(out, keyId, cutovers);
    var retired := GenerationCandidates(out, keyId);
    var targets := GenerationOrders(s.effects, retired);
    var age: Binding -> nat := b => if b in targets then targets[b] else 0;
    var gens := Top(retired, age, retain);
    TopSame(gens, retired, age, GenerationOrder(s), retain);
    out := CompactGenerations(out, keyId, gens);
    keep := Retained(attempts, presigns, leases, cutovers, gens);
    if retain == 0 { RetainsNone(s, keyId, keep); }
  }

  /** Asked to retain none, every pass retains none. */
  lemma RetainsNone(s: State, keyId: string, keep: Retained)
    requires Retains(s, keyId, keep, 0)
    ensures keep == RetainNone
  {
  }

  // ------------------------------------------------------- when it is accepted

  /** A retained lease is one whose presign, if it produced one, goes. */
  predicate PresignLeaseKept(s: State, keep: Retained, t: Token) {
    t in keep.leases && t in s.effects && s.effects[t].kind.PresignEffect?
  }

  /** A retained committed cutover has lost a generation. */
  predicate CutoverBroken(s: State, keyId: string, keep: Retained, c: Token) {
    && c in keep.cutovers && c in s.cutovers && s.cutovers[c].state.CommittedCutover?
    && !(GenerationStays(s, keyId, keep, s.cutovers[c].fence.source) && GenerationStays(s, keyId, keep, s.cutovers[c].fence.target))
  }

  lemma KeptLeaseCandidate(s: State, keyId: string, keep: Retained, retain: nat, t: Token)
    requires Inv(s) && Retains(s, keyId, keep, retain) && t in keep.leases
    ensures LeaseDangles(s, keyId, keep, t) <==> PresignLeaseKept(s, keep, t)
  {
    hide Inv, PresignStays, CompactAttempts, CompactPresigns, CompactLeases, CompactCutovers;
    var s2 := AfterPresigns(s, keyId, keep);
    assert t in LeaseCandidates(s2, keyId) && LeaseCandidate(s2, keyId, t);
    PassesKeepLeases(s, keyId, keep);
    ArtifactParts(s);
    if t in s.effects && s.effects[t].kind.PresignEffect? { PresignsStay(s, keyId, keep, s.effects[t].kind.presignId); }
  }

  lemma KeptCutoverCandidate(s: State, keyId: string, keep: Retained, retain: nat, c: Token)
    requires Retains(s, keyId, keep, retain) && c in keep.cutovers
    ensures CutoverDangles(s, keyId, keep, c) <==> CutoverBroken(s, keyId, keep, c)
  {
    hide GenerationStays, CompactAttempts, CompactPresigns, CompactLeases, CompactCutovers, CutoverReferenced;
    var s3 := AfterLeases(s, keyId, keep);
    assert c in CutoverCandidates(s3, keyId) && CutoverCandidate(s3, keyId, c);
    LaterPasses(s, keyId, keep);
  }

  /** Compaction that retains the newest of each kind is accepted exactly when none of
      the leases it retains produced a presign, and none of the cutovers it retains
      has a generation that goes. */
  lemma RetentionValidIff(s: State, keyId: string, keep: Retained, retain: nat)
    requires Inv(s) && ValidText(keyId) && Retains(s, keyId, keep, retain)
    ensures Valid(Compacted(s, keyId, keep)) <==>
              && (forall t | t in keep.leases :: !PresignLeaseKept(s, keep, t))
              && (forall c | c in keep.cutovers :: !CutoverBroken(s, keyId, keep, c))
  {
    hide Inv, Valid, Compacted, Retains, ValidText, PresignLeaseKept, CutoverBroken, LeaseDangles, CutoverDangles;
    CompactionValidIff(s, keyId, keep);
    forall t | t in keep.leases ensures LeaseDangles(s, keyId, keep, t) <==> PresignLeaseKept(s, keep, t) { KeptLeaseCandidate(s, keyId, keep, retain, t); }
    forall c | c in keep.cutovers ensures CutoverDangles(s, keyId, keep, c) <==> CutoverBroken(s, keyId, keep, c) { KeptCutoverCandidate(s, keyId, keep, retain, c); }
  }
}

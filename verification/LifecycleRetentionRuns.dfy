/** Two runs after which compaction that retains one record of each kind is refused:
    one for each way a retained record can be left with a dangling reference. */
module LifecycleRetentionRuns {
  import opened Options
  import opened LifecycleRecords
  import opened LifecycleState
  import opened LifecycleOps
  import opened LifecycleInvariant
  import opened LifecycleCompaction
  import opened LifecycleCompactionTheorem
  import opened LifecycleRuns
  import opened LifecycleRetention

  lemma AfterOne(run: seq<Event>, op: Op)
    ensures After(run + [Client(op)]) == Apply(After(run), op).state
  {
    assert (run + [Client(op)])[..|run|] == run;
  }

  // ------------------------------------------- a lease kept without its presign

  /** Two presigns of one epoch, both burned, each with the lease it came from. */
  function TwoBurned(b: Binding, p: string, q: string, reason: string): State {
    Empty.(
      gens := map[b := Generation(b, [1], [], CurrentGeneration)],
      current := map[b.keyId := b],
      leases := map[1 := Lease(1, b, Presigning, 1, Completed), 2 := Lease(2, b, Presigning, 2, Completed)],
      bySession := map[1 := 1, 2 := 2],
      effects := map[1 := Effect(1, PresignEffect(p, EffectDigest(PresignLabel, b, p, [1], [1]))),
                     2 := Effect(2, PresignEffect(q, EffectDigest(PresignLabel, b, q, [1], [2])))],
      presigns := map[p := Presign(b, [], [], Sha256([1]), BurnedPresign, "", reason),
                      q := Presign(b, [], [], Sha256([2]), BurnedPresign, "", reason)],
      nextLease := 2)
  }

  function KeepLast(q: string): Retained { Retained({}, {q}, {1}, {}, {}) }

  /** Install a generation, then produce two presigns and burn both. */
  function TwoBurnedRun(b: Binding, p: string, q: string, reason: string): seq<Event> {
    [Client(OpInstallInitial(b, [1], []))]
    + [Client(OpAcquireLease(b, Presigning, 1))] + [Client(OpCommitPresign(Lease(1, b, Presigning, 1, Active), p, [1], [1]))]
    + [Client(OpAcquireLease(b, Presigning, 2))] + [Client(OpCommitPresign(Lease(2, b, Presigning, 2, Active), q, [1], [2]))]
    + [Client(OpBurnPresign(b, p, reason))] + [Client(OpBurnPresign(b, q, reason))]
  }

  function Installed(b: Binding): State {
    Empty.(gens := map[b := Generation(b, [1], [], CurrentGeneration)], current := map[b.keyId := b])
  }

  function OnePresign(b: Binding, p: string): State {
    Installed(b).(
      leases := map[1 := Lease(1, b, Presigning, 1, Completed)], bySession := map[1 := 1], nextLease := 1,
      effects := map[1 := Effect(1, PresignEffect(p, EffectDigest(PresignLabel, b, p, [1], [1])))],
      presigns := map[p := Presign(b, [1], [1], Sha256([1]), AvailablePresign, "", "")])
  }

  function TwoPresigns(b: Binding, p: string, q: string): State {
    OnePresign(b, p).(
      leases := OnePresign(b, p).leases[2 := Lease(2, b, Presigning, 2, Completed)], bySession := map[1 := 1, 2 := 2], nextLease := 2,
      effects := OnePresign(b, p).effects[2 := Effect(2, PresignEffect(q, EffectDigest(PresignLabel, b, q, [1], [2])))],
      presigns := OnePresign(b, p).presigns[q := Presign(b, [1], [2], Sha256([2]), AvailablePresign, "", "")])
  }

  lemma InstalledReached(b: Binding)
    requires ValidBinding(b)
    ensures After([Client(OpInstallInitial(b, [1], []))]) == Installed(b)
  {
    hide ValidBinding;
    AfterOne([], OpInstallInitial(b, [1], []));
    assert [] + [Client(OpInstallInitial(b, [1], []))] == [Client(OpInstallInitial(b, [1], []))];
    assert Empty.gens[b := Generation(b, [1], [], CurrentGeneration)] == map[b := Generation(b, [1], [], CurrentGeneration)];
  }

  lemma FirstPresign(b: Binding, p: string)
    requires ValidBinding(b) && ValidText(p)
    ensures var s := AcquireRunLease(Installed(b), b, Presigning, 1).state;
            CommitAvailablePresign(s, Lease(1, b, Presigning, 1, Active), p, [1], [1]).state == OnePresign(b, p)
  {
    hide ValidBinding, ValidText;
    var s := AcquireRunLease(Installed(b), b, Presigning, 1).state;
    assert s == Installed(b).(leases := map[1 := Lease(1, b, Presigning, 1, Active)], bySession := map[1 := 1], nextLease := 1);
    var s' := CommitAvailablePresign(s, Lease(1, b, Presigning, 1, Active), p, [1], [1]).state;
    assert s'.leases == map[1 := Lease(1, b, Presigning, 1, Completed)];
  }

  function SecondLease(b: Binding, p: string): State {
    OnePresign(b, p).(leases := OnePresign(b, p).leases[2 := Lease(2, b, Presigning, 2, Active)], bySession := map[1 := 1, 2 := 2], nextLease := 2)
  }

  lemma SecondAcquired(b: Binding, p: string)
    requires ValidBinding(b)
    ensures AcquireRunLease(OnePresign(b, p), b, Presigning, 2).state == SecondLease(b, p)
  {
    hide ValidBinding, EffectDigest;
  }

  lemma SecondGuards(b: Binding, p: string, q: string)
    requires p != q
    ensures var s := SecondLease(b, p);
            && IsCurrent(s, b) && q !in s.presigns && !HasConflictingArtifact(s.presigns, q, Sha256([2]))
            && 2 in s.leases && s.leases[2] == Lease(2, b, Presigning, 2, Active) && 2 !in s.effects && s.cutoverByKey == map[] && s.tombs == map[]
  {
    hide EffectDigest;
    assert [1][0] != [2][0];
  }

  lemma SecondStored(b: Binding, p: string, q: string)
    requires p != q
    ensures StorePresign(SecondLease(b, p), 2, q, Presign(b, [1], [2], Sha256([2]), AvailablePresign, "", ""), EffectDigest(PresignLabel, b, q, [1], [2]))
            == TwoPresigns(b, p, q)
  {
    hide EffectDigest;
    SecondGuards(b, p, q);
    assert SecondLease(b, p).leases[2 := Lease(2, b, Presigning, 2, Completed)] == TwoPresigns(b, p, q).leases;
  }

  lemma SecondPresign(b: Binding, p: string, q: string)
    requires ValidBinding(b) && ValidText(p) && ValidText(q) && p != q
    ensures CommitAvailablePresign(SecondLease(b, p), Lease(2, b, Presigning, 2, Active), q, [1], [2]).state == TwoPresigns(b, p, q)
  {
    hide ValidBinding, ValidText, EffectDigest, SecondLease, TwoPresigns, StorePresign, HasConflictingArtifact, IsCurrent;
    SecondGuards(b, p, q);
    SecondStored(b, p, q);
  }

  lemma BothBurned(b: Binding, p: string, q: string, reason: string)
    requires ValidBinding(b) && ValidText(p) && ValidText(q) && ValidText(reason) && p != q
    ensures BurnPresign(BurnPresign(TwoPresigns(b, p, q), b, p, reason).state, b, q, reason).state == TwoBurned(b, p, q, reason)
  {
    hide ValidBinding, ValidText, EffectDigest;
    var s, t := TwoPresigns(b, p, q), TwoBurned(b, p, q, reason);
    assert s.presigns[p := t.presigns[p]][q := t.presigns[q]] == t.presigns;
    assert s.leases == t.leases && s.effects == t.effects;
  }

  lemma TwoBurnedReached(b: Binding, p: string, q: string, reason: string)
    requires ValidBinding(b) && ValidText(p) && ValidText(q) && ValidText(reason) && p != q
    ensures After(TwoBurnedRun(b, p, q, reason)) == TwoBurned(b, p, q, reason)
  {
    hide ValidBinding, ValidText, After, InstallInitialGeneration, AcquireRunLease, CommitAvailablePresign, BurnPresign, Installed, OnePresign, SecondLease, TwoPresigns, TwoBurned;
    var r1 := [Client(OpInstallInitial(b, [1], []))];
    var r2 := r1 + [Client(OpAcquireLease(b, Presigning, 1))];
    var r3 := r2 + [Client(OpCommitPresign(Lease(1, b, Presigning, 1, Active), p, [1], [1]))];
    var r4 := r3 + [Client(OpAcquireLease(b, Presigning, 2))];
    var r5 := r4 + [Client(OpCommitPresign(Lease(2, b, Presigning, 2, Active), q, [1], [2]))];
    var r6 := r5 + [Client(OpBurnPresign(b, p, reason))];
    InstalledReached(b);
    AfterOne(r1, OpAcquireLease(b, Presigning, 1));
    AfterOne(r2, OpCommitPresign(Lease(1, b, Presigning, 1, Active), p, [1], [1]));
    FirstPresign(b, p);
    AfterOne(r3, OpAcquireLease(b, Presigning, 2));
    AfterOne(r4, OpCommitPresign(Lease(2, b, Presigning, 2, Active), q, [1], [2]));
    SecondAcquired(b, p);
    SecondPresign(b, p, q);
    AfterOne(r5, OpBurnPresign(b, p, reason));
    AfterOne(r6, OpBurnPresign(b, q, reason));
    BothBurned(b, p, q, reason);
  }

  lemma TwoBurnedOrders(b: Binding, p: string, q: string, reason: string)
    requires p != q
    ensures var effects := TwoBurned(b, p, q, reason).effects;
            Maximum(PresignTokens(effects, p)) == 1 && Maximum(PresignTokens(effects, q)) == 2
  {
    var effects := TwoBurned(b, p, q, reason).effects;
    assert PresignTokens(effects, p) == {1} && PresignTokens(effects, q) == {2};
  }

  /** The state after the first pass, which removes nothing, and after the second. */
  lemma TwoBurnedPasses(b: Binding, p: string, q: string, reason: string)
    requires p != q
    ensures var s := TwoBurned(b, p, q, reason);
            var s1 := CompactAttempts(s, b.keyId, {});
            var s2 := CompactPresigns(s1, b.keyId, {q});
            && s1.presigns == s.presigns && s1.attempts == map[] && s1.effects == s.effects
            && s2.leases == s.leases && s2.effects == s.effects && s2.attempts == map[] && s2.cutovers == map[] && s2.gens == s.gens
            && s2.presigns == map[q := s.presigns[q]]
  {
    hide AddTombs, AttemptTombs, PresignTombs, EffectDigest;
    var s := TwoBurned(b, p, q, reason);
    assert GoneAttempts(s, b.keyId, {}) == {};
    assert AttemptPresigns(s, {}) == {};
    var s1 := CompactAttempts(s, b.keyId, {});
    assert s1.presigns == s.presigns;
    assert GonePresigns(s1, b.keyId, {q}) == {p};
    assert s1.presigns - {p} == map[q := s.presigns[q]];
  }

  lemma TwoBurnedAttempts(b: Binding, p: string, q: string, reason: string)
    ensures var s := TwoBurned(b, p, q, reason); TopBy({}, AttemptCandidates(s, b.keyId), SessionOrder(s), 1)
  {
    assert AttemptCandidates(TwoBurned(b, p, q, reason), b.keyId) == {};
  }

  lemma TwoBurnedTops(b: Binding, p: string, q: string, reason: string)
    requires p != q
    ensures var s1 := CompactAttempts(TwoBurned(b, p, q, reason), b.keyId, {});
            TopBy({q}, PresignCandidates(s1, b.keyId), PresignOrder(s1), 1)
  {
    hide CompactAttempts, EffectDigest, Maximum;
    TwoBurnedPasses(b, p, q, reason);
    TwoBurnedOrders(b, p, q, reason);
    var s1 := CompactAttempts(TwoBurned(b, p, q, reason), b.keyId, {});
    assert PresignCandidates(s1, b.keyId) == {p, q};
  }

  lemma TwoBurnedLast(b: Binding, p: string, q: string, reason: string)
    requires p != q
    ensures var s := TwoBurned(b, p, q, reason);
            var s2 := CompactPresigns(CompactAttempts(s, b.keyId, {}), b.keyId, {q});
            var s3 := CompactLeases(s2, b.keyId, {1});
            var s4 := CompactCutovers(s3, b.keyId, {});
            && TopBy({1}, LeaseCandidates(s2, b.keyId), TokenOrder(), 1)
            && CutoverCandidates(s3, b.keyId) == {} && GenerationCandidates(s4, b.keyId) == {}
  {
    hide CompactAttempts, CompactPresigns, EffectDigest, AddTombs, CutoverTombs, SessionTombs, LeaseSessions, GenerationReferenced, CutoverReferenced;
    var s := TwoBurned(b, p, q, reason);
    TwoBurnedPasses(b, p, q, reason);
    var s2 := CompactPresigns(CompactAttempts(s, b.keyId, {}), b.keyId, {q});
    assert PresignHeld(s2, 2) && !PresignHeld(s2, 1);
    assert LeaseCandidates(s2, b.keyId) == {1};
  }

  lemma TwoBurnedKeeps(b: Binding, p: string, q: string, reason: string)
    requires p != q
    ensures Retains(TwoBurned(b, p, q, reason), b.keyId, KeepLast(q), 1)
  {
    hide CompactAttempts, CompactPresigns, CompactLeases, CompactCutovers, TwoBurned, AttemptCandidates, PresignCandidates, LeaseCandidates;
    TwoBurnedAttempts(b, p, q, reason);
    TwoBurnedTops(b, p, q, reason);
    TwoBurnedLast(b, p, q, reason);
  }

  lemma ValidBindingKey(b: Binding)
    requires ValidBinding(b)
    ensures ValidText(b.keyId)
  {
  }

  /** After such a run, retaining the last burned presign and the last terminal lease
      keeps the lease of the presign that goes, and compaction is refused. */
  lemma RetainingOneRefused(b: Binding, p: string, q: string, reason: string)
    requires ValidBinding(b) && ValidText(p) && ValidText(q) && ValidText(reason) && p != q
    ensures var s := After(TwoBurnedRun(b, p, q, reason));
            Retains(s, b.keyId, KeepLast(q), 1) && PresignLeaseKept(s, KeepLast(q), 1) && !Valid(Compacted(s, b.keyId, KeepLast(q)))
  {
    hide Valid, Inv, ValidText, ValidBinding, Compacted, Retains, After;
    TwoBurnedReached(b, p, q, reason);
    ReachableInv(TwoBurnedRun(b, p, q, reason));
    TwoBurnedKeeps(b, p, q, reason);
    ValidBindingKey(b);
    RetentionValidIff(TwoBurned(b, p, q, reason), b.keyId, KeepLast(q), 1);
  }

  // --------------------------------------- a cutover kept without its generation

  /** One key under three generations: the first was received in a reshare, the others
      followed by cutovers that no lease asked for; a later lease was abandoned. */
  predicate ThreeGenerations(source: Binding, g1: Binding, g2: Binding, g3: Binding) {
    && ValidCutoverBindings(source, g1) && ValidCutoverBindings(g1, g2) && ValidCutoverBindings(g2, g3)
    && g1.generation != g3.generation
  }

  function AnchorFor(source: Binding, g1: Binding): ReceiverAnchor {
    ReceiverAnchor(source, g1.generation, 1, seq(32, i => 1), seq(32, i => 1))
  }

  function Retired3(g1: Binding, g2: Binding, g3: Binding): map<Binding, Generation> {
    map[g1 := Generation(g1, [], [], RetiredGeneration), g2 := Generation(g2, [], [], RetiredGeneration), g3 := Generation(g3, [1], [], CurrentGeneration)]
  }

  function Done(token: Token, source: Binding, target: Binding): Cutover {
    Cutover(Fence(token, source, target), CommittedCutover, Some(Sha256([1])), Some(Sha256([])), "")
  }

  function TwoCutovers(source: Binding, g1: Binding, g2: Binding, g3: Binding): State {
    Empty.(
      gens := Retired3(g1, g2, g3), current := map[g1.keyId := g3],
      leases := map[1 := Lease(1, source, Reshare, 1, Completed), 2 := Lease(2, g1, Presigning, 2, Aborted)],
      bySession := map[1 := 1, 2 := 2],
      effects := map[1 := Effect(1, ReceiverEffect(g1, EffectDigest(ReceiverGenerationLabel, g1, g1.keyId, [1], [])))],
      cutovers := map[1 := Done(1, g1, g2), 2 := Done(2, g2, g3)],
      nextLease := 2, nextCutover := 2)
  }

  function TwoCutoversRun(source: Binding, g1: Binding, g2: Binding, g3: Binding): seq<Event> {
    FirstHalf(source, g1)
    + [Client(OpBeginCutover(g1, g2))] + [Client(OpCommitCutover(Fence(1, g1, g2), [1], []))]
    + [Client(OpBeginCutover(g2, g3))] + [Client(OpCommitCutover(Fence(2, g2, g3), [1], []))]
  }

  function Anchored(source: Binding, g1: Binding): State {
    Empty.(leases := map[1 := Lease(1, source, Reshare, 1, Active)], bySession := map[1 := 1], anchors := map[1 := AnchorFor(source, g1)], nextLease := 1)
  }

  function Received(source: Binding, g1: Binding): State {
    Empty.(
      gens := map[g1 := Generation(g1, [1], [], CurrentGeneration)], current := map[g1.keyId := g1],
      leases := map[1 := Lease(1, source, Reshare, 1, Completed)], bySession := map[1 := 1],
      effects := map[1 := Effect(1, ReceiverEffect(g1, EffectDigest(ReceiverGenerationLabel, g1, g1.keyId, [1], [])))],
      nextLease := 1)
  }

  function Abandoned(source: Binding, g1: Binding): State {
    Received(source, g1).(leases := map[1 := Lease(1, source, Reshare, 1, Completed), 2 := Lease(2, g1, Presigning, 2, Aborted)],
                          bySession := map[1 := 1, 2 := 2], nextLease := 2)
  }

  function Once(source: Binding, g1: Binding, g2: Binding): State {
    Abandoned(source, g1).(
      gens := map[g1 := Generation(g1, [], [], RetiredGeneration), g2 := Generation(g2, [1], [], CurrentGeneration)], current := map[g1.keyId := g2],
      cutovers := map[1 := Done(1, g1, g2)], nextCutover := 1)
  }

  lemma AnchoredReached(source: Binding, g1: Binding)
    requires ValidCutoverBindings(source, g1)
    ensures After([Client(OpAcquireReceiver(AnchorFor(source, g1)))]) == Anchored(source, g1)
  {
    hide ValidText;
    AfterOne([], OpAcquireReceiver(AnchorFor(source, g1)));
    assert [] + [Client(OpAcquireReceiver(AnchorFor(source, g1)))] == [Client(OpAcquireReceiver(AnchorFor(source, g1)))];
    assert AnchorFor(source, g1).planDigest[0] == 1;
    assert ValidAnchor(AnchorFor(source, g1));
  }

  lemma ReceivedReached(source: Binding, g1: Binding)
    requires ValidCutoverBindings(source, g1)
    ensures CommitReshareGeneration(Anchored(source, g1), Lease(1, source, Reshare, 1, Active), g1, [1], []).state == Received(source, g1)
  {
    hide ValidText, EffectDigest;
    var s := Anchored(source, g1);
    assert s.anchors - {1} == map[];
    assert s.leases[1 := Lease(1, source, Reshare, 1, Completed)] == Received(source, g1).leases;
  }

  lemma AbandonedReached(source: Binding, g1: Binding)
    requires ValidCutoverBindings(source, g1)
    ensures var s := AcquireRunLease(Received(source, g1), g1, Presigning, 2).state;
            FinishRunLease(s, Lease(2, g1, Presigning, 2, Active), LeaseAborted).state == Abandoned(source, g1)
  {
    hide ValidText, EffectDigest;
    var s := AcquireRunLease(Received(source, g1), g1, Presigning, 2).state;
    var t := Received(source, g1);
    assert s == t.(leases := t.leases[2 := Lease(2, g1, Presigning, 2, Active)], bySession := t.bySession[2 := 2], nextLease := 2);
    assert s.leases[2 := Lease(2, g1, Presigning, 2, Aborted)] == Abandoned(source, g1).leases;
  }

  /** A cutover of a key that no run and no attempt stands in the way of. */
  predicate Quiet(s: State, source: Binding, target: Binding) {
    && ValidCutoverBindings(source, target) && IsCurrent(s, source) && target !in s.gens
    && !HasKeyGeneration(s.gens, s.tombs, target.keyId, target.generation)
    && !HasActiveLease(s.leases, source) && s.attempts == map[] && s.presigns == map[] && s.cutoverByKey == map[]
  }

  lemma CutoverDone(s: State, source: Binding, target: Binding)
    requires Quiet(s, source, target)
    ensures var fenced := BeginCutover(s, source, target).state;
            CommitCutover(fenced, Fence(s.nextCutover + 1, source, target), [1], []).state
            == s.(gens := s.gens[source := Generation(s.gens[source].binding, [], [], RetiredGeneration)][target := Generation(target, [1], [], CurrentGeneration)],
                  current := s.current[target.keyId := target],
                  cutovers := s.cutovers[s.nextCutover + 1 := Done(s.nextCutover + 1, source, target)], nextCutover := s.nextCutover + 1)
  {
    hide ValidText, HasKeyGeneration, HasActiveLease;
    var fence := Fence(s.nextCutover + 1, source, target);
    var fenced := BeginCutover(s, source, target).state;
    assert fenced == RaiseFence(s, fence);
    assert !HasNonTerminalAttempt(s.attempts, source);
    var committed := Done(s.nextCutover + 1, source, target);
    CutoverReplaced(s, source, target);
  }

  lemma CutoverReplaced(s: State, source: Binding, target: Binding)
    requires source in s.gens && s.presigns == map[] && s.cutoverByKey == map[] && source.keyId == target.keyId
    ensures var fence := Fence(s.nextCutover + 1, source, target);
            Replace(RaiseFence(s, fence), Done(s.nextCutover + 1, source, target), Generation(target, [1], [], CurrentGeneration), CUTOVER_REASON)
            == s.(gens := s.gens[source := Generation(s.gens[source].binding, [], [], RetiredGeneration)][target := Generation(target, [1], [], CurrentGeneration)],
                  current := s.current[target.keyId := target],
                  cutovers := s.cutovers[s.nextCutover + 1 := Done(s.nextCutover + 1, source, target)], nextCutover := s.nextCutover + 1)
  {
    assert BurnEpochPresigns(map[], s.attempts, source.keyId, source.epochId, CUTOVER_REASON) == map[];
    assert s.cutoverByKey[source.keyId := s.nextCutover + 1] - {source.keyId} == map[];
  }

  lemma FirstCutover(source: Binding, g1: Binding, g2: Binding, g3: Binding)
    requires ThreeGenerations(source, g1, g2, g3)
    ensures CommitCutover(BeginCutover(Abandoned(source, g1), g1, g2).state, Fence(1, g1, g2), [1], []).state == Once(source, g1, g2)
  {
    hide ValidText, EffectDigest, BeginCutover, CommitCutover;
    assert Quiet(Abandoned(source, g1), g1, g2);
    CutoverDone(Abandoned(source, g1), g1, g2);
  }

  lemma OnceQuiet(source: Binding, g1: Binding, g2: Binding, g3: Binding)
    requires ThreeGenerations(source, g1, g2, g3)
    ensures Quiet(Once(source, g1, g2), g2, g3)
  {
    hide ValidText, EffectDigest;
  }

  lemma OnceReplaced(source: Binding, g1: Binding, g2: Binding, g3: Binding)
    requires ThreeGenerations(source, g1, g2, g3)
    ensures var s := Once(source, g1, g2);
            && g2 in s.gens && s.nextCutover == 1
            && s.gens[g2 := Generation(s.gens[g2].binding, [], [], RetiredGeneration)][g3 := Generation(g3, [1], [], CurrentGeneration)] == Retired3(g1, g2, g3)
            && s.cutovers[2 := Done(2, g2, g3)] == TwoCutovers(source, g1, g2, g3).cutovers
            && s.current[g3.keyId := g3] == TwoCutovers(source, g1, g2, g3).current
  {
    hide ValidText, EffectDigest;
  }

  lemma SecondCutover(source: Binding, g1: Binding, g2: Binding, g3: Binding)
    requires ThreeGenerations(source, g1, g2, g3)
    ensures CommitCutover(BeginCutover(Once(source, g1, g2), g2, g3).state, Fence(2, g2, g3), [1], []).state == TwoCutovers(source, g1, g2, g3)
  {
    hide ValidText, EffectDigest, BeginCutover, CommitCutover, Quiet, Retired3, ValidCutoverBindings;
    OnceQuiet(source, g1, g2, g3);
    OnceReplaced(source, g1, g2, g3);
    CutoverDone(Once(source, g1, g2), g2, g3);
  }

  function FirstHalf(source: Binding, g1: Binding): seq<Event> {
    [Client(OpAcquireReceiver(AnchorFor(source, g1)))] + [Client(OpCommitReshare(Lease(1, source, Reshare, 1, Active), g1, [1], []))]
    + [Client(OpAcquireLease(g1, Presigning, 2))] + [Client(OpFinishLease(Lease(2, g1, Presigning, 2, Active), LeaseAborted))]
  }

  lemma FirstHalfReached(source: Binding, g1: Binding)
    requires ValidCutoverBindings(source, g1)
    ensures After(FirstHalf(source, g1)) == Abandoned(source, g1)
  {
    hide ValidCutoverBindings, After, AcquireReshareReceiverLease, CommitReshareGeneration, AcquireRunLease, FinishRunLease;
    hide Anchored, Received, Abandoned, AnchorFor;
    var r1 := [Client(OpAcquireReceiver(AnchorFor(source, g1)))];
    var r2 := r1 + [Client(OpCommitReshare(Lease(1, source, Reshare, 1, Active), g1, [1], []))];
    var r3 := r2 + [Client(OpAcquireLease(g1, Presigning, 2))];
    AnchoredReached(source, g1);
    AfterOne(r1, OpCommitReshare(Lease(1, source, Reshare, 1, Active), g1, [1], []));
    ReceivedReached(source, g1);
    AfterOne(r2, OpAcquireLease(g1, Presigning, 2));
    AfterOne(r3, OpFinishLease(Lease(2, g1, Presigning, 2, Active), LeaseAborted));
    AbandonedReached(source, g1);
  }

  lemma TwoCutoversReached(source: Binding, g1: Binding, g2: Binding, g3: Binding)
    requires ThreeGenerations(source, g1, g2, g3)
    ensures After(TwoCutoversRun(source, g1, g2, g3)) == TwoCutovers(source, g1, g2, g3)
  {
    hide ValidCutoverBindings, After, BeginCutover, CommitCutover, Abandoned, Once, TwoCutovers, FirstHalf;
    var r4 := FirstHalf(source, g1);
    var r5 := r4 + [Client(OpBeginCutover(g1, g2))];
    var r6 := r5 + [Client(OpCommitCutover(Fence(1, g1, g2), [1], []))];
    var r7 := r6 + [Client(OpBeginCutover(g2, g3))];
    FirstHalfReached(source, g1);
    AfterOne(r4, OpBeginCutover(g1, g2));
    AfterOne(r5, OpCommitCutover(Fence(1, g1, g2), [1], []));
    FirstCutover(source, g1, g2, g3);
    AfterOne(r6, OpBeginCutover(g2, g3));
    AfterOne(r7, OpCommitCutover(Fence(2, g2, g3), [1], []));
    SecondCutover(source, g1, g2, g3);
  }

  /** The newest lease, the newest cutover and the newest retired generation by the age
      of what installed it. */
  function KeepNewest(g1: Binding): Retained { Retained({}, {}, {2}, {2}, {g1}) }

  lemma TwoCutoversPasses(source: Binding, g1: Binding, g2: Binding, g3: Binding)
    requires ThreeGenerations(source, g1, g2, g3)
    ensures var s, keep := TwoCutovers(source, g1, g2, g3), KeepNewest(g1);
            var s1 := CompactAttempts(s, g1.keyId, {});
            var s2 := CompactPresigns(s1, g1.keyId, {});
            && s1.presigns == map[] && s2.attempts == map[] && s2.presigns == map[]
            && s2.leases == s.leases && s2.effects == s.effects && s2.cutovers == s.cutovers && s2.gens == s.gens
  {
    hide AddTombs, AttemptTombs, PresignTombs, EffectDigest, ValidCutoverBindings;
    var s := TwoCutovers(source, g1, g2, g3);
    assert GoneAttempts(s, g1.keyId, {}) == {} && AttemptPresigns(s, {}) == {};
  }

  lemma TwoCutoversLeases(source: Binding, g1: Binding, g2: Binding, g3: Binding)
    requires ThreeGenerations(source, g1, g2, g3)
    ensures var s2 := CompactPresigns(CompactAttempts(TwoCutovers(source, g1, g2, g3), g1.keyId, {}), g1.keyId, {});
            var s3 := CompactLeases(s2, g1.keyId, {2});
            && LeaseCandidates(s2, g1.keyId) == {1, 2} && s3.effects == map[] && s3.cutovers == s2.cutovers && s3.gens == s2.gens
  {
    hide AddTombs, SessionTombs, LeaseSessions, EffectDigest, ValidText, CompactAttempts, CompactPresigns;
    TwoCutoversPasses(source, g1, g2, g3);
    var s2 := CompactPresigns(CompactAttempts(TwoCutovers(source, g1, g2, g3), g1.keyId, {}), g1.keyId, {});
    assert LeaseCandidates(s2, g1.keyId) == {1, 2};
    assert GoneLeases(s2, g1.keyId, {2}) == {1};
  }

  lemma TwoCutoversLast(source: Binding, g1: Binding, g2: Binding, g3: Binding)
    requires ThreeGenerations(source, g1, g2, g3)
    ensures var s := TwoCutovers(source, g1, g2, g3);
            var s2 := CompactPresigns(CompactAttempts(s, g1.keyId, {}), g1.keyId, {});
            var s3 := CompactLeases(s2, g1.keyId, {2});
            var s4 := CompactCutovers(s3, g1.keyId, {2});
            CutoverCandidates(s3, g1.keyId) == {1, 2} && GenerationCandidates(s4, g1.keyId) == {g1, g2}
  {
    hide AddTombs, CutoverTombs, EffectDigest, ValidText, CompactAttempts, CompactPresigns, CompactLeases;
    TwoCutoversPasses(source, g1, g2, g3);
    TwoCutoversLeases(source, g1, g2, g3);
  }

  lemma TwoCutoversOrders(source: Binding, g1: Binding, g2: Binding, g3: Binding)
    requires ThreeGenerations(source, g1, g2, g3)
    ensures var effects := TwoCutovers(source, g1, g2, g3).effects;
            Maximum(TargetTokens(effects, g1)) == 1 && Maximum(TargetTokens(effects, g2)) == 0
  {
    hide EffectDigest, ValidText;
    var effects := TwoCutovers(source, g1, g2, g3).effects;
    assert TargetTokens(effects, g1) == {1} && TargetTokens(effects, g2) == {};
  }

  lemma TwoCutoversKeeps(source: Binding, g1: Binding, g2: Binding, g3: Binding)
    requires ThreeGenerations(source, g1, g2, g3)
    ensures Retains(TwoCutovers(source, g1, g2, g3), g1.keyId, KeepNewest(g1), 1)
  {
    hide CompactAttempts, CompactPresigns, CompactLeases, CompactCutovers, Maximum, LeaseCandidates, CutoverCandidates, GenerationCandidates, EffectDigest, ValidText;
    var s := TwoCutovers(source, g1, g2, g3);
    TwoCutoversPasses(source, g1, g2, g3);
    TwoCutoversLeases(source, g1, g2, g3);
    TwoCutoversLast(source, g1, g2, g3);
    TwoCutoversOrders(source, g1, g2, g3);
    assert AttemptCandidates(s, g1.keyId) == {};
    assert PresignCandidates(CompactAttempts(s, g1.keyId, {}), g1.keyId) == {};
  }

  /** After such a run, retaining the newest of each kind keeps the last cutover without
      the generation it replaced, and compaction is refused. */
  lemma RetainingCutoverRefused(source: Binding, g1: Binding, g2: Binding, g3: Binding)
    requires ThreeGenerations(source, g1, g2, g3)
    ensures var s := After(TwoCutoversRun(source, g1, g2, g3));
            && Retains(s, g1.keyId, KeepNewest(g1), 1) && CutoverBroken(s, g1.keyId, KeepNewest(g1), 2)
            && !Valid(Compacted(s, g1.keyId, KeepNewest(g1)))
  {
    hide Valid, Inv, ValidText, Compacted, Retains, After, EffectDigest;
    var s := TwoCutovers(source, g1, g2, g3);
    TwoCutoversReached(source, g1, g2, g3);
    ReachableInv(TwoCutoversRun(source, g1, g2, g3));
    TwoCutoversKeeps(source, g1, g2, g3);
    assert !GenerationStays(s, g1.keyId, KeepNewest(g1), g2);
    assert CutoverBroken(s, g1.keyId, KeepNewest(g1), 2);
    RetentionValidIff(s, g1.keyId, KeepNewest(g1), 1);
  }
}

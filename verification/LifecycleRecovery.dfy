/** Recovery when the store is opened: blobs that the visible root does not refer to
    are removed. This is safe exactly when no root that may still come back needs
    one of them. */
module LifecycleRecovery {
  import opened Options
  import opened Counting
  import opened LifecycleCrash

  predicate Referenced(root: Root, id: string) {
    || (exists k :: k in root.lineages && root.lineages[k].id == id)
    || (exists p :: p in root.buckets && root.buckets[p].id == id)
  }

  /** What recovery removes: every blob the visible root does not refer to. */
  predicate Orphans(m: Medium, ids: seq<string>) {
    && (forall id | id in ids :: id in m.blobs && !Referenced(Visible(m), id))
    && (forall id | id in m.blobs :: Referenced(Visible(m), id) || id in ids)
  }

  function Sweep(ids: seq<string>): (r: seq<DiskStep>)
    ensures |r| == |ids| && forall i | 0 <= i < |ids| :: r[i] == RemoveBlob(ids[i])
  {
    seq(|ids|, i requires 0 <= i < |ids| => RemoveBlob(ids[i]))
  }

  /** The root's directory is synced only after a leftover root file was removed. */
  function RecoverSteps(m: Medium, ids: seq<string>): seq<DiskStep> {
    Sweep(ids) + if m.temp.Some? then [RemoveTemp, SyncRootDirectory] else []
  }

  function Without(m: Medium, ids: seq<string>): Medium { m.(blobs := m.blobs - Elements(ids)) }

  lemma {:induction false} SweepRun(m: Medium, ids: seq<string>)
    ensures Run(m, Sweep(ids)) == Without(m, ids)
  {
    if ids != [] {
      var front := ids[..|ids| - 1];
      SweepRun(m, front);
      assert Sweep(ids)[..|ids| - 1] == Sweep(front);
      assert Elements(ids) == Elements(front) + {ids[|ids| - 1]};
      assert m.blobs - Elements(ids) == (m.blobs - Elements(front)) - {ids[|ids| - 1]};
    } else {
      assert Elements(ids) == {};
      assert m.blobs - Elements(ids) == m.blobs;
    }
  }

  /** The medium after `n` steps of recovery. */
  lemma RecoverRun(m: Medium, ids: seq<string>, n: nat)
    requires n <= |RecoverSteps(m, ids)|
    ensures var now := Run(m, RecoverSteps(m, ids)[..n]);
            if n <= |ids| then now == Without(m, ids[..n])
            else if n == |ids| + 1 then now == Without(m, ids).(temp := None)
            else now == Exec(Without(m, ids).(temp := None), SyncRootDirectory)
  {
    var steps := RecoverSteps(m, ids);
    if n <= |ids| {
      assert steps[..n] == Sweep(ids[..n]);
      SweepRun(m, ids[..n]);
    } else {
      SweepRun(m, ids);
      assert steps[..|ids| + 1][..|ids|] == Sweep(ids);
      assert Run(m, steps[..|ids| + 1]) == Without(m, ids).(temp := None);
      if n == |ids| + 2 { assert steps[..n][..|ids| + 1] == steps[..|ids| + 1]; }
    }
  }

  /** Recovery removes exactly the unreferenced blobs and leftover root file, and a
      reader sees what they saw before. */
  method Recover(m: Medium) returns (ids: seq<string>, out: Medium)
    ensures Orphans(m, ids) && out == Run(m, RecoverSteps(m, ids))
    ensures forall id :: id in out.blobs <==> id in m.blobs && Referenced(Visible(m), id)
    ensures out.temp.None? && Visible(out) == Visible(m) && Reopen(out) == Reopen(m)
  {
    hide Referenced, Run, RecoverSteps;
    ids := [];
    out := m;
    var todo := m.blobs.Keys;
    while todo != {}
      invariant todo <= m.blobs.Keys
      invariant out == Without(m, ids)
      invariant forall id :: id in ids <==> id in m.blobs && id !in todo && !Referenced(Visible(m), id)
      decreases todo
    {
      var id :| id in todo;
      todo := todo - {id};
      if !Referenced(Visible(m), id) {
        assert m.blobs - Elements(ids + [id]) == (m.blobs - Elements(ids)) - {id};
        ids := ids + [id];
        out := Exec(out, RemoveBlob(id));
      }
    }
    if m.temp.Some? {
      out := Exec(out, RemoveTemp);
      out := Exec(out, SyncRootDirectory);
    }
    RecoverLength(m, ids);
    RecoverRun(m, ids, |RecoverSteps(m, ids)|);
    assert RecoverSteps(m, ids)[..|RecoverSteps(m, ids)|] == RecoverSteps(m, ids);
    assert ids[..|ids|] == ids;
    SameFound(m, ids);
  }

  lemma RecoverLength(m: Medium, ids: seq<string>)
    ensures |RecoverSteps(m, ids)| == |ids| + if m.temp.Some? then 2 else 0
  {
  }

  lemma SameFound(m: Medium, ids: seq<string>)
    requires Orphans(m, ids)
    ensures AllFound(Visible(m), Without(m, ids).blobs) <==> AllFound(Visible(m), m.blobs)
  {
    assert forall k | k in Visible(m).lineages :: Referenced(Visible(m), Visible(m).lineages[k].id);
    assert forall p | p in Visible(m).buckets :: Referenced(Visible(m), Visible(m).buckets[p].id);
  }

  /** Every root that may come back needs only blobs of the visible one. */
  ghost predicate Shared(m: Medium) {
    forall root, id | MayReturn(m, root) && Referenced(root, id) :: Referenced(Visible(m), id)
  }

  /** Whenever the machine crashes during or after recovery, the store opens again. */
  ghost predicate RecoverySafe(m: Medium, ids: seq<string>) {
    forall n: nat, m' | n <= |RecoverSteps(m, ids)| && CrashOutcome(Run(m, RecoverSteps(m, ids)[..n]), m') :: Reopen(m').Some?
  }

  lemma SettledShared(m: Medium)
    requires m.pending == []
    ensures Shared(m)
  {
  }

  lemma WithoutBacked(m: Medium, ids: seq<string>, root: Root)
    requires Orphans(m, ids) && Backed(root, m.blobs) && forall id | Referenced(root, id) :: Referenced(Visible(m), id)
    ensures forall n | 0 <= n <= |ids| :: Backed(root, Without(m, ids[..n]).blobs)
  {
    assert forall k | k in root.lineages :: Referenced(root, root.lineages[k].id);
    assert forall p | p in root.buckets :: Referenced(root, root.buckets[p].id);
  }

  lemma WithoutSound(m: Medium, ids: seq<string>, n: nat)
    requires Sound(m) && Orphans(m, ids) && Shared(m) && n <= |ids|
    ensures Sound(Without(m, ids[..n]))
  {
    hide Referenced, Orphans, Backed;
    WithoutBacked(m, ids, m.durable);
    forall i | 0 <= i < |m.pending| ensures Backed(m.pending[i].root, Without(m, ids[..n]).blobs) {
      assert MayReturn(m, m.pending[i].root);
      WithoutBacked(m, ids, m.pending[i].root);
    }
  }

  lemma RecoveredSound(m: Medium, ids: seq<string>, n: nat)
    requires Sound(m) && Orphans(m, ids) && Shared(m) && n <= |RecoverSteps(m, ids)|
    ensures Sound(Run(m, RecoverSteps(m, ids)[..n])) && Visible(Run(m, RecoverSteps(m, ids)[..n])) == Visible(m)
    ensures m.pending == [] ==> Run(m, RecoverSteps(m, ids)[..n]).pending == []
  {
    hide Run, RecoverSteps, Referenced, Orphans, Backed;
    RecoverRun(m, ids, n);
    RecoverLength(m, ids);
    WithoutSound(m, ids, if n <= |ids| then n else |ids|);
    assert ids[..|ids|] == ids;
  }

  /** Recovery is safe exactly when every root that may come back needs only blobs of
      the visible one. */
  lemma RecoverySafeIff(m: Medium, ids: seq<string>)
    requires Sound(m) && Orphans(m, ids)
    ensures RecoverySafe(m, ids) <==> Shared(m)
  {
    hide Run, RecoverSteps, CrashOutcome, Reopen, Referenced, Orphans;
    if Shared(m) {
      forall n: nat, m' | n <= |RecoverSteps(m, ids)| && CrashOutcome(Run(m, RecoverSteps(m, ids)[..n]), m') ensures Reopen(m').Some? {
        RecoveredSound(m, ids, n);
        SoundReopens(Run(m, RecoverSteps(m, ids)[..n]), m');
      }
    } else {
      var root, id :| MayReturn(m, root) && Referenced(root, id) && !Referenced(Visible(m), id);
      SweptAway(m, ids, root, id);
      RecoverLength(m, ids);
      RecoverRun(m, ids, |ids|);
      assert ids[..|ids|] == ids;
    }
  }

  /** A blob that only an earlier root needs is gone; should that root come back, the
      store does not open. */
  lemma SweptAway(m: Medium, ids: seq<string>, root: Root, id: string)
    requires Sound(m) && Orphans(m, ids) && MayReturn(m, root) && Referenced(root, id) && !Referenced(Visible(m), id)
    ensures CrashOutcome(Without(m, ids), CrashTo(Without(m, ids), root)) && Reopen(CrashTo(Without(m, ids), root)).None?
  {
    ReturnedBacked(m, root);
    assert id in ids;
  }

  /** With no rename pending, recovery and any crash in it bring back the same state. */
  lemma SettledRecovery(m: Medium, ids: seq<string>, n: nat, m': Medium)
    requires Sound(m) && m.pending == [] && Orphans(m, ids)
    requires n <= |RecoverSteps(m, ids)| && CrashOutcome(Run(m, RecoverSteps(m, ids)[..n]), m')
    ensures Reopen(m') == Some(DiskOf(m.durable))
  {
    hide Run, RecoverSteps, Orphans, CrashOutcome, Reopen, Backed;
    SettledShared(m);
    RecoveredSound(m, ids, n);
    SoundReopens(Run(m, RecoverSteps(m, ids)[..n]), m');
  }

  /** Where recovery fails: a transaction replaced a blob and its directory sync failed. */
  lemma ReplacedBlobUnsafe(m: Medium, writes: seq<Write>, root: Root, id: string, ids: seq<string>)
    requires Sound(m) && m.pending == [] && IdsFresh(writes, m.blobs) && Extends(root, m.durable, writes)
    requires Referenced(m.durable, id) && !Referenced(root, id)
    requires Orphans(Run(m, PersistSteps(writes, root)[..|PersistSteps(writes, root)| - 1]), ids)
    ensures !RecoverySafe(Run(m, PersistSteps(writes, root)[..|PersistSteps(writes, root)| - 1]), ids)
  {
    hide Run, IdsFresh, Referenced, Orphans, RecoverySafe;
    var now := Run(m, PersistSteps(writes, root)[..|PersistSteps(writes, root)| - 1]);
    TransactionSound(m, writes, root, |PersistSteps(writes, root)| - 1);
    assert MayReturn(now, m.durable) && Visible(now) == root;
    RecoverySafeIff(now, ids);
  }
}

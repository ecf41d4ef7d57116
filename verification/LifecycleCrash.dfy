/** Crashes and published transactions. Snapshots and buckets are written and made
    durable before the root that refers to them is renamed into place, and the
    rename is durable once the root's directory is synced. A process that dies
    leaves exactly the old state or the new one. A crash of the machine also
    forgets every rename whose directory sync failed. */
module LifecycleCrash {
  import opened Options
  import opened LifecycleLineages
  import opened LifecycleIndex
  import opened LifecycleBuckets

  datatype Content = SnapshotContent(lineage: Lineage) | BucketContent(entries: set<Entry>) | Torn(nat)

  /** A reference of the root: the blob's name and its recorded digest. The digest
      of a content is modelled by the content itself. */
  datatype Ref = Ref(id: string, digest: Content)

  datatype Root = Root(txId: nat, lineages: map<string, Ref>, buckets: map<nat, Ref>)

  /** A file: `synced` when its content is durable, `linked` when its directory entry is. */
  datatype Blob = Blob(content: Content, synced: bool, linked: bool)

  datatype RootFile = RootFile(root: Root, synced: bool)

  /** `durable` is the root that survives a crash for sure; `pending` are those renamed
      over it, in order, since the root's directory was last synced. */
  datatype Medium = Medium(blobs: map<string, Blob>, durable: Root, pending: seq<RootFile>, temp: Option<RootFile>)

  datatype DiskStep =
    | WriteBlob(id: string, content: Content)
    | SyncBlob(id: string)
    | SyncDirectory(id: string)
    | WriteRoot(root: Root)
    | SyncRoot
    | RenameRoot
    | SyncRootDirectory
    | RemoveBlob(id: string)
    | RemoveTemp

  function Exec(m: Medium, step: DiskStep): Medium {
    match step
    case WriteBlob(id, content) => m.(blobs := m.blobs[id := Blob(content, false, false)])
    case SyncBlob(id) => if id in m.blobs then m.(blobs := m.blobs[id := m.blobs[id].(synced := true)]) else m
    case SyncDirectory(id) => if id in m.blobs then m.(blobs := m.blobs[id := m.blobs[id].(linked := true)]) else m
    case WriteRoot(root) => m.(temp := Some(RootFile(root, false)))
    case SyncRoot => if m.temp.Some? then m.(temp := Some(m.temp.value.(synced := true))) else m
    case RenameRoot => if m.temp.Some? then m.(pending := m.pending + [m.temp.value], temp := None) else m
    case SyncRootDirectory =>
      if m.pending != [] && m.pending[|m.pending| - 1].synced then m.(durable := m.pending[|m.pending| - 1].root, pending := []) else m
    case RemoveBlob(id) => m.(blobs := m.blobs - {id})
    case RemoveTemp => m.(temp := None)
  }

  function Run(m: Medium, steps: seq<DiskStep>): Medium {
    if steps == [] then m else Exec(Run(m, steps[..|steps| - 1]), steps[|steps| - 1])
  }

  /** What a crash of the machine may leave: durable files keep their content, other
      files may be lost, torn or back again, and any of the unsynced renames may
      have been the last to reach the disk, or none of them. */
  predicate CrashOutcome(m: Medium, m': Medium) {
    && (forall id | id in m.blobs && m.blobs[id].synced && m.blobs[id].linked :: id in m'.blobs && m'.blobs[id] == m.blobs[id])
    && m'.pending == []
    && (|| m'.durable == m.durable
        || exists i :: 0 <= i < |m.pending| && (m.pending[i].synced ==> m'.durable == m.pending[i].root))
  }

  // ------------------------------------------------------------------ reopening

  datatype Disk = Disk(txId: nat, lineages: map<string, Lineage>, buckets: Buckets)

  predicate WellTyped(root: Root) {
    && (forall k | k in root.lineages :: root.lineages[k].digest.SnapshotContent?)
    && (forall p | p in root.buckets :: root.buckets[p].digest.BucketContent?)
  }

  predicate Found(r: Ref, blobs: map<string, Blob>) { r.id in blobs && blobs[r.id].content == r.digest }

  /** What a root describes. */
  function DiskOf(root: Root): Disk
    requires WellTyped(root)
  {
    Disk(root.txId, map k | k in root.lineages :: root.lineages[k].digest.lineage, map p | p in root.buckets :: root.buckets[p].digest.entries)
  }

  /** The root that a reader of the directory sees. */
  function Visible(m: Medium): Root {
    if m.pending == [] then m.durable else m.pending[|m.pending| - 1].root
  }

  /** A root that the medium may come back with after a crash. */
  predicate MayReturn(m: Medium, root: Root) {
    root == m.durable || exists i :: 0 <= i < |m.pending| && m.pending[i].root == root
  }

  predicate AllFound(root: Root, blobs: map<string, Blob>) {
    && (forall k | k in root.lineages :: Found(root.lineages[k], blobs))
    && (forall p | p in root.buckets :: Found(root.buckets[p], blobs))
  }

  /** Opening the store reads every blob the visible root refers to and checks its digest. */
  function Reopen(m: Medium): Option<Disk> {
    if WellTyped(Visible(m)) && AllFound(Visible(m), m.blobs) then Some(DiskOf(Visible(m))) else None
  }

  predicate Durable(r: Ref, blobs: map<string, Blob>) {
    r.id in blobs && blobs[r.id] == Blob(r.digest, true, true)
  }

  /** Every blob the root refers to is durable and has the recorded digest. */
  predicate Backed(root: Root, blobs: map<string, Blob>) {
    && WellTyped(root)
    && (forall k | k in root.lineages :: Durable(root.lineages[k], blobs))
    && (forall p | p in root.buckets :: Durable(root.buckets[p], blobs))
  }

  /** Every root that may come back is backed, and later ones have later numbers. */
  predicate Sound(m: Medium) {
    && Backed(m.durable, m.blobs)
    && (forall i | 0 <= i < |m.pending| :: m.pending[i].synced && Backed(m.pending[i].root, m.blobs) && m.durable.txId < m.pending[i].root.txId)
    && (forall i, j | 0 <= i < j < |m.pending| :: m.pending[i].root.txId < m.pending[j].root.txId)
  }

  lemma SoundOpens(m: Medium)
    requires Sound(m)
    ensures WellTyped(Visible(m)) && Reopen(m) == Some(DiskOf(Visible(m)))
  {
    assert Backed(Visible(m), m.blobs);
  }

  lemma ReturnedBacked(m: Medium, root: Root)
    requires Sound(m) && MayReturn(m, root)
    ensures Backed(root, m.blobs)
  {
  }

  /** After a crash a sound medium reopens to a root that may return. */
  lemma SoundReopens(m: Medium, m': Medium)
    requires Sound(m) && CrashOutcome(m, m')
    ensures MayReturn(m, m'.durable) && WellTyped(m'.durable) && Reopen(m') == Some(DiskOf(m'.durable))
  {
    ReturnedBacked(m, m'.durable);
    assert Backed(m'.durable, m'.blobs);
  }

  /** The crash after which only `root` had reached the disk. */
  function CrashTo(m: Medium, root: Root): Medium { Medium(m.blobs, root, [], None) }

  lemma CrashToOutcome(m: Medium, root: Root)
    requires Sound(m) && MayReturn(m, root)
    ensures CrashOutcome(m, CrashTo(m, root)) && WellTyped(root) && Reopen(CrashTo(m, root)) == Some(DiskOf(root))
  {
    ReturnedBacked(m, root);
  }

  // ----------------------------------------------------------------- the commit

  datatype Write = Write(id: string, content: Content)

  function BlobSteps(writes: seq<Write>): seq<DiskStep> {
    if writes == [] then []
    else BlobSteps(writes[..|writes| - 1]) + [WriteBlob(writes[|writes| - 1].id, writes[|writes| - 1].content),
                                              SyncBlob(writes[|writes| - 1].id), SyncDirectory(writes[|writes| - 1].id)]
  }

  function RootSteps(root: Root): seq<DiskStep> { [WriteRoot(root), SyncRoot, RenameRoot, SyncRootDirectory] }

  function PersistSteps(writes: seq<Write>, root: Root): seq<DiskStep> { BlobSteps(writes) + RootSteps(root) }

  predicate IdsFresh(writes: seq<Write>, blobs: map<string, Blob>) {
    && (forall i | 0 <= i < |writes| :: writes[i].id !in blobs)
    && (forall i, j | 0 <= i < j < |writes| :: writes[i].id != writes[j].id)
  }

  predicate WrittenBy(r: Ref, writes: seq<Write>) { exists i :: 0 <= i < |writes| && writes[i] == Write(r.id, r.digest) }

  predicate Supplied(r: Ref, prior: Root, writes: seq<Write>) {
    || WrittenBy(r, writes)
    || (exists k :: k in prior.lineages && prior.lineages[k] == r)
    || (exists p :: p in prior.buckets && prior.buckets[p] == r)
  }

  /** The new root is the next one and refers to blobs the old one refers to or the
      transaction writes. */
  predicate Extends(root: Root, prior: Root, writes: seq<Write>) {
    && WellTyped(root) && root.txId == prior.txId + 1
    && (forall k | k in root.lineages :: Supplied(root.lineages[k], prior, writes))
    && (forall p | p in root.buckets :: Supplied(root.buckets[p], prior, writes))
  }

  // ------------------------------------------------------------ before the swap

  /** A step that touches no file the medium held when the transaction began, and
      no root that a reader could see. */
  predicate Harmless(step: DiskStep, m: Medium) {
    match step
    case WriteBlob(id, _) => id !in m.blobs
    case SyncBlob(id) => id !in m.blobs
    case SyncDirectory(id) => id !in m.blobs
    case RemoveBlob(id) => id !in m.blobs
    case RemoveTemp => true
    case WriteRoot(_) => true
    case SyncRoot => true
    case RenameRoot => false
    case SyncRootDirectory => false
  }

  predicate AllHarmless(steps: seq<DiskStep>, m: Medium) { forall i | 0 <= i < |steps| :: Harmless(steps[i], m) }

  /** The old files and roots are as they were. */
  predicate Kept(m: Medium, now: Medium) {
    && now.durable == m.durable && now.pending == m.pending
    && forall id | id in m.blobs :: id in now.blobs && now.blobs[id] == m.blobs[id]
  }

  lemma {:induction false} HarmlessKeeps(m: Medium, steps: seq<DiskStep>)
    requires AllHarmless(steps, m)
    ensures Kept(m, Run(m, steps))
  {
    if steps != [] {
      HarmlessKeeps(m, steps[..|steps| - 1]);
      assert Harmless(steps[|steps| - 1], m);
    }
  }

  lemma {:induction false} BlobStepsHarmless(m: Medium, writes: seq<Write>)
    requires IdsFresh(writes, m.blobs)
    ensures AllHarmless(BlobSteps(writes), m)
  {
    if writes != [] { BlobStepsHarmless(m, writes[..|writes| - 1]); }
  }

  lemma {:induction false} RunConcat(m: Medium, a: seq<DiskStep>, b: seq<DiskStep>)
    ensures Run(m, a + b) == Run(Run(m, a), b)
  {
    if b == [] {
      assert a + b == a;
    } else {
      RunConcat(m, a, b[..|b| - 1]);
      assert (a + b)[..|a + b| - 1] == a + b[..|b| - 1];
    }
  }

  lemma ThreeSteps(m: Medium, id: string, content: Content)
    ensures Run(m, [WriteBlob(id, content), SyncBlob(id), SyncDirectory(id)]) == m.(blobs := m.blobs[id := Blob(content, true, true)])
  {
    var steps := [WriteBlob(id, content), SyncBlob(id), SyncDirectory(id)];
    assert steps[..2] == [WriteBlob(id, content), SyncBlob(id)] && steps[..2][..1] == [WriteBlob(id, content)] && steps[..2][..1][..0] == [];
    assert Run(m, [WriteBlob(id, content)]) == Exec(m, WriteBlob(id, content));
    assert Run(m, steps[..2]) == Exec(Exec(m, WriteBlob(id, content)), SyncBlob(id));
  }

  /** Once its blob steps are done, everything the transaction wrote is durable. */
  lemma {:induction false} WritesDurable(m: Medium, writes: seq<Write>)
    requires IdsFresh(writes, m.blobs)
    ensures forall i | 0 <= i < |writes| :: Durable(Ref(writes[i].id, writes[i].content), Run(m, BlobSteps(writes)).blobs)
  {
    if writes != [] {
      var last := writes[|writes| - 1];
      var before := BlobSteps(writes[..|writes| - 1]);
      WritesDurable(m, writes[..|writes| - 1]);
      RunConcat(m, before, [WriteBlob(last.id, last.content), SyncBlob(last.id), SyncDirectory(last.id)]);
      ThreeSteps(Run(m, before), last.id, last.content);
    }
  }

  lemma SuppliedDurable(r: Ref, m: Medium, prior: Root, writes: seq<Write>)
    requires Backed(prior, m.blobs) && IdsFresh(writes, m.blobs) && Supplied(r, prior, writes)
    ensures Durable(r, Run(m, BlobSteps(writes)).blobs)
  {
    WritesDurable(m, writes);
    BlobStepsHarmless(m, writes);
    HarmlessKeeps(m, BlobSteps(writes));
  }

  lemma KeptSound(m: Medium, now: Medium)
    requires Sound(m) && Kept(m, now)
    ensures Sound(now)
  {
  }

  // -------------------------------------------------------------------- the swap

  lemma NewRootBacked(m: Medium, writes: seq<Write>, root: Root)
    requires Sound(m) && IdsFresh(writes, m.blobs) && Extends(root, Visible(m), writes)
    ensures Backed(root, Run(m, BlobSteps(writes)).blobs)
  {
    hide Run, BlobSteps, Supplied;
    assert Backed(Visible(m), m.blobs);
    forall k | k in root.lineages ensures Durable(root.lineages[k], Run(m, BlobSteps(writes)).blobs) {
      SuppliedDurable(root.lineages[k], m, Visible(m), writes);
    }
    forall p | p in root.buckets ensures Durable(root.buckets[p], Run(m, BlobSteps(writes)).blobs) {
      SuppliedDurable(root.buckets[p], m, Visible(m), writes);
    }
  }

  function Swapped(m: Medium, root: Root, n: nat): Medium {
    if n == 0 then m
    else if n == 1 then m.(temp := Some(RootFile(root, false)))
    else if n == 2 then m.(temp := Some(RootFile(root, true)))
    else if n == 3 then m.(temp := None, pending := m.pending + [RootFile(root, true)])
    else m.(temp := None, pending := [], durable := root)
  }

  lemma RootStepsRun(m: Medium, root: Root, n: nat)
    requires n <= 4
    ensures Run(m, RootSteps(root)[..n]) == Swapped(m, root, n)
  {
    var steps := RootSteps(root);
    assert steps[..0] == [];
    if n >= 1 { assert steps[..1][..0] == []; assert Run(m, steps[..1]) == Swapped(m, root, 1); }
    if n >= 2 { assert steps[..2][..1] == steps[..1]; assert Run(m, steps[..2]) == Swapped(m, root, 2); }
    if n >= 3 { assert steps[..3][..2] == steps[..2]; assert Run(m, steps[..3]) == Swapped(m, root, 3); }
    if n >= 4 { assert steps[..4][..3] == steps[..3]; assert Run(m, steps[..4]) == Swapped(m, root, 4); }
  }

  lemma RenamedSound(m: Medium, root: Root)
    requires Sound(m) && Backed(root, m.blobs) && root.txId == Visible(m).txId + 1
    ensures Sound(Swapped(m, root, 3)) && Sound(Swapped(m, root, 4))
  {
  }

  /** Where a transaction is after `n` of its steps: until the rename the roots are as
      they were, then the new one is pending, and the last step settles everything. */
  predicate Reached(m: Medium, root: Root, now: Medium, left: nat) {
    && Sound(now)
    && (left > 1 ==> now.durable == m.durable && now.pending == m.pending)
    && (left == 1 ==> now.durable == m.durable && now.pending == m.pending + [RootFile(root, true)])
    && (left == 0 ==> now.durable == root && now.pending == [])
  }

  /** A transaction cut short anywhere leaves a sound medium. */
  lemma TransactionSound(m: Medium, writes: seq<Write>, root: Root, n: nat)
    requires Sound(m) && IdsFresh(writes, m.blobs) && Extends(root, Visible(m), writes) && n <= |PersistSteps(writes, root)|
    ensures Reached(m, root, Run(m, PersistSteps(writes, root)[..n]), |PersistSteps(writes, root)| - n)
  {
    hide BlobSteps, Supplied, IdsFresh, Backed;
    var blobs, steps := BlobSteps(writes), PersistSteps(writes, root);
    BlobStepsHarmless(m, writes);
    if n <= |blobs| {
      assert steps[..n] == blobs[..n];
      HarmlessKeeps(m, blobs[..n]);
      KeptSound(m, Run(m, blobs[..n]));
    } else {
      var k := n - |blobs|;
      assert steps[..n] == blobs + RootSteps(root)[..k];
      RunConcat(m, blobs, RootSteps(root)[..k]);
      HarmlessKeeps(m, blobs);
      var written := Run(m, blobs);
      RootStepsRun(written, root, k);
      KeptSound(m, written);
      NewRootBacked(m, writes, root);
      RenamedSound(written, root);
    }
  }

  /** A process that dies at any point of a transaction leaves exactly the state
      before it, or, once the rename is done, exactly the state after it. */
  lemma ProcessCrashAtomic(m: Medium, writes: seq<Write>, root: Root, n: nat)
    requires Sound(m) && IdsFresh(writes, m.blobs) && Extends(root, Visible(m), writes) && n <= |PersistSteps(writes, root)|
    ensures WellTyped(Visible(m))
    ensures Reopen(Run(m, PersistSteps(writes, root)[..n])) ==
            Some(DiskOf(if n < |PersistSteps(writes, root)| - 1 then Visible(m) else root))
  {
    hide Run, PersistSteps, IdsFresh, Sound, Reopen, DiskOf;
    TransactionSound(m, writes, root, n);
    SoundOpens(m);
    SoundOpens(Run(m, PersistSteps(writes, root)[..n]));
  }

  /** A machine that crashes at any point of a transaction comes back with a root that
      could return before it or with the new one; with the new one for sure once all steps are done. */
  lemma CrashReopens(m: Medium, writes: seq<Write>, root: Root, n: nat, m': Medium)
    requires Sound(m) && IdsFresh(writes, m.blobs) && Extends(root, Visible(m), writes)
    requires n <= |PersistSteps(writes, root)| && CrashOutcome(Run(m, PersistSteps(writes, root)[..n]), m')
    ensures WellTyped(m'.durable) && Reopen(m') == Some(DiskOf(m'.durable))
    ensures MayReturn(m, m'.durable) || m'.durable == root
    ensures n < |PersistSteps(writes, root)| - 1 ==> MayReturn(m, m'.durable)
    ensures n == |PersistSteps(writes, root)| ==> m'.durable == root
  {
    hide Run, PersistSteps, IdsFresh, Sound, Reopen, DiskOf, CrashOutcome;
    TransactionSound(m, writes, root, n);
    SoundReopens(Run(m, PersistSteps(writes, root)[..n]), m');
  }

  /** A crash at every point of the transaction leaves the disk before it or after it. */
  ghost predicate Atomic(m: Medium, writes: seq<Write>, root: Root)
    requires WellTyped(Visible(m)) && WellTyped(root)
  {
    forall n: nat, m' | n <= |PersistSteps(writes, root)| && CrashOutcome(Run(m, PersistSteps(writes, root)[..n]), m') ::
      Reopen(m') == Some(DiskOf(Visible(m))) || Reopen(m') == Some(DiskOf(root))
  }

  /** A transaction is atomic under crashes of the machine exactly when no rename
      before it still waits for its directory to be synced. */
  lemma CrashAtomicIff(m: Medium, writes: seq<Write>, root: Root)
    requires Sound(m) && IdsFresh(writes, m.blobs) && Extends(root, Visible(m), writes)
    ensures WellTyped(Visible(m)) && (Atomic(m, writes, root) <==> m.pending == [])
  {
    hide Run, PersistSteps, IdsFresh, CrashOutcome, Reopen, Supplied;
    SoundOpens(m);
    if m.pending == [] {
      forall n: nat, m' | n <= |PersistSteps(writes, root)| && CrashOutcome(Run(m, PersistSteps(writes, root)[..n]), m')
        ensures Reopen(m') == Some(DiskOf(Visible(m))) || Reopen(m') == Some(DiskOf(root))
      {
        CrashReopens(m, writes, root, n, m');
      }
    } else {
      RenameForgotten(m, writes, root);
    }
  }

  /** With a rename pending, a crash before the transaction has done anything comes
      back with a disk that is neither the one before it nor the one after it. */
  lemma RenameForgotten(m: Medium, writes: seq<Write>, root: Root)
    requires Sound(m) && m.pending != [] && Extends(root, Visible(m), writes)
    ensures WellTyped(Visible(m)) && !Atomic(m, writes, root)
    ensures CrashOutcome(m, CrashTo(m, m.durable)) && Reopen(CrashTo(m, m.durable)) == Some(DiskOf(m.durable))
    ensures DiskOf(m.durable) != DiskOf(Visible(m)) && DiskOf(m.durable) != DiskOf(root)
  {
    hide CrashOutcome, Reopen;
    SoundOpens(m);
    CrashToOutcome(m, m.durable);
    var n: nat := 0;
    assert PersistSteps(writes, root)[..n] == [];
    assert Run(m, PersistSteps(writes, root)[..n]) == m;
    assert DiskOf(m.durable).txId < DiskOf(Visible(m)).txId < DiskOf(root).txId;
  }

  /** How a rename comes to be pending: a directory sync that fails. The store then
      shows the new state, and a crash can still bring the old one back. */
  lemma FailedSyncForgets(m: Medium, writes: seq<Write>, root: Root)
    requires Sound(m) && m.pending == [] && IdsFresh(writes, m.blobs) && Extends(root, m.durable, writes)
    ensures var now := Run(m, PersistSteps(writes, root)[..|PersistSteps(writes, root)| - 1]);
            && Sound(now) && now.durable == m.durable && now.pending == [RootFile(root, true)] && Reopen(now) == Some(DiskOf(root))
            && CrashOutcome(now, CrashTo(now, m.durable)) && Reopen(CrashTo(now, m.durable)) == Some(DiskOf(m.durable))
  {
    hide Run, BlobSteps, IdsFresh, CrashOutcome, Reopen, Sound, DiskOf;
    var n := |PersistSteps(writes, root)| - 1;
    TransactionSound(m, writes, root, n);
    ProcessCrashAtomic(m, writes, root, n);
    CrashToOutcome(Run(m, PersistSteps(writes, root)[..n]), m.durable);
  }

  /** A transaction that fails before the rename, and removes any part of what it
      wrote, leaves the old state to a reader, and a crash then leaves what a crash
      before it would have left. */
  lemma FailureHarmless(m: Medium, steps: seq<DiskStep>, m': Medium)
    requires Sound(m) && AllHarmless(steps, m) && CrashOutcome(Run(m, steps), m')
    ensures Sound(Run(m, steps)) && WellTyped(Visible(m)) && Reopen(Run(m, steps)) == Some(DiskOf(Visible(m)))
    ensures MayReturn(m, m'.durable) && WellTyped(m'.durable) && Reopen(m') == Some(DiskOf(m'.durable))
  {
    hide Reopen, CrashOutcome, Run;
    HarmlessKeeps(m, steps);
    KeptSound(m, Run(m, steps));
    SoundReopens(Run(m, steps), m');
    SoundOpens(Run(m, steps));
  }
}

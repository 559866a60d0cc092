/** What opening a version gives back, and when that is what was saved. */
module Recovery {
  import opened Blocks
  import opened Metadata
  import opened Store
  import opened Pager
  import opened PagerLemmas
  import opened World
  import opened WorldLemmas
  import Flush

  ghost predicate Openable(w: World, path: string) {
    path in w.versions && IsComplete(w.versions[path])
  }

  /** The version has a metadata file, so no snapshot may take its name. */
  ghost predicate HasMetadata(w: World, path: string) {
    path in w.versions && w.versions[path].metadata.Some?
  }

  ghost function BlocksOf(c: Config, w: World, path: string): nat
    requires path in w.versions
  {
    NumBlocks(c, CapacityOf(w.versions[path]))
  }

  ghost function IdsOf(c: Config, w: World, path: string): (ids: seq<Id>)
    requires Openable(w, path)
    ensures |ids| == BlocksOf(c, w, path)
  {
    LoadedIds(w.versions[path].metadata.value, BlocksOf(c, w, path))
  }

  /** Block i as a session that opens the version now will see it. */
  ghost function Recovered(c: Config, w: World, path: string, i: nat): Bytes
    requires Openable(w, path) && i < BlocksOf(c, w, path)
  {
    Content(c, w.disk.files, IdsOf(c, w, path)[i])
  }

  /** Opening a version, for reading or for writing, shows exactly its recovered contents. */
  lemma OpenShowsRecovered(c: Config, u: iset<Bytes>, w: World, k: nat, path: string, budget: nat, readOnly: bool)
    requires Sound(c, u) && WorldOk(c, u, w) && Enabled(c, u, w, Open(k, path, budget, readOnly)) && Openable(w, path)
    ensures var w' := OpenStep(c, w, k, path, budget, readOnly);
            && k in w'.sessions && |View(w', k).ids| == BlocksOf(c, w, path)
            && |View(w', k).mem| == BlocksOf(c, w, path)
            && w'.versions == w.versions && View(w', k).readOnly == readOnly && View(w', k).budget == budget
            && forall i | 0 <= i < BlocksOf(c, w, path) :: Logical(c, View(w', k), i) == Recovered(c, w, path, i)
  {
    LoadedIdsOk(c, u, w, path);
    NewPagerOk(c, u, budget, readOnly, IdsOf(c, w, path), w.disk);
  }

  lemma RecoveredStays(c: Config, u: iset<Bytes>, w: World, path: string, files: map<FileName, Bytes>, i: nat)
    requires Sound(c, u) && WorldOk(c, u, w) && Openable(w, path) && i < BlocksOf(c, w, path)
    requires Named(c, u, files) && w.disk.files.Keys <= files.Keys
    ensures Content(c, files, IdsOf(c, w, path)[i]) == Recovered(c, w, path, i)
  {
    LoadedIdsOk(c, u, w, path);
    ContentStable(c, u, w.disk.files, files, IdsOf(c, w, path)[i]);
  }

  // ---------- msync ----------

  /** The ids of a version whose metadata was just written. */
  lemma WrittenIds(c: Config, u: iset<Bytes>, w: World, w': World, path: string, q: Pager)
    requires WorldOk(c, u, w) && WroteMetadata(w.versions, w'.versions, path, q) && BlocksOf(c, w, path) == |q.ids|
    ensures Openable(w, path) && Openable(w', path) && w'.versions[path].capacity == w.versions[path].capacity
    ensures IdsOf(c, w', path) == q.ids[..RecordsWritten(q)] + IdsOf(c, w, path)[RecordsWritten(q)..]
  {
    assert VersionOk(c, w.disk.files, w.versions[path]);
    RecoveredIds(q, w.versions[path].metadata.value);
  }

  /** What a version's ids are after msync by a process that has it open. */
  lemma SyncedIds(c: Config, u: iset<Bytes>, w: World, k: nat, order: seq<nat>, commits: seq<nat>)
    returns (w': World, q: Pager)
    requires Sound(c, u) && WorldOk(c, u, w) && k in w.sessions && Flush.Orders(View(w, k), order, commits)
    ensures SyncStep(c, w, k, order, commits) == w' && FlushReady(View(w, k), order, commits)
    ensures Flush.MSync(c, View(w, k), order, commits) == Some(q)
    ensures var path := w.sessions[k].path;
            && Openable(w, path) && Openable(w', path) && w'.versions[path].capacity == w.versions[path].capacity
            && RecordsWritten(q) <= |q.ids| == |IdsOf(c, w, path)|
            && IdsOf(c, w', path) == q.ids[..RecordsWritten(q)] + IdsOf(c, w, path)[RecordsWritten(q)..]
  {
    w', q := SyncStepKeeps(c, u, w, k, order, commits);
    SessionBlocks(c, u, w, k);
    WrittenIds(c, u, w, w', w.sessions[k].path, q);
  }

  lemma SessionBlocks(c: Config, u: iset<Bytes>, w: World, k: nat)
    requires WorldOk(c, u, w) && k in w.sessions
    ensures Openable(w, w.sessions[k].path) && BlocksOf(c, w, w.sessions[k].path) == |View(w, k).ids|
  {
    assert SessionOk(c, u, w.versions, w.disk, w.sessions[k]);
  }

  lemma NamedFiles(c: Config, u: iset<Bytes>, w: World)
    requires WorldOk(c, u, w)
    ensures Named(c, u, w.disk.files)
  {
  }

  /** Block i of a version whose metadata was just written from a flushed pager. */
  lemma WrittenBlock(c: Config, u: iset<Bytes>, w: World, w': World, path: string, q: Pager, i: nat)
    requires Sound(c, u) && WorldOk(c, u, w) && WorldOk(c, u, w') && w.disk.files.Keys <= w'.disk.files.Keys
    requires WroteMetadata(w.versions, w'.versions, path, q) && BlocksOf(c, w, path) == |q.ids| && i < |q.ids|
    ensures Openable(w, path) && Openable(w', path) && BlocksOf(c, w', path) == |q.ids|
    ensures Recovered(c, w', path, i)
            == if UpToHighest(q.present, i) then Content(c, w'.disk.files, q.ids[i]) else Recovered(c, w, path, i)
  {
    WrittenIds(c, u, w, w', path, q);
    NamedFiles(c, u, w');
    RecoveredStays(c, u, w, path, w'.disk.files, i);
  }

  /**
    After msync, opening the version recovers each block up to the highest
    resident one as it is live, and each block above as the version held it before.
   */
  lemma SyncRecovers(c: Config, u: iset<Bytes>, w: World, k: nat, order: seq<nat>, commits: seq<nat>, i: nat)
    requires Sound(c, u) && WorldOk(c, u, w) && k in w.sessions && Flush.Orders(View(w, k), order, commits)
    requires i < |View(w, k).ids|
    ensures var w' := SyncStep(c, w, k, order, commits);
            var path := w.sessions[k].path;
            && Openable(w, path) && Openable(w', path)
            && BlocksOf(c, w, path) == BlocksOf(c, w', path) == |View(w, k).ids| == |View(w, k).mem|
            && Recovered(c, w', path, i)
               == if UpToHighest(View(w, k).present, i) then Logical(c, View(w, k), i) else Recovered(c, w, path, i)
  {
    assert SessionOk(c, u, w.versions, w.disk, w.sessions[k]);
    var w', q := SyncStepKeeps(c, u, w, k, order, commits);
    WrittenBlock(c, u, w, w', w.sessions[k].path, q, i);
  }

  /** msync saves the live contents exactly when the blocks above the highest resident one were saved before. */
  lemma SyncRecoversAllIff(c: Config, u: iset<Bytes>, w: World, k: nat, order: seq<nat>, commits: seq<nat>)
    requires Sound(c, u) && WorldOk(c, u, w) && k in w.sessions && Flush.Orders(View(w, k), order, commits)
    ensures var w', p, path := SyncStep(c, w, k, order, commits), View(w, k), w.sessions[k].path;
            && Openable(w, path) && Openable(w', path)
            && BlocksOf(c, w, path) == BlocksOf(c, w', path) == |p.ids| == |p.mem|
            && ((forall i | 0 <= i < |p.ids| :: Recovered(c, w', path, i) == Logical(c, p, i))
                <==> forall i | 0 <= i < |p.ids| && !UpToHighest(p.present, i) ::
                       Recovered(c, w, path, i) == Logical(c, p, i))
  {
    var w', p, path := SyncStep(c, w, k, order, commits), View(w, k), w.sessions[k].path;
    assert SessionOk(c, u, w.versions, w.disk, w.sessions[k]);
    var s, q := SyncStepKeeps(c, u, w, k, order, commits);
    forall i | 0 <= i < |p.ids|
      ensures Recovered(c, w', path, i)
              == if UpToHighest(p.present, i) then Logical(c, p, i) else Recovered(c, w, path, i)
    {
      SyncRecovers(c, u, w, k, order, commits, i);
    }
  }

  // ---------- Snapshots ----------

  lemma NewlyWrittenId(q: Pager, i: nat)
    requires AllIds(q.ids) && RecordsWritten(q) <= |q.ids| && i < |q.ids|
    ensures LoadedIds(UpdatedMetadata("", q), |q.ids|)[i]
            == if UpToHighest(q.present, i) then q.ids[i] else EmptyBlockHash()
  {
    RecoveredIds(q, "");
  }

  lemma NewlyWrittenBlock(c: Config, u: iset<Bytes>, w: World, path: string, q: Pager, i: nat)
    requires Sound(c, u) && DiskOk(c, u, w.disk) && Openable(w, path) && BlocksOf(c, w, path) == |q.ids|
    requires i < |q.ids| && AllIds(q.ids) && RecordsWritten(q) <= |q.ids|
    requires w.versions[path].metadata == Some(UpdatedMetadata("", q))
    ensures Recovered(c, w, path, i)
            == if UpToHighest(q.present, i) then Content(c, w.disk.files, q.ids[i]) else Zeros(c.blockSize)
  {
    NewlyWrittenId(q, i);
    EmptyIsNoFile(c, u, w.disk.files, Base);
  }

  /** A snapshot starts from an empty file: above the highest resident block it recovers zeros. */
  lemma SnapshotRecovers(c: Config, u: iset<Bytes>, w: World, k: nat, path: string, order: seq<nat>,
                         commits: seq<nat>, i: nat)
    requires Sound(c, u) && WorldOk(c, u, w) && k in w.sessions && Flush.Orders(View(w, k), order, commits)
    requires !HasMetadata(w, path) && i < |View(w, k).ids|
    ensures var w' := SnapshotStep(c, w, k, path, order, commits);
            && Openable(w', path) && BlocksOf(c, w', path) == |View(w, k).ids| == |View(w, k).mem|
            && Recovered(c, w', path, i)
               == if UpToHighest(View(w, k).present, i) then Logical(c, View(w, k), i) else Zeros(c.blockSize)
  {
    assert SessionOk(c, u, w.versions, w.disk, w.sessions[k]);
    var w', q := SnapshotStepKeeps(c, u, w, k, path, order, commits);
    NewlyWrittenBlock(c, u, w', path, q, i);
  }

  /** A snapshot saves the live contents exactly when every block above the highest resident one is all zeros. */
  lemma SnapshotRecoversAllIff(c: Config, u: iset<Bytes>, w: World, k: nat, path: string, order: seq<nat>,
                               commits: seq<nat>)
    requires Sound(c, u) && WorldOk(c, u, w) && k in w.sessions && Flush.Orders(View(w, k), order, commits)
    requires !HasMetadata(w, path)
    ensures var w', p := SnapshotStep(c, w, k, path, order, commits), View(w, k);
            && Openable(w', path) && BlocksOf(c, w', path) == |p.ids| == |p.mem|
            && ((forall i | 0 <= i < |p.ids| :: Recovered(c, w', path, i) == Logical(c, p, i))
                <==> forall i | 0 <= i < |p.ids| && !UpToHighest(p.present, i) ::
                       Logical(c, p, i) == Zeros(c.blockSize))
  {
    var w', p := SnapshotStep(c, w, k, path, order, commits), View(w, k);
    assert SessionOk(c, u, w.versions, w.disk, w.sessions[k]);
    var s, q := SnapshotStepKeeps(c, u, w, k, path, order, commits);
    forall i | 0 <= i < |p.ids|
      ensures Recovered(c, w', path, i) == if UpToHighest(p.present, i) then Logical(c, p, i) else Zeros(c.blockSize)
    {
      SnapshotRecovers(c, u, w, k, path, order, commits, i);
    }
  }
}

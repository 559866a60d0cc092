/** Every step of every process keeps the world's invariant, and leaves the other processes' contents alone. */
module WorldLemmas {
  import opened Blocks
  import opened Metadata
  import opened Store
  import opened Pager
  import opened PagerLemmas
  import opened World
  import Access
  import Flush
  import FlushLemmas

  // ---------- Processes that share a disk ----------

  /** Whatever another process does to the disk, a stashed block of this one keeps its stash file. */
  lemma StashFileStays(c: Config, u: iset<Bytes>, p: Pager, d: Disk, a: Storage, t: Storage, i: nat)
    requires StorageOk(c, u, Attach(p, d).store) && a.disk == d && Evolves(a, t) && StashApart(a, p.store)
    requires i in p.store.stashIds
    ensures p.store.stashIds[i] in t.disk.stash && t.disk.stash[p.store.stashIds[i]] == d.stash[p.store.stashIds[i]]
  {
    assert p.store.stashIds[i] !in a.stashIds.Values;
  }

  lemma OtherBlock(c: Config, u: iset<Bytes>, p: Pager, d: Disk, a: Storage, t: Storage, i: nat)
    requires Sound(c, u) && PagerOk(c, u, Attach(p, d)) && DiskOk(c, u, t.disk)
    requires a.disk == d && Evolves(a, t) && StashApart(a, p.store) && i < |p.ids|
    ensures var q := Attach(p, t.disk);
            && PageOk(c, u, q, i) && IdOk(c, q.store, i, q.ids[i]) && Logical(c, q, i) == Logical(c, Attach(p, d), i)
  {
    assert PageOk(c, u, Attach(p, d), i) && IdOk(c, Attach(p, d).store, i, p.ids[i]);
    ContentStable(c, u, d.files, t.disk.files, p.ids[i]);
    if i in p.store.stashIds {
      StashFileStays(c, u, p, d, a, t, i);
    }
  }

  /** A process keeps to its own stash files and new ones, so to files no other has. */
  lemma StillApart(c: Config, u: iset<Bytes>, other: Storage, a: Storage, t: Storage)
    requires DiskOk(c, u, a.disk) && StashIdsOk(other) && other.disk == a.disk
    requires Evolves(a, t) && StashApart(a, other)
    ensures StashApart(t, other) && StashApart(other, t)
  {
    forall i, j | i in t.stashIds && j in other.stashIds
      ensures t.stashIds[i] != other.stashIds[j]
    {
      assert other.stashIds[j] in a.disk.stash;
    }
  }

  /** Another process's step: this one's invariant and contents stay, and the two still share no stash file. */
  lemma OtherProcess(c: Config, u: iset<Bytes>, p: Pager, d: Disk, a: Storage, t: Storage)
    requires Sound(c, u) && PagerOk(c, u, Attach(p, d)) && DiskOk(c, u, t.disk)
    requires a.disk == d && Evolves(a, t) && StashApart(a, p.store)
    ensures PagerOk(c, u, Attach(p, t.disk)) && SameContents(c, Attach(p, d), Attach(p, t.disk))
    ensures StashApart(t, p.store) && StashApart(p.store, t)
  {
    var q := Attach(p, t.disk);
    forall i | i in p.store.stashIds
      ensures p.store.stashIds[i] in t.disk.stash
    {
      StashFileStays(c, u, p, d, a, t, i);
    }
    forall i | 0 <= i < |p.ids|
      ensures PageOk(c, u, q, i) && IdOk(c, q.store, i, q.ids[i]) && Logical(c, q, i) == Logical(c, Attach(p, d), i)
    {
      OtherBlock(c, u, p, d, a, t, i);
    }
    StillApart(c, u, Attach(p, d).store, a, t);
  }

  lemma VersionStaysOk(c: Config, files: map<FileName, Bytes>, files': map<FileName, Bytes>, v: Version)
    requires VersionOk(c, files, v) && files.Keys <= files'.Keys
    ensures VersionOk(c, files', v)
  {
  }

  /** What a step of process `k` establishes about its own pager. */
  ghost predicate Advances(c: Config, u: iset<Bytes>, p: Pager, q: Pager) {
    PagerOk(c, u, q) && Evolves(p.store, q.store) && SameRegion(p, q)
  }

  /** What process k's storage becomes leaves process j's session and contents alone. */
  lemma EvolvedOther(c: Config, u: iset<Bytes>, w: World, k: nat, t: Storage, j: nat)
    requires Sound(c, u) && WorldOk(c, u, w) && k in w.sessions && j in w.sessions && j != k
    requires StorageOk(c, u, t) && Evolves(View(w, k).store, t)
    ensures SessionOk(c, u, w.versions, t.disk, w.sessions[j])
    ensures SameContents(c, View(w, j), Attach(w.sessions[j].pager, t.disk))
  {
    assert SessionOk(c, u, w.versions, w.disk, w.sessions[j]);
    OtherProcess(c, u, w.sessions[j].pager, w.disk, View(w, k).store, t);
  }

  lemma PutOther(c: Config, u: iset<Bytes>, w: World, k: nat, q: Pager, j: nat)
    requires Sound(c, u) && WorldOk(c, u, w) && k in w.sessions && Advances(c, u, View(w, k), q)
    requires j in w.sessions && j != k
    ensures var w' := Put(w, k, w.sessions[k], q);
            && SessionOk(c, u, w.versions, q.store.disk, w'.sessions[j])
            && SameContents(c, View(w, j), View(w', j))
  {
    EvolvedOther(c, u, w, k, q.store, j);
  }

  lemma PutOwn(c: Config, u: iset<Bytes>, w: World, k: nat, q: Pager)
    requires WorldOk(c, u, w) && k in w.sessions && Advances(c, u, View(w, k), q)
    ensures SessionOk(c, u, w.versions, q.store.disk, w.sessions[k].(pager := q))
    ensures View(Put(w, k, w.sessions[k], q), k) == q
    ensures DiskOk(c, u, q.store.disk)
    ensures forall path | path in w.versions :: VersionOk(c, q.store.disk.files, w.versions[path])
  {
    assert SessionOk(c, u, w.versions, w.disk, w.sessions[k]);
    assert Attach(q, q.store.disk) == q;
    forall path | path in w.versions
      ensures VersionOk(c, q.store.disk.files, w.versions[path])
    {
      VersionStaysOk(c, w.disk.files, q.store.disk.files, w.versions[path]);
    }
  }

  lemma Apart(c: Config, u: iset<Bytes>, w: World, i: nat, j: nat)
    requires WorldOk(c, u, w) && i in w.sessions && j in w.sessions && i != j
    ensures StashApart(w.sessions[i].pager.store, w.sessions[j].pager.store)
  {
  }

  lemma NewApart(c: Config, u: iset<Bytes>, w: World, k: nat, q: Pager, j: nat)
    requires Sound(c, u) && WorldOk(c, u, w) && k in w.sessions && Advances(c, u, View(w, k), q)
    requires j in w.sessions && j != k
    ensures StashApart(q.store, w.sessions[j].pager.store) && StashApart(w.sessions[j].pager.store, q.store)
  {
    Apart(c, u, w, k, j);
    SessionPagerOk(c, u, w, j);
    StillApart(c, u, View(w, j).store, View(w, k).store, q.store);
  }

  ghost predicate AllApart(sessions: map<nat, Session>) {
    forall i, j | i in sessions && j in sessions && i != j ::
      StashApart(sessions[i].pager.store, sessions[j].pager.store)
  }

  lemma PutApart(sessions: map<nat, Session>, k: nat, s: Session)
    requires AllApart(sessions)
    requires forall j | j in sessions && j != k ::
               StashApart(s.pager.store, sessions[j].pager.store) && StashApart(sessions[j].pager.store, s.pager.store)
    ensures AllApart(sessions[k := s])
  {
  }

  lemma PutKeeps(c: Config, u: iset<Bytes>, w: World, k: nat, q: Pager)
    requires Sound(c, u) && WorldOk(c, u, w) && k in w.sessions && Advances(c, u, View(w, k), q)
    ensures WorldOk(c, u, Put(w, k, w.sessions[k], q))
    ensures View(Put(w, k, w.sessions[k], q), k) == q
  {
    var w' := Put(w, k, w.sessions[k], q);
    PutOwn(c, u, w, k, q);
    forall j | j in w.sessions && j != k
      ensures SessionOk(c, u, w'.versions, w'.disk, w'.sessions[j])
    {
      PutOther(c, u, w, k, q, j);
    }
    forall j | j in w.sessions && j != k
      ensures StashApart(q.store, w.sessions[j].pager.store) && StashApart(w.sessions[j].pager.store, q.store)
    {
      NewApart(c, u, w, k, q, j);
    }
    PutApart(w.sessions, k, w.sessions[k].(pager := q));
  }

  lemma EvolvedVersion(c: Config, u: iset<Bytes>, w: World, k: nat, t: Storage, path: string)
    requires WorldOk(c, u, w) && k in w.sessions && Evolves(View(w, k).store, t) && path in w.versions
    ensures VersionOk(c, t.disk.files, w.versions[path])
  {
    VersionStaysOk(c, w.disk.files, t.disk.files, w.versions[path]);
  }

  lemma DiedKeeps(c: Config, u: iset<Bytes>, w: World, k: nat, t: Storage)
    requires Sound(c, u) && WorldOk(c, u, w) && k in w.sessions
    requires StorageOk(c, u, t) && Evolves(View(w, k).store, t)
    ensures WorldOk(c, u, Died(w, k, t))
  {
    var w' := Died(w, k, t);
    forall path | path in w'.versions
      ensures VersionOk(c, w'.disk.files, w'.versions[path])
    {
      EvolvedVersion(c, u, w, k, t, path);
    }
    forall j | j in w'.sessions
      ensures SessionOk(c, u, w'.versions, w'.disk, w'.sessions[j])
    {
      EvolvedOther(c, u, w, k, t, j);
    }
    forall i, j | i in w'.sessions && j in w'.sessions && i != j
      ensures StashApart(w'.sessions[i].pager.store, w'.sessions[j].pager.store)
    {
      Apart(c, u, w, i, j);
    }
  }

  lemma ExitKeeps(c: Config, u: iset<Bytes>, w: World, k: nat)
    requires WorldOk(c, u, w)
    ensures WorldOk(c, u, Exit(w, k))
  {
  }

  // ---------- Metadata ----------

  lemma RecordsInRange(c: Config, u: iset<Bytes>, p: Pager)
    requires PagerOk(c, u, p)
    ensures RecordsWritten(p) <= |p.ids| && AllIds(p.ids)
  {
  }

  /**
    Exact recovery of ids: opening a version after update_metadata gives the
    current ids up to the highest resident block and the file's old ids above it.
   */
  lemma RecoveredIds(p: Pager, file: string)
    requires AllIds(p.ids) && RecordsWritten(p) <= |p.ids|
    requires WellFormed(file) && Count(file) <= |p.ids|
    ensures var file' := UpdatedMetadata(file, p);
            && WellFormed(file') && Count(file') <= |p.ids|
            && LoadedIds(file', |p.ids|) == p.ids[..RecordsWritten(p)] + LoadedIds(file, |p.ids|)[RecordsWritten(p)..]
            && forall i | 0 <= i < |p.ids| ::
                 LoadedIds(file', |p.ids|)[i]
                 == if UpToHighest(p.present, i) then p.ids[i] else LoadedIds(file, |p.ids|)[i]
  {
    if p.present == {} {
      assert p.ids[..0] + LoadedIds(file, |p.ids|)[0..] == LoadedIds(file, |p.ids|);
    } else {
      OverlayRoundTrip(file, p.ids[..RecordsWritten(p)], |p.ids|);
    }
  }

  lemma PagerIdsStored(c: Config, u: iset<Bytes>, p: Pager)
    requires PagerOk(c, u, p)
    ensures IdsStored(p.store.disk.files, p.ids)
  {
    forall i | 0 <= i < |p.ids|
      ensures p.ids[i] == EmptyBlockHash() || File(Base, p.ids[i]) in p.store.disk.files
    {
      assert IdOk(c, p.store, i, p.ids[i]);
    }
  }

  lemma UpdatedVersionOk(c: Config, u: iset<Bytes>, v: Version, p: Pager)
    requires PagerOk(c, u, p) && VersionOk(c, p.store.disk.files, v) && IsComplete(v)
    requires |p.ids| == NumBlocks(c, CapacityOf(v))
    ensures RecordsWritten(p) <= |p.ids| && AllIds(p.ids)
    ensures VersionOk(c, p.store.disk.files, v.(metadata := Some(UpdatedMetadata(v.metadata.value, p))))
  {
    RecordsInRange(c, u, p);
    PagerIdsStored(c, u, p);
    RecoveredIds(p, v.metadata.value);
  }

  /** The version map after `path`'s metadata file got the records of `q`. */
  ghost predicate WroteMetadata(versions: map<string, Version>, versions': map<string, Version>, path: string,
                                q: Pager) {
    && path in versions && IsComplete(versions[path]) && AllIds(q.ids) && RecordsWritten(q) <= |q.ids|
    && versions'
       == versions[path := versions[path].(metadata := Some(UpdatedMetadata(versions[path].metadata.value, q)))]
  }

  /** msync succeeds, flushes completely, and writes the metadata of the one version it is directed to. */
  lemma SyncKeeps(c: Config, u: iset<Bytes>, versions: map<string, Version>, path: string, p: Pager,
                  order: seq<nat>, commits: seq<nat>) returns (versions': map<string, Version>, q: Pager)
    requires Sound(c, u) && PagerOk(c, u, p) && Flush.Orders(p, order, commits)
    requires path in versions && IsComplete(versions[path])
    ensures FlushReady(p, order, commits)
    ensures SyncTo(c, versions, path, p, order, commits) == Some((versions', q))
    ensures Flush.MSync(c, p, order, commits) == Some(q)
    ensures Advances(c, u, p, q) && SameContents(c, p, q) && q.present == p.present && q.dirty == [] && q.stashSet == {}
    ensures forall i | 0 <= i < |q.ids| :: Content(c, q.store.disk.files, q.ids[i]) == Logical(c, q, i)
    ensures WroteMetadata(versions, versions', path, q)
  {
    q := FlushLemmas.MSyncKeeps(c, u, p, order, commits);
    RecordsInRange(c, u, q);
    versions' := Written(versions, path, q);
  }

  lemma Written(versions: map<string, Version>, path: string, q: Pager) returns (versions': map<string, Version>)
    requires path in versions && IsComplete(versions[path]) && AllIds(q.ids) && RecordsWritten(q) <= |q.ids|
    ensures WriteMetadata(versions, path, q) == Some(versions') && WroteMetadata(versions, versions', path, q)
  {
    versions' := versions[path := versions[path].(metadata := Some(UpdatedMetadata(versions[path].metadata.value, q)))];
    assert q.present == {} ==> versions' == versions;
  }

  // ---------- Versions and sessions come and go ----------

  lemma AddVersion(c: Config, u: iset<Bytes>, w: World, path: string, v: Version)
    requires WorldOk(c, u, w) && VersionOk(c, w.disk.files, v) && !HasSessionOn(w, path)
    ensures WorldOk(c, u, w.(versions := w.versions[path := v]))
  {
    var w' := w.(versions := w.versions[path := v]);
    forall k | k in w.sessions
      ensures SessionOk(c, u, w'.versions, w'.disk, w'.sessions[k])
    {
      assert SessionOk(c, u, w.versions, w.disk, w.sessions[k]);
    }
  }

  lemma NoMetadataNoSession(c: Config, u: iset<Bytes>, w: World, path: string)
    requires WorldOk(c, u, w) && (path in w.versions ==> !IsComplete(w.versions[path]))
    ensures !HasSessionOn(w, path)
  {
    forall k | k in w.sessions
      ensures w.sessions[k].path != path
    {
      assert SessionOk(c, u, w.versions, w.disk, w.sessions[k]);
    }
  }

  lemma EmptyVersionOk(c: Config, files: map<FileName, Bytes>, capacity: nat)
    ensures VersionOk(c, files, Version(Some(""), Some(capacity)))
  {
  }

  lemma RewriteVersion(c: Config, u: iset<Bytes>, w: World, versions': map<string, Version>, path: string, q: Pager)
    requires WorldOk(c, u, w) && PagerOk(c, u, q) && q.store.disk == w.disk
    requires WroteMetadata(w.versions, versions', path, q) && |q.ids| == NumBlocks(c, CapacityOf(w.versions[path]))
    ensures WorldOk(c, u, w.(versions := versions'))
  {
    UpdatedVersionOk(c, u, w.versions[path], q);
    var w' := w.(versions := versions');
    forall k | k in w.sessions
      ensures SessionOk(c, u, w'.versions, w'.disk, w'.sessions[k])
    {
      assert SessionOk(c, u, w.versions, w.disk, w.sessions[k]);
    }
  }

  lemma NewPagerOk(c: Config, u: iset<Bytes>, budget: nat, readOnly: bool, ids: seq<Id>, d: Disk)
    requires Sound(c, u) && DiskOk(c, u, d) && AllIds(ids) && IdsStored(d.files, ids) && budget > 0
    ensures PagerOk(c, u, NewPager(c, budget, readOnly, ids, d))
    ensures forall i | 0 <= i < |ids| ::
              Logical(c, NewPager(c, budget, readOnly, ids, d), i) == Content(c, d.files, ids[i])
  {
    var p := NewPager(c, budget, readOnly, ids, d);
    forall i | 0 <= i < |ids|
      ensures PageOk(c, u, p, i)
    {
    }
  }

  lemma AddSession(c: Config, u: iset<Bytes>, w: World, k: nat, s: Session)
    requires WorldOk(c, u, w) && k !in w.sessions && SessionOk(c, u, w.versions, w.disk, s)
    requires s.pager.store.stashIds == map[]
    ensures WorldOk(c, u, w.(sessions := w.sessions[k := s]))
  {
  }

  lemma StartSession(c: Config, u: iset<Bytes>, w: World, k: nat, path: string, ids: seq<Id>, budget: nat,
                     readOnly: bool)
    requires Sound(c, u) && WorldOk(c, u, w) && k !in w.sessions && budget > 0
    requires path in w.versions && IsComplete(w.versions[path])
    requires AllIds(ids) && IdsStored(w.disk.files, ids) && |ids| == NumBlocks(c, CapacityOf(w.versions[path]))
    ensures var s := Session(path, CapacityOf(w.versions[path]), NewPager(c, budget, readOnly, ids, w.disk));
            WorldOk(c, u, w.(sessions := w.sessions[k := s]))
  {
    var p := NewPager(c, budget, readOnly, ids, w.disk);
    NewPagerOk(c, u, budget, readOnly, ids, w.disk);
    assert Attach(p, w.disk) == p;
    AddSession(c, u, w, k, Session(path, CapacityOf(w.versions[path]), p));
  }

  // ---------- Steps ----------

  lemma NoSessionToEnd(w: World, k: nat)
    requires k !in w.sessions
    ensures Exit(w, k) == w
  {
    assert w.sessions - {k} == w.sessions;
  }

  lemma CreateKeeps(c: Config, u: iset<Bytes>, w: World, k: nat, path: string, size: nat, budget: nat, overwrite: bool)
    requires Sound(c, u) && WorldOk(c, u, w) && k !in w.sessions && budget > 0 && !HasSessionOn(w, path)
    ensures WorldOk(c, u, CreateStep(c, w, k, path, size, budget, overwrite))
  {
    if path in w.versions && !overwrite {
      NoSessionToEnd(w, k);
    } else {
      var capacity := RoundUp(c, size);
      var ids := seq(NumBlocks(c, capacity), _ => EmptyBlockHash());
      var w1 := w.(versions := w.versions[path := Version(Some(""), Some(capacity))]);
      EmptyVersionOk(c, w.disk.files, capacity);
      AddVersion(c, u, w, path, Version(Some(""), Some(capacity)));
      StartSession(c, u, w1, k, path, ids, budget, false);
    }
  }

  lemma LoadedIdsOk(c: Config, u: iset<Bytes>, w: World, path: string)
    requires WorldOk(c, u, w) && path in w.versions && IsComplete(w.versions[path])
    ensures var v := w.versions[path];
            IdsStored(w.disk.files, LoadedIds(v.metadata.value, NumBlocks(c, CapacityOf(v))))
  {
    assert VersionOk(c, w.disk.files, w.versions[path]);
  }

  lemma OpenKeeps(c: Config, u: iset<Bytes>, w: World, k: nat, path: string, budget: nat, readOnly: bool)
    requires Sound(c, u) && WorldOk(c, u, w) && k !in w.sessions && budget > 0
    ensures WorldOk(c, u, OpenStep(c, w, k, path, budget, readOnly))
  {
    if path !in w.versions || !IsComplete(w.versions[path]) {
      NoSessionToEnd(w, k);
    } else {
      LoadedIdsOk(c, u, w, path);
      var v := w.versions[path];
      var ids := LoadedIds(v.metadata.value, NumBlocks(c, CapacityOf(v)));
      StartSession(c, u, w, k, path, ids, budget, readOnly);
      var s := Session(path, CapacityOf(v), NewPager(c, budget, readOnly, ids, w.disk));
      assert OpenStep(c, w, k, path, budget, readOnly) == w.(sessions := w.sessions[k := s]);
    }
  }

  lemma OpenImmutableKeeps(c: Config, u: iset<Bytes>, w: World, k: nat, source: string, target: string, budget: nat)
    requires Sound(c, u) && WorldOk(c, u, w) && k !in w.sessions && budget > 0
    ensures WorldOk(c, u, OpenImmutableStep(c, w, k, source, target, budget))
  {
    if source !in w.versions || target in w.versions {
      NoSessionToEnd(w, k);
    } else if !IsComplete(w.versions[source]) {
      var v := Version(w.versions[source].metadata, None);
      NoMetadataNoSession(c, u, w, target);
      AddVersion(c, u, w, target, v);
      NoSessionToEnd(w.(versions := w.versions[target := v]), k);
    } else {
      NoMetadataNoSession(c, u, w, target);
      AddVersion(c, u, w, target, w.versions[source]);
      OpenKeeps(c, u, w.(versions := w.versions[target := w.versions[source]]), k, target, budget, false);
    }
  }

  lemma ReadStep(c: Config, u: iset<Bytes>, w: World, k: nat, off: nat) returns (q: Pager)
    requires Sound(c, u) && WorldOk(c, u, w) && Enabled(c, u, w, ReadByte(k, off))
    ensures Step(c, w, ReadByte(k, off)) == Put(w, k, w.sessions[k], q)
    ensures Advances(c, u, View(w, k), q) && SameContents(c, View(w, k), q)
  {
    assert SessionOk(c, u, w.versions, w.disk, w.sessions[k]);
    q := Access.LoadKeeps(c, u, View(w, k), off);
  }

  lemma WriteStep(c: Config, u: iset<Bytes>, w: World, k: nat, off: nat, v: Byte) returns (q: Pager)
    requires Sound(c, u) && WorldOk(c, u, w) && Enabled(c, u, w, WriteByte(k, off, v)) && !View(w, k).readOnly
    ensures Step(c, w, WriteByte(k, off, v)) == Put(w, k, w.sessions[k], q)
    ensures Advances(c, u, View(w, k), q)
    ensures forall i | 0 <= i < |q.ids| ::
              Logical(c, q, i) == if i == Access.BlockOf(c, off) then Access.Written(c, View(w, k), off, v)
                                  else Logical(c, View(w, k), i)
  {
    assert SessionOk(c, u, w.versions, w.disk, w.sessions[k]);
    q := Access.StoreByteKeeps(c, u, View(w, k), off, v);
  }

  /** No page of a read-only region can be written, and the handler does not help. */
  lemma ReadOnlyWriteExits(c: Config, u: iset<Bytes>, p: Pager, b: nat)
    requires PagerOk(c, u, p) && p.readOnly && b < |p.ids|
    ensures AccessBlock(c, p, b, true).None?
  {
    assert PageOk(c, u, p, b);
    InLists(p, b);
  }

  /** A write on a read-only region always faults, and so ends the process. */
  lemma ReadOnlyWriteStep(c: Config, u: iset<Bytes>, w: World, k: nat, off: nat, v: Byte)
    requires Sound(c, u) && WorldOk(c, u, w) && Enabled(c, u, w, WriteByte(k, off, v)) && View(w, k).readOnly
    ensures Step(c, w, WriteByte(k, off, v)) == Exit(w, k)
  {
    SessionPagerOk(c, u, w, k);
    ReadOnlyWriteExits(c, u, View(w, k), Access.BlockOf(c, off));
  }

  lemma SessionPagerOk(c: Config, u: iset<Bytes>, w: World, k: nat)
    requires WorldOk(c, u, w) && k in w.sessions
    ensures PagerOk(c, u, View(w, k))
  {
    assert SessionOk(c, u, w.versions, w.disk, w.sessions[k]);
  }

  lemma SyncStepKeeps(c: Config, u: iset<Bytes>, w: World, k: nat, order: seq<nat>, commits: seq<nat>)
    returns (w': World, q: Pager)
    requires Sound(c, u) && WorldOk(c, u, w) && k in w.sessions && Flush.Orders(View(w, k), order, commits)
    ensures SyncStep(c, w, k, order, commits) == w'
    ensures FlushReady(View(w, k), order, commits)
    ensures Flush.MSync(c, View(w, k), order, commits) == Some(q)
    ensures Advances(c, u, View(w, k), q) && SameContents(c, View(w, k), q)
    ensures q.present == View(w, k).present && q.dirty == [] && q.stashSet == {}
    ensures forall i | 0 <= i < |q.ids| :: Content(c, q.store.disk.files, q.ids[i]) == Logical(c, q, i)
    ensures w' == Put(w, k, w.sessions[k], q).(versions := w'.versions)
    ensures WroteMetadata(w.versions, w'.versions, w.sessions[k].path, q)
    ensures WorldOk(c, u, w')
  {
    var s := w.sessions[k];
    assert SessionOk(c, u, w.versions, w.disk, s);
    var versions';
    versions', q := SyncKeeps(c, u, w.versions, s.path, View(w, k), order, commits);
    w' := Put(w, k, s, q).(versions := versions');
    PutKeeps(c, u, w, k, q);
    RewriteVersion(c, u, Put(w, k, s, q), versions', s.path, q);
  }

  /** A snapshot is refused exactly when the version it names has a metadata file. */
  lemma SnapshotRefused(c: Config, u: iset<Bytes>, w: World, k: nat, path: string, order: seq<nat>, commits: seq<nat>)
    requires WorldOk(c, u, w) && k in w.sessions && Flush.Orders(View(w, k), order, commits)
    requires path in w.versions && w.versions[path].metadata.Some?
    ensures SnapshotStep(c, w, k, path, order, commits) == Put(w, k, w.sessions[k], View(w, k))
    ensures Advances(c, u, View(w, k), View(w, k))
  {
    assert SessionOk(c, u, w.versions, w.disk, w.sessions[k]);
    Flush.OrdersInRange(View(w, k), order, commits);
  }

  lemma SnapshotStepKeeps(c: Config, u: iset<Bytes>, w: World, k: nat, path: string, order: seq<nat>, commits: seq<nat>)
    returns (w': World, q: Pager)
    requires Sound(c, u) && WorldOk(c, u, w) && k in w.sessions && Flush.Orders(View(w, k), order, commits)
    requires path in w.versions ==> w.versions[path].metadata.None?
    ensures SnapshotStep(c, w, k, path, order, commits) == w'
    ensures FlushReady(View(w, k), order, commits)
    ensures Flush.MSync(c, View(w, k), order, commits) == Some(q)
    ensures Advances(c, u, View(w, k), q) && SameContents(c, View(w, k), q)
    ensures q.present == View(w, k).present && q.dirty == [] && q.stashSet == {}
    ensures forall i | 0 <= i < |q.ids| :: Content(c, q.store.disk.files, q.ids[i]) == Logical(c, q, i)
    ensures w' == Put(w, k, w.sessions[k], q).(versions := w'.versions)
    ensures WroteMetadata(w.versions[path := Version(Some(""), Some(w.sessions[k].capacity))], w'.versions, path, q)
    ensures WorldOk(c, u, w')
  {
    var s := w.sessions[k];
    assert SessionOk(c, u, w.versions, w.disk, s);
    NoMetadataNoSession(c, u, w, path);
    EmptyVersionOk(c, w.disk.files, s.capacity);
    AddVersion(c, u, w, path, Version(Some(""), Some(s.capacity)));
    var w1 := w.(versions := w.versions[path := Version(Some(""), Some(s.capacity))]);
    var versions';
    versions', q := SyncKeeps(c, u, w1.versions, path, View(w1, k), order, commits);
    w' := Put(w1, k, s, q).(versions := versions');
    PutKeeps(c, u, w1, k, q);
    RewriteVersion(c, u, Put(w1, k, s, q), versions', path, q);
  }

  /** What is left of a process that died in the middle of msync. */
  lemma DieInSyncKeeps(c: Config, u: iset<Bytes>, w: World, k: nat, order: seq<nat>, stored: nat,
                       commits: seq<nat>, committed: nat) returns (t: Storage)
    requires Sound(c, u) && WorldOk(c, u, w) && k in w.sessions
    requires Interruptible(View(w, k), order, stored, commits, committed)
    ensures DieInSyncStep(c, w, k, order, stored, commits, committed) == Died(w, k, t)
    ensures StorageOk(c, u, t) && Evolves(View(w, k).store, t)
    ensures WorldOk(c, u, Died(w, k, t))
  {
    SessionPagerOk(c, u, w, k);
    Flush.OrdersInRange(View(w, k), order, commits);
    FlushLemmas.InterruptedKeeps(c, u, View(w, k), order, stored, commits, committed);
    t := Flush.Interrupted(c, View(w, k), order, stored, commits, committed);
    DiedKeeps(c, u, w, k, t);
  }

  /** A process that dies inside msync or snapshot: its session ends, and the disk is as its storage left it. */
  lemma DeathStep(c: Config, u: iset<Bytes>, w: World, e: Event) returns (t: Storage)
    requires Sound(c, u) && WorldOk(c, u, w) && Enabled(c, u, w, e) && (e.DieInSync? || e.DieInSnapshot?)
    ensures StorageOk(c, u, t) && Evolves(View(w, e.k).store, t)
    ensures Step(c, w, e).sessions == w.sessions - {e.k}
    ensures Step(c, w, e).disk == t.disk
  {
    var r := DieInSyncKeeps(c, u, w, e.k, e.order, e.stored, e.commits, e.committed);
    if e.DieInSnapshot? && e.path in w.versions && w.versions[e.path].metadata.Some? {
      SessionPagerOk(c, u, w, e.k);
      t := View(w, e.k).store;
      EvolvesItself(t);
    } else {
      t := r;
    }
  }

  lemma EvolvesItself(t: Storage)
    ensures Evolves(t, t)
  {
  }

  lemma DieInSnapshotKeeps(c: Config, u: iset<Bytes>, w: World, k: nat, path: string, order: seq<nat>, stored: nat,
                           commits: seq<nat>, committed: nat, left: Option<string>)
    requires Sound(c, u) && WorldOk(c, u, w) && k in w.sessions
    requires Interruptible(View(w, k), order, stored, commits, committed)
    ensures WorldOk(c, u, DieInSnapshotStep(c, w, k, path, order, stored, commits, committed, left))
  {
    if path in w.versions && w.versions[path].metadata.Some? {
      ExitKeeps(c, u, w, k);
    } else {
      var t := DieInSyncKeeps(c, u, w, k, order, stored, commits, committed);
      NoMetadataNoSession(c, u, Died(w, k, t), path);
      AddVersion(c, u, Died(w, k, t), path, Version(left, None));
    }
  }

  /** The invariant of the whole system holds after every step of every process. */
  lemma StepKeeps(c: Config, u: iset<Bytes>, w: World, e: Event)
    requires Sound(c, u) && WorldOk(c, u, w) && Enabled(c, u, w, e)
    ensures WorldOk(c, u, Step(c, w, e))
  {
    match e
    case Create(k, path, size, budget, overwrite) => CreateKeeps(c, u, w, k, path, size, budget, overwrite);
    case Open(k, path, budget, readOnly) => OpenKeeps(c, u, w, k, path, budget, readOnly);
    case OpenImmutable(k, source, target, budget) => OpenImmutableKeeps(c, u, w, k, source, target, budget);
    case Kill(k) => ExitKeeps(c, u, w, k);
    case ReadByte(k, off) =>
      var q := ReadStep(c, u, w, k, off);
      PutKeeps(c, u, w, k, q);
    case WriteByte(k, off, v) =>
      if View(w, k).readOnly {
        ReadOnlyWriteStep(c, u, w, k, off, v);
        ExitKeeps(c, u, w, k);
      } else {
        var q := WriteStep(c, u, w, k, off, v);
        PutKeeps(c, u, w, k, q);
      }
    case Sync(k, order, commits) =>
      var w', q := SyncStepKeeps(c, u, w, k, order, commits);
    case Snapshot(k, path, order, commits) =>
      if path in w.versions && w.versions[path].metadata.Some? {
        SnapshotRefused(c, u, w, k, path, order, commits);
        PutKeeps(c, u, w, k, View(w, k));
      } else {
        var w', q := SnapshotStepKeeps(c, u, w, k, path, order, commits);
      }
    case Close(k, order, commits) =>
      var w', q := SyncStepKeeps(c, u, w, k, order, commits);
      ExitKeeps(c, u, w', k);
    case DieInSync(k, order, stored, commits, committed) =>
      var t := DieInSyncKeeps(c, u, w, k, order, stored, commits, committed);
    case DieInSnapshot(k, path, order, stored, commits, committed, left) =>
      DieInSnapshotKeeps(c, u, w, k, path, order, stored, commits, committed, left);
  }

  lemma {:induction false} RunKeeps(c: Config, u: iset<Bytes>, w: World, events: seq<Event>)
    requires Sound(c, u) && WorldOk(c, u, w) && ValidRun(c, u, w, events)
    ensures WorldOk(c, u, Run(c, w, events))
    decreases |events|
  {
    if events != [] {
      RunKeeps(c, u, w, events[..|events| - 1]);
      StepKeeps(c, u, Run(c, w, events[..|events| - 1]), events[|events| - 1]);
    }
  }
}

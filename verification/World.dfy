/**
  Sessions over version directories. Any number of processes, each with one
  region open, share one block store; their operations interleave, and a process
  may die between two of them or inside an msync or snapshot. A version directory is
  its metadata file and its capacity file (None: the directory does not hold it).
 */
module World {
  import opened Blocks
  import opened Metadata
  import opened Store
  import opened Pager
  import Access
  import Flush

  datatype Version = Version(metadata: Option<string>, capacity: Option<nat>)

  /** Both files are there, and the version can be opened. */
  predicate IsComplete(v: Version) {
    v.metadata.Some? && v.capacity.Some?
  }

  function CapacityOf(v: Version): nat {
    if v.capacity.Some? then v.capacity.value else 0
  }

  /** A process: the version it has open, its region's capacity in bytes, and its pager. */
  datatype Session = Session(path: string, capacity: nat, pager: Pager)

  datatype World = World(versions: map<string, Version>, sessions: map<nat, Session>, disk: Disk)

  /** A pager working on the disk as it is now. */
  function Attach(p: Pager, d: Disk): Pager {
    p.(store := p.store.(disk := d))
  }

  function View(w: World, k: nat): Pager
    requires k in w.sessions
  {
    Attach(w.sessions[k].pager, w.disk)
  }

  function NumBlocks(c: Config, capacity: nat): nat {
    if c.blockSize == 0 then 0 else capacity / c.blockSize
  }

  /** A region is as large as asked, rounded up to whole blocks. */
  function RoundUp(c: Config, size: nat): nat {
    if c.blockSize > 0 && size % c.blockSize != 0 && size != 0 then (size / c.blockSize + 1) * c.blockSize else size
  }

  /** The state both constructors build: nothing mapped, nothing stashed. */
  function NewPager(c: Config, budget: nat, readOnly: bool, ids: seq<Id>, d: Disk): Pager {
    Pager(budget, readOnly, ids, [], [], {}, {},
          seq(|ids|, _ => ProtNone), seq(|ids|, _ => Zeros(c.blockSize)),
          Storage(d, map[], map[]))
  }

  // ---------- Metadata ----------

  ghost function Highest(s: set<nat>): (h: nat)
    requires s != {}
    ensures h in s && forall x | x in s :: x <= h
  {
    var x :| x in s;
    var rest := s - {x};
    assert s == rest + {x};
    if rest == {} then x
    else
      var m := Highest(rest);
      if x < m then m else x
  }

  /** Block i is resident or lies below a resident block. */
  ghost predicate UpToHighest(present: set<nat>, i: nat) {
    exists j :: j in present && i <= j
  }

  /** How many records update_metadata writes: those of the blocks up to the highest resident one, and no others. */
  ghost function RecordsWritten(p: Pager): (n: nat)
    ensures forall i: nat :: i < n <==> UpToHighest(p.present, i)
  {
    if p.present == {} then 0 else Highest(p.present) + 1
  }

  /** update_metadata on the contents of the metadata file. */
  ghost function UpdatedMetadata(file: string, p: Pager): string
    requires AllIds(p.ids) && RecordsWritten(p) <= |p.ids|
  {
    if p.present == {} then file else Overlay(file, Encode(p.ids[..RecordsWritten(p)]))
  }

  ghost predicate FlushReady(p: Pager, order: seq<nat>, commits: seq<nat>) {
    Shape(p) && InRange(order, |p.ids|) && InRange(commits, |p.ids|)
  }

  /** update_metadata on the version directories. None: there is no file to write, and the process exits. */
  ghost function WriteMetadata(versions: map<string, Version>, path: string, p: Pager): Option<map<string, Version>> {
    if p.present == {} then Some(versions)
    else if path !in versions || versions[path].metadata.None? then None
    else if !AllIds(p.ids) || RecordsWritten(p) > |p.ids| then None
    else Some(versions[path := versions[path].(metadata := Some(UpdatedMetadata(versions[path].metadata.value, p)))])
  }

  /** msync with the metadata going to `path`. None: the process exits. */
  ghost function SyncTo(c: Config, versions: map<string, Version>, path: string, p: Pager, order: seq<nat>,
                        commits: seq<nat>):
    Option<(map<string, Version>, Pager)>
    requires FlushReady(p, order, commits)
  {
    var flushed := Flush.MSync(c, p, order, commits);
    if flushed.None? then None
    else
      var written := WriteMetadata(versions, path, flushed.value);
      if written.None? then None else Some((written.value, flushed.value))
  }

  /**
    Snapshot to `path`: refused when that version has a metadata file, else an
    empty one is created and msync is redirected to it. The flag tells which. The
    capacity file, which is written last, is shown from the start.
   */
  ghost function SnapshotTo(c: Config, versions: map<string, Version>, path: string, capacity: nat, p: Pager,
                            order: seq<nat>, commits: seq<nat>): Option<(map<string, Version>, Pager, bool)>
    requires FlushReady(p, order, commits)
  {
    if path in versions && versions[path].metadata.Some? then Some((versions, p, false))
    else
      var r := SyncTo(c, versions[path := Version(Some(""), Some(capacity))], path, p, order, commits);
      if r.None? then None else Some((r.value.0, r.value.1, true))
  }

  // ---------- Steps ----------

  /**
    `k` names the process. A flush's tasks may run in any order, so its events carry
    the order they ran in. A process may die between operations, or in the middle of
    an msync (close's included) with that many of its tasks done, or of a snapshot,
    of whose new metadata file anything may be left.
   */
  datatype Event =
    | Create(k: nat, path: string, size: nat, budget: nat, allowOverwrite: bool)
    | Open(k: nat, path: string, budget: nat, readOnly: bool)
    | OpenImmutable(k: nat, source: string, target: string, budget: nat)
    | ReadByte(k: nat, off: nat)
    | WriteByte(k: nat, off: nat, value: Byte)
    | Sync(k: nat, order: seq<nat>, commits: seq<nat>)
    | Snapshot(k: nat, path: string, order: seq<nat>, commits: seq<nat>)
    | Close(k: nat, order: seq<nat>, commits: seq<nat>)
    | Kill(k: nat)
    | DieInSync(k: nat, order: seq<nat>, stored: nat, commits: seq<nat>, committed: nat)
    | DieInSnapshot(k: nat, path: string, order: seq<nat>, stored: nat, commits: seq<nat>, committed: nat,
                    left: Option<string>)

  function Put(w: World, k: nat, s: Session, q: Pager): World {
    w.(sessions := w.sessions[k := s.(pager := q)], disk := q.store.disk)
  }

  function Exit(w: World, k: nat): World {
    w.(sessions := w.sessions - {k})
  }

  /** The process exits when the version is there and may not be overwritten. */
  function CreateStep(c: Config, w: World, k: nat, path: string, size: nat, budget: nat, allowOverwrite: bool): World {
    if path in w.versions && !allowOverwrite then Exit(w, k)
    else
      var capacity := RoundUp(c, size);
      var ids := seq(NumBlocks(c, capacity), _ => EmptyBlockHash());
      World(w.versions[path := Version(Some(""), Some(capacity))],
            w.sessions[k := Session(path, capacity, NewPager(c, budget, false, ids, w.disk))], w.disk)
  }

  function OpenStep(c: Config, w: World, k: nat, path: string, budget: nat, readOnly: bool): World {
    if path !in w.versions || !IsComplete(w.versions[path]) then Exit(w, k)
    else
      var v := w.versions[path];
      var ids := LoadedIds(v.metadata.value, NumBlocks(c, CapacityOf(v)));
      w.(sessions := w.sessions[k := Session(path, CapacityOf(v), NewPager(c, budget, readOnly, ids, w.disk))])
  }

  /**
    Copy the version's files to a new directory and open the copy. When one of the
    source's files is missing, the new directory is there already as the process exits.
   */
  function OpenImmutableStep(c: Config, w: World, k: nat, source: string, target: string, budget: nat): World {
    if source !in w.versions || target in w.versions then Exit(w, k)
    else if !IsComplete(w.versions[source]) then
      Exit(w.(versions := w.versions[target := Version(w.versions[source].metadata, None)]), k)
    else OpenStep(c, w.(versions := w.versions[target := w.versions[source]]), k, target, budget, false)
  }

  ghost function SyncStep(c: Config, w: World, k: nat, order: seq<nat>, commits: seq<nat>): World {
    if k !in w.sessions || !FlushReady(View(w, k), order, commits) then w
    else
      var r := SyncTo(c, w.versions, w.sessions[k].path, View(w, k), order, commits);
      if r.None? then Exit(w, k) else Put(w, k, w.sessions[k], r.value.1).(versions := r.value.0)
  }

  ghost function SnapshotStep(c: Config, w: World, k: nat, path: string, order: seq<nat>, commits: seq<nat>): World {
    if k !in w.sessions || !FlushReady(View(w, k), order, commits) then w
    else
      var r := SnapshotTo(c, w.versions, path, w.sessions[k].capacity, View(w, k), order, commits);
      if r.None? then Exit(w, k) else Put(w, k, w.sessions[k], r.value.1).(versions := r.value.0)
  }

  /** The disk is as the tasks that were done left it, and the process is gone. */
  function Died(w: World, k: nat, t: Storage): World {
    w.(sessions := w.sessions - {k}, disk := t.disk)
  }

  ghost function DieInSyncStep(c: Config, w: World, k: nat, order: seq<nat>, stored: nat, commits: seq<nat>,
                               committed: nat): World {
    if k !in w.sessions || !FlushReady(View(w, k), order, commits) || stored > |order| || committed > |commits| then w
    else Died(w, k, Flush.Interrupted(c, View(w, k), order, stored, commits, committed))
  }

  /** The snapshot's capacity file was not written yet. */
  ghost function DieInSnapshotStep(c: Config, w: World, k: nat, path: string, order: seq<nat>, stored: nat,
                                   commits: seq<nat>, committed: nat, left: Option<string>): World {
    if path in w.versions && w.versions[path].metadata.Some? then Exit(w, k)
    else
      DieInSyncStep(c, w, k, order, stored, commits, committed).(versions := w.versions[path := Version(left, None)])
  }

  ghost function Step(c: Config, w: World, e: Event): World {
    match e
    case Create(k, path, size, budget, allowOverwrite) => CreateStep(c, w, k, path, size, budget, allowOverwrite)
    case Open(k, path, budget, readOnly) => OpenStep(c, w, k, path, budget, readOnly)
    case OpenImmutable(k, source, target, budget) => OpenImmutableStep(c, w, k, source, target, budget)
    case Kill(k) => Exit(w, k)
    case ReadByte(k, off) =>
      if k !in w.sessions || !Shape(View(w, k)) || !Access.InRegion(c, View(w, k), off) then w
      else
        var r := Access.Load(c, View(w, k), off);
        if r.None? then Exit(w, k) else Put(w, k, w.sessions[k], r.value.0)
    case WriteByte(k, off, v) =>
      if k !in w.sessions || !Shape(View(w, k)) || !Access.InRegion(c, View(w, k), off) then w
      else
        var r := Access.StoreByte(c, View(w, k), off, v);
        if r.None? then Exit(w, k) else Put(w, k, w.sessions[k], r.value)
    case Sync(k, order, commits) => SyncStep(c, w, k, order, commits)
    case Snapshot(k, path, order, commits) => SnapshotStep(c, w, k, path, order, commits)
    case Close(k, order, commits) => Exit(SyncStep(c, w, k, order, commits), k)
    case DieInSync(k, order, stored, commits, committed) => DieInSyncStep(c, w, k, order, stored, commits, committed)
    case DieInSnapshot(k, path, order, stored, commits, committed, left) =>
      DieInSnapshotStep(c, w, k, path, order, stored, commits, committed, left)
  }

  ghost function Run(c: Config, w: World, events: seq<Event>): World {
    if events == [] then w else Step(c, Run(c, w, events[..|events| - 1]), events[|events| - 1])
  }

  // ---------- What callers and the machine may do ----------

  ghost predicate HasSessionOn(w: World, path: string) {
    exists k :: k in w.sessions && w.sessions[k].path == path
  }

  /**
    Sizes are in range, one region a process, no version is recreated while open, and
    only blocks of the run are written.
   */
  ghost predicate Enabled(c: Config, u: iset<Bytes>, w: World, e: Event) {
    match e
    case Create(k, path, _, budget, _) => k !in w.sessions && budget > 0 && !HasSessionOn(w, path)
    case Open(k, _, budget, _) => k !in w.sessions && budget > 0
    case OpenImmutable(k, _, _, budget) => k !in w.sessions && budget > 0
    case Kill(k) => true
    case ReadByte(k, off) => k in w.sessions && Access.InRegion(c, View(w, k), off)
    case WriteByte(k, off, v) =>
      k in w.sessions && Access.InRegion(c, View(w, k), off) && WritesBlockOf(c, u, View(w, k), off, v)
    case Sync(k, order, commits) => k in w.sessions && Flush.Orders(View(w, k), order, commits)
    case Snapshot(k, _, order, commits) => k in w.sessions && Flush.Orders(View(w, k), order, commits)
    case Close(k, order, commits) => k in w.sessions && Flush.Orders(View(w, k), order, commits)
    case DieInSync(k, order, stored, commits, committed) =>
      k in w.sessions && Interruptible(View(w, k), order, stored, commits, committed)
    case DieInSnapshot(k, _, order, stored, commits, committed, _) =>
      k in w.sessions && Interruptible(View(w, k), order, stored, commits, committed)
  }

  /** How far the tasks can be: the commits begin when all stores are done. */
  ghost predicate Interruptible(p: Pager, order: seq<nat>, stored: nat, commits: seq<nat>, committed: nat) {
    && Flush.Orders(p, order, commits) && stored <= |order| && committed <= |commits|
    && (committed > 0 ==> stored == |order|)
  }

  ghost predicate WritesBlockOf(c: Config, u: iset<Bytes>, p: Pager, off: nat, v: Byte)
    requires Access.InRegion(c, p, off)
  {
    && |p.mem| == |p.ids| && |Logical(c, p, Access.BlockOf(c, off))| == c.blockSize
    && Access.Written(c, p, off, v) in u
  }

  ghost predicate ValidRun(c: Config, u: iset<Bytes>, w: World, events: seq<Event>) {
    events == [] ||
    (ValidRun(c, u, w, events[..|events| - 1]) &&
     Enabled(c, u, Run(c, w, events[..|events| - 1]), events[|events| - 1]))
  }

  // ---------- Invariant ----------

  /**
    Every id a version's file holds is empty or names a stored block; the capacity file
    comes after the metadata file.
   */
  ghost predicate VersionOk(c: Config, files: map<FileName, Bytes>, v: Version) {
    && (v.metadata.None? ==> v.capacity.None?)
    && (IsComplete(v) ==>
          && WellFormed(v.metadata.value) && Count(v.metadata.value) <= NumBlocks(c, CapacityOf(v))
          && IdsStored(files, LoadedIds(v.metadata.value, NumBlocks(c, CapacityOf(v)))))
  }

  ghost predicate IdsStored(files: map<FileName, Bytes>, ids: seq<Id>) {
    forall i | 0 <= i < |ids| :: ids[i] == EmptyBlockHash() || File(Base, ids[i]) in files
  }

  ghost predicate SessionOk(c: Config, u: iset<Bytes>, versions: map<string, Version>, d: Disk, s: Session) {
    && PagerOk(c, u, Attach(s.pager, d))
    && |s.pager.ids| == NumBlocks(c, s.capacity)
    && s.path in versions && versions[s.path].metadata.Some? && versions[s.path].capacity == Some(s.capacity)
  }

  /** No two processes share a stash file. */
  ghost predicate StashApart(a: Storage, b: Storage) {
    forall i, j | i in a.stashIds && j in b.stashIds :: a.stashIds[i] != b.stashIds[j]
  }

  ghost predicate WorldOk(c: Config, u: iset<Bytes>, w: World) {
    && DiskOk(c, u, w.disk)
    && (forall path | path in w.versions :: VersionOk(c, w.disk.files, w.versions[path]))
    && (forall k | k in w.sessions :: SessionOk(c, u, w.versions, w.disk, w.sessions[k]))
    && (forall j, k | j in w.sessions && k in w.sessions && j != k ::
          StashApart(w.sessions[j].pager.store, w.sessions[k].pager.store))
  }
}

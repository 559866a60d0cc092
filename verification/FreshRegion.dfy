/**
  A freshly created region that fits its memory budget: nothing is ever evicted,
  so a snapshot, or closing and reopening, gives back exactly what was there.
  LostBlock shows that a smaller budget can lose blocks.
 */
module FreshRegion {
  import opened Blocks
  import opened Pager
  import opened PagerLemmas
  import opened World
  import opened WorldLemmas
  import opened Recovery
  import opened Steps
  import opened Isolation
  import opened Contents
  import Access
  import Flush
  import FlushLemmas

  /** Room for every block, nothing stashed, and no id but for resident blocks. */
  ghost predicate Covered(p: Pager) {
    && |p.ids| <= p.budget && p.stashSet == {}
    && forall i | 0 <= i < |p.ids| && i !in p.present :: p.ids[i] == EmptyBlockHash()
  }

  lemma {:induction false} BoundedSet(s: set<nat>, n: nat)
    requires forall i | i in s :: i < n
    ensures |s| <= n
  {
    if n == 0 {
      assert s == {};
    } else {
      BoundedSet(s - {n - 1}, n - 1);
    }
  }

  /** With one block absent there is room for it. */
  lemma RoomForOne(p: Pager, b: nat)
    requires Shape(p) && Covered(p) && b < |p.ids| && b !in p.present
    ensures |p.present| < p.budget
  {
    BoundedSet(p.present + {b}, |p.ids|);
  }

  lemma LoadCovered(c: Config, u: iset<Bytes>, p: Pager, off: nat) returns (q: Pager)
    requires Sound(c, u) && PagerOk(c, u, p) && Access.InRegion(c, p, off) && Covered(p)
    ensures Access.Load(c, p, off).Some? && Access.Load(c, p, off).value.0 == q
    ensures Covered(q) && p.present <= q.present
  {
    if Access.BlockOf(c, off) !in p.present {
      RoomForOne(p, Access.BlockOf(c, off));
    }
    q := Access.LoadKeeps(c, u, p, off);
  }

  lemma StoreCovered(c: Config, u: iset<Bytes>, p: Pager, off: nat, v: Byte) returns (q: Pager)
    requires Sound(c, u) && PagerOk(c, u, p) && Access.InRegion(c, p, off) && !p.readOnly && Covered(p)
    requires |Logical(c, p, Access.BlockOf(c, off))| == c.blockSize && Access.Written(c, p, off, v) in u
    ensures Access.StoreByte(c, p, off, v) == Some(q)
    ensures Covered(q) && p.present <= q.present
  {
    if Access.BlockOf(c, off) !in p.present {
      RoomForOne(p, Access.BlockOf(c, off));
    }
    q := Access.StoreByteKeeps(c, u, p, off, v);
  }

  lemma SyncCovered(c: Config, u: iset<Bytes>, p: Pager, order: seq<nat>, commits: seq<nat>) returns (q: Pager)
    requires Sound(c, u) && PagerOk(c, u, p) && Flush.Orders(p, order, commits) && Covered(p)
    ensures FlushReady(p, order, commits) && Flush.MSync(c, p, order, commits) == Some(q)
    ensures Covered(q) && q.present == p.present
  {
    q := FlushLemmas.MSyncForm(c, u, p, order, commits);
    forall i | 0 <= i < |q.ids| && i !in q.present
      ensures q.ids[i] == EmptyBlockHash()
    {
      InLists(p, i);
    }
  }

  // ---------- Coverage, whatever other processes do ----------

  lemma OwnRead(c: Config, u: iset<Bytes>, w: World, k: nat, off: nat)
    requires Sound(c, u) && WorldOk(c, u, w) && Enabled(c, u, w, ReadByte(k, off)) && Covered(w.sessions[k].pager)
    ensures StaysCovered(w, Step(c, w, ReadByte(k, off)), k)
  {
    assert SessionOk(c, u, w.versions, w.disk, w.sessions[k]);
    var q := LoadCovered(c, u, View(w, k), off);
  }

  lemma OwnWrite(c: Config, u: iset<Bytes>, w: World, k: nat, off: nat, v: Byte)
    requires Sound(c, u) && WorldOk(c, u, w) && Enabled(c, u, w, WriteByte(k, off, v)) && Covered(w.sessions[k].pager)
    requires !View(w, k).readOnly
    ensures StaysCovered(w, Step(c, w, WriteByte(k, off, v)), k)
  {
    assert SessionOk(c, u, w.versions, w.disk, w.sessions[k]);
    var q := StoreCovered(c, u, View(w, k), off, v);
  }

  lemma OwnFlush(c: Config, u: iset<Bytes>, w: World, k: nat, order: seq<nat>, commits: seq<nat>) returns (q: Pager)
    requires Sound(c, u) && WorldOk(c, u, w) && k in w.sessions && Flush.Orders(View(w, k), order, commits)
    requires Covered(w.sessions[k].pager)
    ensures FlushReady(View(w, k), order, commits) && Flush.MSync(c, View(w, k), order, commits) == Some(q)
    ensures Covered(q) && q.present == View(w, k).present
  {
    assert SessionOk(c, u, w.versions, w.disk, w.sessions[k]);
    q := SyncCovered(c, u, View(w, k), order, commits);
  }

  lemma OwnSync(c: Config, u: iset<Bytes>, w: World, k: nat, order: seq<nat>, commits: seq<nat>)
    requires Sound(c, u) && WorldOk(c, u, w) && Enabled(c, u, w, Sync(k, order, commits))
    requires Covered(w.sessions[k].pager)
    ensures StaysCovered(w, Step(c, w, Sync(k, order, commits)), k)
  {
    var w', q := SyncStepKeeps(c, u, w, k, order, commits);
    var q' := OwnFlush(c, u, w, k, order, commits);
  }

  lemma OwnSnapshot(c: Config, u: iset<Bytes>, w: World, k: nat, path: string, order: seq<nat>, commits: seq<nat>)
    requires Sound(c, u) && WorldOk(c, u, w) && Enabled(c, u, w, Snapshot(k, path, order, commits))
    requires Covered(w.sessions[k].pager)
    ensures StaysCovered(w, Step(c, w, Snapshot(k, path, order, commits)), k)
  {
    if HasMetadata(w, path) {
      SnapshotRefused(c, u, w, k, path, order, commits);
    } else {
      var w', q := SnapshotStepKeeps(c, u, w, k, path, order, commits);
      var q' := OwnFlush(c, u, w, k, order, commits);
    }
  }

  /** The session is still covered, and has evicted nothing. */
  ghost predicate StaysCovered(w: World, w': World, k: nat)
    requires k in w.sessions
  {
    k in w'.sessions && Covered(w'.sessions[k].pager) && w.sessions[k].pager.present <= w'.sessions[k].pager.present
  }

  lemma StepStaysCovered(c: Config, u: iset<Bytes>, w: World, e: Event, k: nat)
    requires Sound(c, u) && WorldOk(c, u, w) && Enabled(c, u, w, e)
    requires k in w.sessions && Covered(w.sessions[k].pager) && k in Step(c, w, e).sessions
    ensures StaysCovered(w, Step(c, w, e), k)
  {
    if e.k != k {
      OthersSessionStays(c, w, e, k);
    } else {
      match e
      case ReadByte(_, off) => OwnRead(c, u, w, k, off);
      case WriteByte(_, off, v) =>
        if View(w, k).readOnly {
          ReadOnlyWriteStep(c, u, w, k, off, v);
        } else {
          OwnWrite(c, u, w, k, off, v);
        }
      case Sync(_, order, commits) => OwnSync(c, u, w, k, order, commits);
      case Snapshot(_, path, order, commits) => OwnSnapshot(c, u, w, k, path, order, commits);
      case _ => EndedIsGone(c, u, w, e);
    }
  }

  /** Over every run of all processes a covered region stays covered and never evicts a block. */
  lemma {:induction false} RunStaysCovered(c: Config, u: iset<Bytes>, w: World, events: seq<Event>, k: nat)
    requires Sound(c, u) && WorldOk(c, u, w) && ValidRun(c, u, w, events) && NeverRestarts(events, k)
    requires k in w.sessions && Covered(w.sessions[k].pager) && k in Run(c, w, events).sessions
    ensures StaysCovered(w, Run(c, w, events), k)
    decreases |events|
  {
    if events != [] {
      var v, e := BeforeLast(c, u, w, events, k);
      RunStaysCovered(c, u, w, events[..|events| - 1], k);
      StepStaysCovered(c, u, v, e, k);
    }
  }

  // ---------- The region's own version ----------

  /**
    A covered region whose version file has no id but for resident blocks. Others
    may have the version open for reading, each from such a file.
   */
  ghost predicate FreshOk(c: Config, w: World, k: nat) {
    && k in w.sessions && Covered(w.sessions[k].pager)
    && (forall j | j in w.sessions && j != k && w.sessions[j].path == w.sessions[k].path ::
          EarlyReader(w.sessions[j].pager, w.sessions[k].pager.present))
    && Openable(w, w.sessions[k].path)
    && TailEmpty(IdsOf(c, w, w.sessions[k].path), w.sessions[k].pager.present)
  }

  ghost predicate TailEmpty(ids: seq<Id>, present: set<nat>) {
    forall i | 0 <= i < |ids| && i !in present :: ids[i] == EmptyBlockHash()
  }

  ghost predicate EarlyReader(p: Pager, present: set<nat>) {
    p.readOnly && TailEmpty(p.ids, present)
  }

  /** Another process opening the region's version for writing. */
  ghost predicate Intrudes(e: Event, path: string) {
    e.Open? && e.path == path && !e.readOnly
  }

  /** msync writes records of the session over the file's own: the tail stays empty when it is in both. */
  lemma SyncTail(c: Config, u: iset<Bytes>, w: World, j: nat, order: seq<nat>, commits: seq<nat>, present: set<nat>)
    requires Sound(c, u) && WorldOk(c, u, w) && Enabled(c, u, w, Sync(j, order, commits))
    requires Openable(w, w.sessions[j].path) && TailEmpty(IdsOf(c, w, w.sessions[j].path), present)
    requires FlushReady(View(w, j), order, commits)
    requires var q := Flush.MSync(c, View(w, j), order, commits); q.Some? && TailEmpty(q.value.ids, present)
    ensures var w', path := SyncStep(c, w, j, order, commits), w.sessions[j].path;
            Openable(w', path) && TailEmpty(IdsOf(c, w', path), present)
  {
    var w', q := SyncedIds(c, u, w, j, order, commits);
    OverlaidTail(q.ids, IdsOf(c, w, w.sessions[j].path), RecordsWritten(q), present);
  }

  lemma OverlaidTail(ids: seq<Id>, current: seq<Id>, n: nat, present: set<nat>)
    requires n <= |ids| == |current| && TailEmpty(ids, present) && TailEmpty(current, present)
    ensures TailEmpty(ids[..n] + current[n..], present)
  {
  }

  lemma OwnSyncTail(c: Config, u: iset<Bytes>, w: World, k: nat, order: seq<nat>, commits: seq<nat>)
    requires Sound(c, u) && WorldOk(c, u, w) && Enabled(c, u, w, Sync(k, order, commits)) && FreshOk(c, w, k)
    ensures var w', path := SyncStep(c, w, k, order, commits), w.sessions[k].path;
            Openable(w', path) && TailEmpty(IdsOf(c, w', path), w.sessions[k].pager.present)
  {
    var q := OwnFlush(c, u, w, k, order, commits);
    SyncTail(c, u, w, k, order, commits, w.sessions[k].pager.present);
  }

  lemma ReaderSyncTail(c: Config, u: iset<Bytes>, w: World, j: nat, k: nat, order: seq<nat>, commits: seq<nat>)
    requires Sound(c, u) && WorldOk(c, u, w) && Enabled(c, u, w, Sync(j, order, commits)) && FreshOk(c, w, k)
    requires j != k && w.sessions[j].path == w.sessions[k].path
    ensures var w', path := SyncStep(c, w, j, order, commits), w.sessions[k].path;
            Openable(w', path) && TailEmpty(IdsOf(c, w', path), w.sessions[k].pager.present)
  {
    assert EarlyReader(w.sessions[j].pager, w.sessions[k].pager.present);
    ReaderRecords(c, u, w, j, order, commits);
    SyncTail(c, u, w, j, order, commits, w.sessions[k].pager.present);
  }

  lemma TailStays(c: Config, u: iset<Bytes>, w: World, e: Event, k: nat)
    requires Sound(c, u) && WorldOk(c, u, w) && FreshOk(c, w, k) && Enabled(c, u, w, e)
    ensures var w', path := Step(c, w, e), w.sessions[k].path;
            Openable(w', path) && TailEmpty(IdsOf(c, w', path), w.sessions[k].pager.present)
  {
    var path := w.sessions[k].path;
    if !WritesVersion(w, e, path) {
      StepLeavesFile(c, w, e, path);
    } else if e.k == k {
      OwnSyncTail(c, u, w, k, e.order, e.commits);
    } else {
      ReaderSyncTail(c, u, w, e.k, k, e.order, e.commits);
    }
  }

  lemma EarlyReadersStay(c: Config, u: iset<Bytes>, w: World, e: Event, k: nat, j: nat)
    requires Sound(c, u) && WorldOk(c, u, w) && FreshOk(c, w, k) && Enabled(c, u, w, e)
    requires !Intrudes(e, w.sessions[k].path)
    requires j in Step(c, w, e).sessions && j != k && Step(c, w, e).sessions[j].path == w.sessions[k].path
    ensures EarlyReader(Step(c, w, e).sessions[j].pager, w.sessions[k].pager.present)
  {
    if j in w.sessions {
      PathStays(c, u, w, e, j);
      assert EarlyReader(w.sessions[j].pager, w.sessions[k].pager.present);
      StepKeepsReader(c, u, w, e, j);
    } else {
      StartsAre(c, w, e, j);
      assert HasSessionOn(w, w.sessions[k].path);
    }
  }

  lemma StepStaysFresh(c: Config, u: iset<Bytes>, w: World, e: Event, k: nat)
    requires Sound(c, u) && WorldOk(c, u, w) && FreshOk(c, w, k) && Enabled(c, u, w, e)
    requires k in Step(c, w, e).sessions && !Intrudes(e, w.sessions[k].path)
    ensures FreshOk(c, Step(c, w, e), k) && Step(c, w, e).sessions[k].path == w.sessions[k].path
  {
    var w' := Step(c, w, e);
    PathStays(c, u, w, e, k);
    StepStaysCovered(c, u, w, e, k);
    TailStays(c, u, w, e, k);
    forall j | j in w'.sessions && j != k && w'.sessions[j].path == w'.sessions[k].path
      ensures EarlyReader(w'.sessions[j].pager, w'.sessions[k].pager.present)
    {
      EarlyReadersStay(c, u, w, e, k, j);
    }
  }

  ghost predicate NoIntrusion(events: seq<Event>, path: string) {
    forall i | 0 <= i < |events| :: !Intrudes(events[i], path)
  }

  lemma LastStaysFresh(c: Config, u: iset<Bytes>, w: World, events: seq<Event>, k: nat)
    requires Sound(c, u) && WorldOk(c, u, w) && ValidRun(c, u, w, events) && events != []
    requires NeverRestarts(events, k) && k in Run(c, w, events).sessions
    requires var v := Run(c, w, events[..|events| - 1]);
             FreshOk(c, v, k) && !Intrudes(events[|events| - 1], v.sessions[k].path)
    ensures FreshOk(c, Run(c, w, events), k)
    ensures Run(c, w, events).sessions[k].path == Run(c, w, events[..|events| - 1]).sessions[k].path
  {
    var v, e := BeforeLast(c, u, w, events, k);
    StepStaysFresh(c, u, v, e, k);
  }

  lemma EarlierRun(c: Config, u: iset<Bytes>, w: World, events: seq<Event>, k: nat, path: string)
    requires Sound(c, u) && WorldOk(c, u, w) && ValidRun(c, u, w, events) && events != []
    requires NeverRestarts(events, k) && NoIntrusion(events, path) && k in Run(c, w, events).sessions
    ensures ValidRun(c, u, w, events[..|events| - 1]) && k in Run(c, w, events[..|events| - 1]).sessions
    ensures NeverRestarts(events[..|events| - 1], k) && NoIntrusion(events[..|events| - 1], path)
    ensures !Intrudes(events[|events| - 1], path)
  {
    AliveBefore(c, u, w, events, k);
  }

  lemma {:induction false} RunStaysFresh(c: Config, u: iset<Bytes>, w: World, events: seq<Event>, k: nat)
    requires Sound(c, u) && WorldOk(c, u, w) && ValidRun(c, u, w, events) && FreshOk(c, w, k)
    requires NeverRestarts(events, k) && NoIntrusion(events, w.sessions[k].path) && k in Run(c, w, events).sessions
    ensures FreshOk(c, Run(c, w, events), k) && Run(c, w, events).sessions[k].path == w.sessions[k].path
    decreases |events|
  {
    if events != [] {
      EarlierRun(c, u, w, events, k, w.sessions[k].path);
      RunStaysFresh(c, u, w, events[..|events| - 1], k);
      LastStaysFresh(c, u, w, events, k);
    }
  }

  /** Creating a region that fits its budget. */
  lemma CreatedIsFresh(c: Config, u: iset<Bytes>, w: World, k: nat, path: string, size: nat, budget: nat,
                       overwrite: bool)
    requires Sound(c, u) && WorldOk(c, u, w) && Enabled(c, u, w, Create(k, path, size, budget, overwrite))
    requires (path in w.versions ==> overwrite) && NumBlocks(c, RoundUp(c, size)) <= budget
    ensures FreshOk(c, CreateStep(c, w, k, path, size, budget, overwrite), k)
  {
  }

  lemma AbsentIsZero(c: Config, u: iset<Bytes>, w: World, k: nat, i: nat)
    requires Sound(c, u) && WorldOk(c, u, w) && k in w.sessions && Covered(w.sessions[k].pager)
    requires i < |View(w, k).ids| && i !in View(w, k).present
    ensures |View(w, k).mem| == |View(w, k).ids| && Logical(c, View(w, k), i) == Zeros(c.blockSize)
  {
    assert SessionOk(c, u, w.versions, w.disk, w.sessions[k]);
    EmptyIsNoFile(c, u, w.disk.files, Base);
  }

  /** A snapshot of a covered region recovers every block. */
  lemma CoveredSnapshotRecovers(c: Config, u: iset<Bytes>, w: World, k: nat, path: string,
                                order: seq<nat>, commits: seq<nat>)
    requires Sound(c, u) && WorldOk(c, u, w) && k in w.sessions && Covered(w.sessions[k].pager)
    requires Flush.Orders(View(w, k), order, commits) && !HasMetadata(w, path)
    ensures var w', p := SnapshotStep(c, w, k, path, order, commits), View(w, k);
            && Openable(w', path) && BlocksOf(c, w', path) == |p.ids| == |p.mem|
            && forall i | 0 <= i < |p.ids| :: Recovered(c, w', path, i) == Logical(c, p, i)
  {
    SnapshotRecoversAllIff(c, u, w, k, path, order, commits);
    forall i | 0 <= i < |View(w, k).ids| && !UpToHighest(View(w, k).present, i)
      ensures Logical(c, View(w, k), i) == Zeros(c.blockSize)
    {
      AbsentIsZero(c, u, w, k, i);
    }
  }

  lemma FreshTailSaved(c: Config, u: iset<Bytes>, w: World, k: nat, i: nat)
    requires Sound(c, u) && WorldOk(c, u, w) && FreshOk(c, w, k)
    requires i < |View(w, k).ids| && !UpToHighest(View(w, k).present, i)
    ensures var path := w.sessions[k].path;
            && i < BlocksOf(c, w, path) && |View(w, k).mem| == |View(w, k).ids|
            && Recovered(c, w, path, i) == Logical(c, View(w, k), i)
  {
    assert SessionOk(c, u, w.versions, w.disk, w.sessions[k]);
    AbsentIsZero(c, u, w, k, i);
    EmptyIsNoFile(c, u, w.disk.files, Base);
  }

  /** msync of a fresh region saves every block in its own version, and so does close. */
  lemma FreshSyncRecovers(c: Config, u: iset<Bytes>, w: World, k: nat, order: seq<nat>, commits: seq<nat>)
    requires Sound(c, u) && WorldOk(c, u, w) && FreshOk(c, w, k) && Flush.Orders(View(w, k), order, commits)
    ensures var w', p, path := SyncStep(c, w, k, order, commits), View(w, k), w.sessions[k].path;
            && Openable(w', path) && BlocksOf(c, w', path) == |p.ids| == |p.mem|
            && forall i | 0 <= i < |p.ids| :: Recovered(c, w', path, i) == Logical(c, p, i)
  {
    SyncRecoversAllIff(c, u, w, k, order, commits);
    forall i | 0 <= i < |View(w, k).ids| && !UpToHighest(View(w, k).present, i)
      ensures Recovered(c, w, w.sessions[k].path, i) == Logical(c, View(w, k), i)
    {
      FreshTailSaved(c, u, w, k, i);
    }
  }

  /** Closing a fresh region and opening its version again shows what was there. */
  lemma CloseAndReopen(c: Config, u: iset<Bytes>, w: World, k: nat, order: seq<nat>, commits: seq<nat>, budget: nat,
                       readOnly: bool, i: nat)
    requires Sound(c, u) && WorldOk(c, u, w) && FreshOk(c, w, k) && Flush.Orders(View(w, k), order, commits)
    requires budget > 0 && i < |View(w, k).ids|
    ensures var path := w.sessions[k].path;
            var w' := OpenStep(c, Step(c, w, Close(k, order, commits)), k, path, budget, readOnly);
            && k in w'.sessions && |View(w', k).ids| == |View(w, k).ids| == |View(w, k).mem| == |View(w', k).mem|
            && Logical(c, View(w', k), i) == Logical(c, View(w, k), i)
  {
    var w1 := SyncStep(c, w, k, order, commits);
    FreshSyncRecovers(c, u, w, k, order, commits);
    StepKeeps(c, u, w, Close(k, order, commits));
    OpenShowsRecovered(c, u, Exit(w1, k), k, w.sessions[k].path, budget, readOnly);
    assert Recovered(c, Exit(w1, k), w.sessions[k].path, i) == Recovered(c, w1, w.sessions[k].path, i);
  }

  /**
    The snapshot round trip: create a region that fits its budget, let all processes
    run, take a snapshot, let them run anything that does not write-open or recreate the
    snapshot, open it: block for block, what was there when it was taken.
   */
  lemma SnapshotRoundTrip(c: Config, u: iset<Bytes>, w: World, k: nat, events: seq<Event>,
                          path: string, order: seq<nat>, commits: seq<nat>, later: seq<Event>, i: nat)
    requires Sound(c, u) && WorldOk(c, u, w) && k in w.sessions && Covered(w.sessions[k].pager)
    requires ValidRun(c, u, w, events) && NeverRestarts(events, k)
    requires var live := Run(c, w, events);
             && k in live.sessions && Flush.Orders(View(live, k), order, commits) && !HasMetadata(live, path)
             && ValidRun(c, u, SnapshotStep(c, live, k, path, order, commits), later) && LeavesAlone(later, path)
             && i < |View(live, k).ids|
    ensures var live := Run(c, w, events);
            var w' := Run(c, SnapshotStep(c, live, k, path, order, commits), later);
            && |View(live, k).mem| == |View(live, k).ids|
            && Openable(w', path) && BlocksOf(c, w', path) == |View(live, k).ids|
            && Recovered(c, w', path, i) == Logical(c, View(live, k), i)
  {
    var live := Run(c, w, events);
    RunKeeps(c, u, w, events);
    RunStaysCovered(c, u, w, events, k);
    CoveredSnapshotRecovers(c, u, live, k, path, order, commits);
    SnapshotIsProtected(c, u, live, k, path, order, commits);
    var w1, q := SnapshotStepKeeps(c, u, live, k, path, order, commits);
    VersionIsImmutable(c, u, w1, later, path, i);
  }

  /** The same from the user's side: what a process that opens the snapshot at the end sees in its region. */
  lemma OpenedSnapshotIsWhatWasSaved(c: Config, u: iset<Bytes>, w: World, k: nat, events: seq<Event>,
                                     path: string, order: seq<nat>, commits: seq<nat>, later: seq<Event>,
                                     j: nat, budget: nat, readOnly: bool, i: nat)
    requires Sound(c, u) && WorldOk(c, u, w) && k in w.sessions && Covered(w.sessions[k].pager)
    requires ValidRun(c, u, w, events) && NeverRestarts(events, k)
    requires var live := Run(c, w, events);
             && k in live.sessions && Flush.Orders(View(live, k), order, commits) && !HasMetadata(live, path)
             && ValidRun(c, u, SnapshotStep(c, live, k, path, order, commits), later) && LeavesAlone(later, path)
             && i < |View(live, k).ids|
             && Enabled(c, u, Run(c, SnapshotStep(c, live, k, path, order, commits), later),
                        Open(j, path, budget, readOnly))
    ensures var live := Run(c, w, events);
            var w1 := Run(c, SnapshotStep(c, live, k, path, order, commits), later);
            var w' := OpenStep(c, w1, j, path, budget, readOnly);
            && j in w'.sessions && |View(w', j).ids| == |View(live, k).ids| == |View(live, k).mem| == |View(w', j).mem|
            && Logical(c, View(w', j), i) == Logical(c, View(live, k), i)
  {
    var live := Run(c, w, events);
    RunKeeps(c, u, w, events);
    var w1, q := SnapshotStepKeeps(c, u, live, k, path, order, commits);
    SnapshotRoundTrip(c, u, w, k, events, path, order, commits, later, i);
    RunKeeps(c, u, w1, later);
    OpenShowsRecovered(c, u, Run(c, w1, later), j, path, budget, readOnly);
  }
}

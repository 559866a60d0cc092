/**
  Read-only sessions. Nothing they do adds to the base tier or to the stash, and
  what they see never changes. Their msync and close write their version's
  metadata all the same: harmless when the file still holds the ids the session
  was opened with, and a rollback of a writer's records when it does not.
 */
module ReadOnly {
  import opened Blocks
  import opened Store
  import opened Pager
  import opened PagerLemmas
  import opened World
  import opened WorldLemmas
  import opened Recovery
  import opened Steps
  import opened Isolation
  import opened Contents
  import Access
  import Flush
  import FlushLemmas

  /** The disks agree but for copies of base files in the stash tier. */
  ghost predicate SameBase(d: Disk, d': Disk) {
    && (forall id :: File(Base, id) in d.files <==> File(Base, id) in d'.files)
    && (forall id | File(Base, id) in d.files && File(Base, id) in d'.files ::
          d'.files[File(Base, id)] == d.files[File(Base, id)])
    && d'.stash == d.stash && d'.nextUuid == d.nextUuid
  }

  lemma ReadBlockSameBase(c: Config, s: Storage, i: nat, id: Id)
    requires ReadBlock(c, s, i, id).Some?
    ensures SameBase(s.disk, ReadBlock(c, s, i, id).value.0.disk)
    ensures ReadBlock(c, s, i, id).value.0.stashIds == s.stashIds
  {
  }

  lemma FetchSameBase(c: Config, u: iset<Bytes>, p: Pager, b: nat)
    requires Sound(c, u) && PagerOk(c, u, p) && b < |p.ids| && b !in p.present
    ensures Fetch(c, p, b).Some? && SameBase(p.store.disk, Fetch(c, p, b).value.0.disk)
  {
    var store := FetchGivesBacking(c, u, p, b);
    if b !in p.store.stashIds && p.ids[b] != EmptyBlockHash() {
      ReadBlockSameBase(c, p.store, b, p.ids[b]);
    }
  }

  lemma EvictSameStore(c: Config, u: iset<Bytes>, p: Pager) returns (e: Pager)
    requires Sound(c, u) && PagerOk(c, u, p) && p.readOnly
    ensures Evict(c, p) == Some(e) && PagerOk(c, u, e)
    ensures e.store == p.store && e.present <= p.present && |e.ids| == |p.ids|
  {
    e := EvictKeeps(c, u, p);
  }

  /** A read-only session's fault never writes a stash file and never adds to the base tier. */
  lemma LoadSameBase(c: Config, u: iset<Bytes>, p: Pager, b: nat)
    requires Sound(c, u) && PagerOk(c, u, p) && p.readOnly && b < |p.ids|
    ensures AccessBlock(c, p, b, false).Some?
    ensures SameBase(p.store.disk, AccessBlock(c, p, b, false).value.store.disk)
  {
    if !Permits(p.prot[b], false) {
      AbsentWhenForbidden(c, u, p, b);
      var e := EvictSameStore(c, u, p);
      FetchSameBase(c, u, e, b);
    }
  }

  lemma AbsentWhenForbidden(c: Config, u: iset<Bytes>, p: Pager, b: nat)
    requires PagerOk(c, u, p) && b < |p.ids| && !Permits(p.prot[b], false)
    ensures b !in p.present
  {
    assert PageOk(c, u, p, b);
    InLists(p, b);
  }

  lemma SyncSameDisk(c: Config, u: iset<Bytes>, p: Pager, order: seq<nat>, commits: seq<nat>)
    requires Sound(c, u) && PagerOk(c, u, p) && p.readOnly && Flush.Orders(p, order, commits)
    ensures FlushReady(p, order, commits) && Flush.MSync(c, p, order, commits).Some?
    ensures SameBase(p.store.disk, Flush.MSync(c, p, order, commits).value.store.disk)
  {
    var q := FlushLemmas.MSyncKeeps(c, u, p, order, commits);
    assert multiset(order) == multiset{} && multiset(commits) == multiset{};
    assert |multiset(order)| == |order| && |multiset(commits)| == |commits|;
  }

  /** An operation of the region process `k` has open. */
  ghost predicate OwnEvent(e: Event, k: nat) {
    !e.Create? && !e.Open? && !e.OpenImmutable? && e.k == k
  }

  // ---------- Among other processes ----------

  /** The session is gone, or still read-only with nothing dirty and nothing stashed. */
  ghost predicate Inert(w: World, k: nat) {
    k in w.sessions ==>
      && w.sessions[k].pager.readOnly && w.sessions[k].pager.dirty == [] && w.sessions[k].pager.stashSet == {}
  }

  lemma ReadOnlyIsInert(c: Config, u: iset<Bytes>, w: World, k: nat)
    requires WorldOk(c, u, w) && (k in w.sessions ==> w.sessions[k].pager.readOnly)
    ensures Inert(w, k)
  {
    if k in w.sessions {
      assert SessionOk(c, u, w.versions, w.disk, w.sessions[k]);
    }
  }

  lemma StepKeepsView(c: Config, u: iset<Bytes>, w: World, e: Event, k: nat)
    requires Sound(c, u) && WorldOk(c, u, w) && Enabled(c, u, w, e)
    requires k in w.sessions && w.sessions[k].pager.readOnly && k in Step(c, w, e).sessions
    ensures SameContents(c, View(w, k), View(Step(c, w, e), k))
  {
    if e.WriteByte? && e.k == k {
      ReadOnlyWriteStep(c, u, w, k, e.off, e.value);
    } else {
      StepSees(c, u, w, e, k);
    }
  }

  lemma {:induction false} RunKeepsReader(c: Config, u: iset<Bytes>, w: World, events: seq<Event>, k: nat)
    requires Sound(c, u) && WorldOk(c, u, w) && ValidRun(c, u, w, events) && NeverRestarts(events, k)
    requires k in w.sessions && w.sessions[k].pager.readOnly && k in Run(c, w, events).sessions
    ensures SameReader(w.sessions[k], Run(c, w, events).sessions[k])
    decreases |events|
  {
    if events != [] {
      var v, e := BeforeLast(c, u, w, events, k);
      RunKeepsReader(c, u, w, events[..|events| - 1], k);
      StepKeepsReader(c, u, v, e, k);
    }
  }

  lemma SameContentsTransitive(c: Config, p: Pager, q: Pager, r: Pager)
    requires SameContents(c, p, q) && SameContents(c, q, r)
    ensures SameContents(c, p, r)
  {
  }

  lemma {:induction false} RunKeepsView(c: Config, u: iset<Bytes>, w: World, events: seq<Event>, k: nat)
    requires Sound(c, u) && WorldOk(c, u, w) && ValidRun(c, u, w, events) && NeverRestarts(events, k)
    requires k in w.sessions && w.sessions[k].pager.readOnly && k in Run(c, w, events).sessions
    ensures SameContents(c, View(w, k), View(Run(c, w, events), k))
    decreases |events|
  {
    if events == [] {
      SessionPagerOk(c, u, w, k);
    } else {
      var v, e := BeforeLast(c, u, w, events, k);
      RunKeepsReader(c, u, w, events[..|events| - 1], k);
      RunKeepsView(c, u, w, events[..|events| - 1], k);
      StepKeepsView(c, u, v, e, k);
      SameContentsTransitive(c, View(w, k), View(v, k), View(Run(c, w, events), k));
    }
  }

  /**
    Over every run of all processes, writers of the same version included: a
    read-only session that goes on stays read-only, has nothing dirty and nothing
    stashed, keeps its ids, and sees exactly what it saw when it was opened.
   */
  lemma ReaderIsUndisturbed(c: Config, u: iset<Bytes>, w: World, events: seq<Event>, k: nat)
    requires Sound(c, u) && WorldOk(c, u, w) && ValidRun(c, u, w, events) && NeverRestarts(events, k)
    requires k in w.sessions && w.sessions[k].pager.readOnly && k in Run(c, w, events).sessions
    ensures var w' := Run(c, w, events);
            && Inert(w', k) && SameReader(w.sessions[k], w'.sessions[k]) && SameContents(c, View(w, k), View(w', k))
  {
    RunKeepsReader(c, u, w, events, k);
    RunKeepsView(c, u, w, events, k);
    RunKeeps(c, u, w, events);
    ReadOnlyIsInert(c, u, Run(c, w, events), k);
  }

  // ---------- What its own steps leave ----------

  lemma OwnSnapshotSameBase(c: Config, u: iset<Bytes>, w: World, k: nat, path: string, order: seq<nat>,
                            commits: seq<nat>)
    requires Sound(c, u) && WorldOk(c, u, w) && Enabled(c, u, w, Snapshot(k, path, order, commits))
    requires w.sessions[k].pager.readOnly
    ensures SameBase(w.disk, SnapshotStep(c, w, k, path, order, commits).disk)
  {
    assert SessionOk(c, u, w.versions, w.disk, w.sessions[k]);
    if HasMetadata(w, path) {
      SnapshotRefused(c, u, w, k, path, order, commits);
    } else {
      var w', q := SnapshotStepKeeps(c, u, w, k, path, order, commits);
      SyncSameDisk(c, u, View(w, k), order, commits);
    }
  }

  lemma OwnSyncSameBase(c: Config, u: iset<Bytes>, w: World, k: nat, order: seq<nat>, commits: seq<nat>)
    requires Sound(c, u) && WorldOk(c, u, w) && Enabled(c, u, w, Sync(k, order, commits))
    requires w.sessions[k].pager.readOnly
    ensures SameBase(w.disk, SyncStep(c, w, k, order, commits).disk)
  {
    assert SessionOk(c, u, w.versions, w.disk, w.sessions[k]);
    var w', q := SyncStepKeeps(c, u, w, k, order, commits);
    SyncSameDisk(c, u, View(w, k), order, commits);
  }

  lemma NoTasks(c: Config, u: iset<Bytes>, p: Pager, order: seq<nat>, commits: seq<nat>)
    requires PagerOk(c, u, p) && p.readOnly && Flush.Orders(p, order, commits)
    ensures order == [] && commits == []
  {
    assert multiset(order) == multiset{} && multiset(commits) == multiset{};
    assert |multiset(order)| == |order| && |multiset(commits)| == |commits|;
  }

  lemma OwnDeathSameBase(c: Config, u: iset<Bytes>, w: World, e: Event)
    requires Sound(c, u) && WorldOk(c, u, w) && Enabled(c, u, w, e) && (e.DieInSync? || e.DieInSnapshot?)
    requires w.sessions[e.k].pager.readOnly
    ensures SameBase(w.disk, Step(c, w, e).disk)
  {
    SessionPagerOk(c, u, w, e.k);
    if !(e.DieInSnapshot? && HasMetadata(w, e.path)) {
      NothingInterrupted(c, u, View(w, e.k), e.order, e.stored, e.commits, e.committed);
    }
  }

  lemma NothingInterrupted(c: Config, u: iset<Bytes>, p: Pager, order: seq<nat>, stored: nat, commits: seq<nat>,
                           committed: nat)
    requires PagerOk(c, u, p) && p.readOnly && Interruptible(p, order, stored, commits, committed)
    ensures FlushReady(p, order, commits)
    ensures Flush.Interrupted(c, p, order, stored, commits, committed) == p.store
  {
    NoTasks(c, u, p, order, commits);
  }

  lemma OwnReadSameBase(c: Config, u: iset<Bytes>, w: World, k: nat, off: nat)
    requires Sound(c, u) && WorldOk(c, u, w) && Enabled(c, u, w, ReadByte(k, off)) && w.sessions[k].pager.readOnly
    ensures SameBase(w.disk, Step(c, w, ReadByte(k, off)).disk)
  {
    assert SessionOk(c, u, w.versions, w.disk, w.sessions[k]);
    var q := ReadStep(c, u, w, k, off);
    LoadSameBase(c, u, View(w, k), Access.BlockOf(c, off));
  }

  /**
    At any point of a run of all processes, a step of a read-only session leaves
    the base tier and every stash file as they are.
   */
  lemma StepSameBase(c: Config, u: iset<Bytes>, w: World, e: Event, k: nat)
    requires Sound(c, u) && WorldOk(c, u, w) && Enabled(c, u, w, e) && OwnEvent(e, k)
    requires k in w.sessions ==> w.sessions[k].pager.readOnly
    ensures SameBase(w.disk, Step(c, w, e).disk)
  {
    match e
    case Kill(_) =>
    case ReadByte(_, off) => OwnReadSameBase(c, u, w, k, off);
    case WriteByte(_, off, v) => ReadOnlyWriteStep(c, u, w, k, off, v);
    case Sync(_, order, commits) => OwnSyncSameBase(c, u, w, k, order, commits);
    case Snapshot(_, path, order, commits) => OwnSnapshotSameBase(c, u, w, k, path, order, commits);
    case Close(_, order, commits) => OwnSyncSameBase(c, u, w, k, order, commits);
    case DieInSync(_, _, _, _, _) => OwnDeathSameBase(c, u, w, e);
    case DieInSnapshot(_, _, _, _, _, _, _) => OwnDeathSameBase(c, u, w, e);
  }

  /** The records the session would write are not what its version's file says. */
  ghost predicate Stale(c: Config, w: World, k: nat)
    requires k in w.sessions && Openable(w, w.sessions[k].path)
  {
    var ids, current := w.sessions[k].pager.ids, IdsOf(c, w, w.sessions[k].path);
    exists i :: 0 <= i < |ids| && i < |current| && UpToHighest(w.sessions[k].pager.present, i) && ids[i] != current[i]
  }

  lemma SyncChangesIffStale(c: Config, u: iset<Bytes>, w: World, k: nat, order: seq<nat>, commits: seq<nat>)
    requires Sound(c, u) && WorldOk(c, u, w) && Enabled(c, u, w, Sync(k, order, commits))
    requires w.sessions[k].pager.readOnly
    ensures var path := w.sessions[k].path;
            && Openable(w, path) && Openable(SyncStep(c, w, k, order, commits), path)
            && (IdsOf(c, SyncStep(c, w, k, order, commits), path) == IdsOf(c, w, path) <==> !Stale(c, w, k))
  {
    ReaderSyncKeepsVersionIff(c, u, w, k, order, commits);
  }

  lemma WriterSessionIsOpenable(c: Config, u: iset<Bytes>, w: World, k: nat)
    requires WorldOk(c, u, w) && k in w.sessions
    ensures Openable(w, w.sessions[k].path)
  {
    assert SessionOk(c, u, w.versions, w.disk, w.sessions[k]);
  }

  /**
    A step of a read-only session changes the ids of a version exactly when it is
    msync or close on that version with stale records. Writing to the region,
    which ends the process, taking a snapshot and dying change none.
   */
  lemma StepKeepsVersionIff(c: Config, u: iset<Bytes>, w: World, e: Event, k: nat, path: string)
    requires Sound(c, u) && WorldOk(c, u, w) && Enabled(c, u, w, e) && OwnEvent(e, k) && Openable(w, path)
    requires k in w.sessions && w.sessions[k].pager.readOnly
    ensures Openable(w, w.sessions[k].path) && Openable(Step(c, w, e), path)
    ensures IdsOf(c, Step(c, w, e), path) == IdsOf(c, w, path)
            <==> !(WritesVersion(w, e, path) && Stale(c, w, k))
  {
    WriterSessionIsOpenable(c, u, w, k);
    if WritesVersion(w, e, path) {
      SyncChangesIffStale(c, u, w, k, e.order, e.commits);
    } else {
      StepLeavesFile(c, w, e, path);
    }
  }

  // ---------- A session on its own ----------

  ghost predicate OwnRun(events: seq<Event>, k: nat) {
    forall i | 0 <= i < |events| :: OwnEvent(events[i], k)
  }

  /** Gone, or read-only over the ids its version's file holds. */
  ghost predicate Current(c: Config, w: World, k: nat) {
    k in w.sessions ==>
      && w.sessions[k].pager.readOnly && Openable(w, w.sessions[k].path)
      && w.sessions[k].pager.ids == IdsOf(c, w, w.sessions[k].path)
  }

  lemma CurrentIsNotStale(c: Config, u: iset<Bytes>, w: World, k: nat)
    requires WorldOk(c, u, w) && k in w.sessions && Current(c, w, k)
    ensures !Stale(c, w, k)
  {
    assert SessionOk(c, u, w.versions, w.disk, w.sessions[k]);
    RecordsInRange(c, u, View(w, k));
  }

  lemma OwnStepKeepsVersions(c: Config, u: iset<Bytes>, w: World, e: Event, k: nat, path: string)
    requires Sound(c, u) && WorldOk(c, u, w) && Enabled(c, u, w, e) && OwnEvent(e, k) && Openable(w, path)
    requires Current(c, w, k)
    ensures Openable(Step(c, w, e), path) && IdsOf(c, Step(c, w, e), path) == IdsOf(c, w, path)
  {
    if k in w.sessions {
      CurrentIsNotStale(c, u, w, k);
      StepKeepsVersionIff(c, u, w, e, k, path);
    } else {
      StepLeavesFile(c, w, e, path);
    }
  }

  lemma OwnStepStaysCurrent(c: Config, u: iset<Bytes>, w: World, e: Event, k: nat)
    requires Sound(c, u) && WorldOk(c, u, w) && Enabled(c, u, w, e) && OwnEvent(e, k) && Current(c, w, k)
    ensures Current(c, Step(c, w, e), k)
  {
    if k in Step(c, w, e).sessions {
      if k !in w.sessions {
        StartsAre(c, w, e, k);
      } else {
        PathStays(c, u, w, e, k);
        StepKeepsReader(c, u, w, e, k);
        OwnStepKeepsVersions(c, u, w, e, k, w.sessions[k].path);
      }
    }
  }

  lemma {:induction false} OwnRunIsInert(c: Config, u: iset<Bytes>, w: World, events: seq<Event>, k: nat, path: string)
    requires Sound(c, u) && WorldOk(c, u, w) && ValidRun(c, u, w, events) && OwnRun(events, k)
    requires Current(c, w, k) && Openable(w, path)
    ensures var w' := Run(c, w, events);
            && Current(c, w', k) && SameBase(w.disk, w'.disk)
            && Openable(w', path) && IdsOf(c, w', path) == IdsOf(c, w, path)
    decreases |events|
  {
    if events != [] {
      var before, e := events[..|events| - 1], events[|events| - 1];
      OwnRunIsInert(c, u, w, before, k, path);
      RunKeeps(c, u, w, before);
      StepSameBase(c, u, Run(c, w, before), e, k);
      OwnStepStaysCurrent(c, u, Run(c, w, before), e, k);
      OwnStepKeepsVersions(c, u, Run(c, w, before), e, k, path);
    }
  }

  /**
    Open a version read-only, whoever else has it open, and run that session to
    any point while the others pause: nothing of it is ever dirty or stashed, the
    base tier and the stash files are as before, and the metadata file of every
    version there was still loads to the same ids, even if it has grown.
   */
  lemma ReadOnlySessionIsInert(c: Config, u: iset<Bytes>, w: World, k: nat, version: string, budget: nat,
                               events: seq<Event>, path: string)
    requires Sound(c, u) && WorldOk(c, u, w) && Enabled(c, u, w, Open(k, version, budget, true)) && Openable(w, path)
    requires var w1 := OpenStep(c, w, k, version, budget, true); ValidRun(c, u, w1, events) && OwnRun(events, k)
    ensures var w' := Run(c, OpenStep(c, w, k, version, budget, true), events);
            && Inert(w', k) && SameBase(w.disk, w'.disk)
            && Openable(w', path) && IdsOf(c, w', path) == IdsOf(c, w, path)
  {
    var w1 := OpenStep(c, w, k, version, budget, true);
    StepKeeps(c, u, w, Open(k, version, budget, true));
    StepLeavesFile(c, w, Open(k, version, budget, true), path);
    OwnRunIsInert(c, u, w1, events, k, path);
    RunKeeps(c, u, w1, events);
    ReadOnlyIsInert(c, u, Run(c, w1, events), k);
  }
}

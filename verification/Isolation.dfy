/**
  A version nobody opens for writing never changes: not the snapshot of a live
  region, not the source of an immutable open, whatever all processes do.
 */
module Isolation {
  import opened Blocks
  import opened Pager
  import opened World
  import opened WorldLemmas
  import opened Recovery
  import opened Steps
  import Flush
  import FlushLemmas

  /** Every process that has the version open is a reader that still holds the ids the version was opened with. */
  ghost predicate Protected(c: Config, w: World, path: string) {
    && Openable(w, path)
    && forall j | j in w.sessions && w.sessions[j].path == path :: Reader(c, w, path, w.sessions[j])
  }

  ghost predicate Reader(c: Config, w: World, path: string, s: Session)
    requires Openable(w, path)
  {
    s.pager.readOnly && s.pager.ids == IdsOf(c, w, path)
  }

  /** Opening the version for writing, or recreating it with leave to overwrite. */
  ghost predicate Touches(e: Event, path: string) {
    Overwrites(e, path) || (e.Open? && e.path == path && !e.readOnly)
  }

  ghost predicate LeavesAlone(events: seq<Event>, path: string) {
    forall i | 0 <= i < |events| :: !Touches(events[i], path)
  }

  /** The version as files: the same ids, and readers as before. */
  ghost predicate SameVersion(c: Config, w: World, w': World, path: string)
    requires Openable(w, path)
  {
    && Openable(w', path) && w'.versions[path].capacity == w.versions[path].capacity
    && IdsOf(c, w', path) == IdsOf(c, w, path)
  }

  lemma OverlaidIff(current: seq<Id>, ids: seq<Id>, n: nat)
    requires n <= |ids| == |current|
    ensures ids[..n] + current[n..] == current <==> ids[..n] == current[..n]
  {
    assert current[..n] + current[n..] == current;
    assert (ids[..n] + current[n..])[..n] == ids[..n];
  }

  lemma ReaderRecords(c: Config, u: iset<Bytes>, w: World, k: nat, order: seq<nat>, commits: seq<nat>)
    requires Sound(c, u) && WorldOk(c, u, w) && k in w.sessions && Flush.Orders(View(w, k), order, commits)
    requires w.sessions[k].pager.readOnly
    ensures FlushReady(View(w, k), order, commits) && Flush.MSync(c, View(w, k), order, commits).Some?
    ensures var q := Flush.MSync(c, View(w, k), order, commits).value;
            q.ids == View(w, k).ids && q.present == View(w, k).present && RecordsWritten(q) <= |q.ids|
  {
    assert SessionOk(c, u, w.versions, w.disk, w.sessions[k]);
    ReadOnlyIdsStay(c, u, View(w, k), order, commits);
    RecordsInRange(c, u, View(w, k));
    var q := FlushLemmas.MSyncKeeps(c, u, View(w, k), order, commits);
  }

  /**
    msync and close of a read-only session write its ids back all the same. They
    leave its version as it is exactly when the records they write, up to the
    highest resident block, are what the file says.
   */
  lemma ReaderSyncKeepsVersionIff(c: Config, u: iset<Bytes>, w: World, k: nat, order: seq<nat>, commits: seq<nat>)
    requires Sound(c, u) && WorldOk(c, u, w) && k in w.sessions && Flush.Orders(View(w, k), order, commits)
    requires w.sessions[k].pager.readOnly
    ensures var w', p, path := SyncStep(c, w, k, order, commits), View(w, k), w.sessions[k].path;
            && Openable(w, path) && Openable(w', path) && w'.versions[path].capacity == w.versions[path].capacity
            && |p.ids| == |IdsOf(c, w, path)|
            && (IdsOf(c, w', path) == IdsOf(c, w, path)
                <==> forall i | 0 <= i < |p.ids| && UpToHighest(p.present, i) :: p.ids[i] == IdsOf(c, w, path)[i])
  {
    var path := w.sessions[k].path;
    var w', q := SyncedIds(c, u, w, k, order, commits);
    ReaderRecords(c, u, w, k, order, commits);
    OverlaidIff(IdsOf(c, w, path), q.ids, RecordsWritten(q));
    SamePrefixIff(q, IdsOf(c, w, path));
  }

  lemma SamePrefixIff(q: Pager, current: seq<Id>)
    requires RecordsWritten(q) <= |q.ids| == |current|
    ensures q.ids[..RecordsWritten(q)] == current[..RecordsWritten(q)]
            <==> forall i | 0 <= i < |q.ids| && UpToHighest(q.present, i) :: q.ids[i] == current[i]
  {
    var n := RecordsWritten(q);
    if q.ids[..n] == current[..n] {
      forall i | 0 <= i < |q.ids| && UpToHighest(q.present, i)
        ensures q.ids[i] == current[i]
      {
        assert q.ids[..n][i] == current[..n][i];
      }
    }
  }

  lemma WriterIsReader(c: Config, u: iset<Bytes>, w: World, e: Event, path: string)
    requires Sound(c, u) && WorldOk(c, u, w) && Enabled(c, u, w, e) && Protected(c, w, path)
    requires WritesVersion(w, e, path)
    ensures SameVersion(c, w, Step(c, w, e), path)
  {
    assert Reader(c, w, path, w.sessions[e.k]);
    ReaderSyncKeepsVersionIff(c, u, w, e.k, e.order, e.commits);
  }

  /** A process that opens the version opens it for reading, and starts from its ids. */
  lemma StartedReader(c: Config, w: World, e: Event, j: nat, path: string)
    requires Openable(w, path) && !Touches(e, path)
    requires j !in w.sessions && j in Step(c, w, e).sessions && Step(c, w, e).sessions[j].path == path
    ensures Reader(c, w, path, Step(c, w, e).sessions[j])
  {
    StartsAre(c, w, e, j);
  }

  lemma ReaderStays(c: Config, u: iset<Bytes>, w: World, e: Event, path: string, j: nat)
    requires Sound(c, u) && WorldOk(c, u, w) && Enabled(c, u, w, e) && Protected(c, w, path) && !Touches(e, path)
    requires j in Step(c, w, e).sessions && Step(c, w, e).sessions[j].path == path
    ensures Reader(c, w, path, Step(c, w, e).sessions[j])
  {
    if j in w.sessions {
      PathStays(c, u, w, e, j);
      assert Reader(c, w, path, w.sessions[j]);
      StepKeepsReader(c, u, w, e, j);
    } else {
      StartedReader(c, w, e, j, path);
    }
  }

  lemma StepLeavesVersion(c: Config, u: iset<Bytes>, w: World, e: Event, path: string)
    requires Sound(c, u) && WorldOk(c, u, w) && Enabled(c, u, w, e) && Protected(c, w, path) && !Touches(e, path)
    ensures SameVersion(c, w, Step(c, w, e), path) && Protected(c, Step(c, w, e), path)
  {
    var w' := Step(c, w, e);
    if WritesVersion(w, e, path) {
      WriterIsReader(c, u, w, e, path);
    } else {
      StepLeavesFile(c, w, e, path);
    }
    forall j | j in w'.sessions && w'.sessions[j].path == path
      ensures Reader(c, w', path, w'.sessions[j])
    {
      ReaderStays(c, u, w, e, path, j);
    }
  }

  /** Files are never removed. */
  lemma StepKeepsFiles(c: Config, u: iset<Bytes>, w: World, e: Event)
    requires Sound(c, u) && WorldOk(c, u, w) && Enabled(c, u, w, e)
    ensures w.disk.files.Keys <= Step(c, w, e).disk.files.Keys
  {
    match e
    case Create(_, _, _, _, _) =>
    case Open(_, _, _, _) =>
    case OpenImmutable(_, _, _, _) =>
    case Kill(_) =>
    case ReadByte(k, off) =>
      var q := ReadStep(c, u, w, k, off);
    case WriteByte(k, off, v) =>
      if View(w, k).readOnly {
        ReadOnlyWriteStep(c, u, w, k, off, v);
      } else {
        var q := WriteStep(c, u, w, k, off, v);
      }
    case Sync(k, order, commits) =>
      var w', q := SyncStepKeeps(c, u, w, k, order, commits);
    case Snapshot(k, path, order, commits) =>
      if HasMetadata(w, path) {
        SnapshotRefused(c, u, w, k, path, order, commits);
      } else {
        var w', q := SnapshotStepKeeps(c, u, w, k, path, order, commits);
      }
    case Close(k, order, commits) =>
      var w', q := SyncStepKeeps(c, u, w, k, order, commits);
    case DieInSync(_, _, _, _, _) =>
      var t := DeathStep(c, u, w, e);
    case DieInSnapshot(_, _, _, _, _, _, _) =>
      var t := DeathStep(c, u, w, e);
  }

  lemma {:induction false} RunLeavesVersion(c: Config, u: iset<Bytes>, w: World, events: seq<Event>, path: string)
    requires Sound(c, u) && WorldOk(c, u, w) && ValidRun(c, u, w, events)
    requires Protected(c, w, path) && LeavesAlone(events, path)
    ensures SameVersion(c, w, Run(c, w, events), path) && Protected(c, Run(c, w, events), path)
    ensures w.disk.files.Keys <= Run(c, w, events).disk.files.Keys
    decreases |events|
  {
    if events != [] {
      var before := events[..|events| - 1];
      RunLeavesVersion(c, u, w, before, path);
      RunKeeps(c, u, w, before);
      StepLeavesVersion(c, u, Run(c, w, before), events[|events| - 1], path);
      StepKeepsFiles(c, u, Run(c, w, before), events[|events| - 1]);
    }
  }

  /**
    Isolation: over every run of every process that does not open the version for
    writing or recreate it, what opening it returns does not change.
   */
  lemma VersionIsImmutable(c: Config, u: iset<Bytes>, w: World, events: seq<Event>, path: string, i: nat)
    requires Sound(c, u) && WorldOk(c, u, w) && ValidRun(c, u, w, events)
    requires Protected(c, w, path) && LeavesAlone(events, path) && i < BlocksOf(c, w, path)
    ensures var w' := Run(c, w, events);
            && Openable(w', path) && BlocksOf(c, w', path) == BlocksOf(c, w, path)
            && Recovered(c, w', path, i) == Recovered(c, w, path, i)
  {
    RunLeavesVersion(c, u, w, events, path);
    RunKeeps(c, u, w, events);
    RecoveredStays(c, u, w, path, Run(c, w, events).disk.files, i);
  }

  /** A snapshot that was just taken is protected: no process has it open. */
  lemma SnapshotIsProtected(c: Config, u: iset<Bytes>, w: World, k: nat, path: string, order: seq<nat>,
                            commits: seq<nat>)
    requires Sound(c, u) && WorldOk(c, u, w) && k in w.sessions && Flush.Orders(View(w, k), order, commits)
    requires !HasMetadata(w, path)
    ensures Protected(c, SnapshotStep(c, w, k, path, order, commits), path)
  {
    var w', q := SnapshotStepKeeps(c, u, w, k, path, order, commits);
    NoMetadataNoSession(c, u, w, path);
    forall j | j in w'.sessions
      ensures w'.sessions[j].path != path
    {
      PathStays(c, u, w, Snapshot(k, path, order, commits), j);
    }
  }

  /** An immutable open leaves its source protected, if no process was writing it, and starts from its contents. */
  lemma OpenImmutableProtectsSource(c: Config, u: iset<Bytes>, w: World, k: nat, source: string, target: string,
                                    budget: nat)
    requires Sound(c, u) && WorldOk(c, u, w) && Enabled(c, u, w, OpenImmutable(k, source, target, budget))
    requires Protected(c, w, source) && target !in w.versions
    ensures var w' := OpenImmutableStep(c, w, k, source, target, budget);
            && Protected(c, w', source) && BlocksOf(c, w', source) == BlocksOf(c, w, source)
            && k in w'.sessions && w'.sessions[k].path == target && |View(w', k).ids| == BlocksOf(c, w, source)
            && |View(w', k).mem| == BlocksOf(c, w, source)
            && !View(w', k).readOnly && View(w', k).budget == budget
            && forall i | 0 <= i < BlocksOf(c, w, source) :: Logical(c, View(w', k), i) == Recovered(c, w, source, i)
  {
    StepLeavesVersion(c, u, w, OpenImmutable(k, source, target, budget), source);
    OpenImmutableShows(c, u, w, k, source, target, budget);
  }

  lemma OpenImmutableShows(c: Config, u: iset<Bytes>, w: World, k: nat, source: string, target: string, budget: nat)
    requires Sound(c, u) && WorldOk(c, u, w) && Enabled(c, u, w, OpenImmutable(k, source, target, budget))
    requires Openable(w, source) && target !in w.versions
    ensures var w' := OpenImmutableStep(c, w, k, source, target, budget);
            && k in w'.sessions && w'.sessions[k].path == target && |View(w', k).ids| == BlocksOf(c, w, source)
            && |View(w', k).mem| == BlocksOf(c, w, source)
            && !View(w', k).readOnly && View(w', k).budget == budget
            && forall i | 0 <= i < BlocksOf(c, w, source) :: Logical(c, View(w', k), i) == Recovered(c, w, source, i)
  {
    var w1 := w.(versions := w.versions[target := w.versions[source]]);
    NoMetadataNoSession(c, u, w, target);
    AddVersion(c, u, w, target, w.versions[source]);
    OpenShowsRecovered(c, u, w1, k, target, budget, false);
  }
}

/**
  A process that dies inside msync, close or snapshot. update_metadata is the last
  thing a flush does and files are never removed, so what versions recover is as it
  was before. A death between operations is one of these with no task done.
 */
module Crash {
  import opened Blocks
  import opened Store
  import opened Pager
  import opened World
  import opened WorldLemmas
  import opened Recovery
  import opened Steps
  import Flush
  import FlushLemmas

  ghost predicate DiesInside(e: Event) {
    e.DieInSync? || e.DieInSnapshot?
  }

  /**
    Whichever of its tasks were done, in whatever order: every version, the one the
    process was writing included, opens as before, on ids that are all stored, and
    recovers block for block what it did.
   */
  lemma DeathChangesNoVersion(c: Config, u: iset<Bytes>, w: World, e: Event, path: string, i: nat)
    requires Sound(c, u) && WorldOk(c, u, w) && Enabled(c, u, w, e) && DiesInside(e)
    requires Openable(w, path) && i < BlocksOf(c, w, path)
    ensures var w' := Step(c, w, e);
            && Openable(w', path) && BlocksOf(c, w', path) == BlocksOf(c, w, path)
            && IdsOf(c, w', path) == IdsOf(c, w, path) && IdsStored(w'.disk.files, IdsOf(c, w', path))
            && Recovered(c, w', path, i) == Recovered(c, w, path, i)
  {
    StepLeavesFile(c, w, e, path);
    StepKeeps(c, u, w, e);
    LoadedIdsOk(c, u, Step(c, w, e), path);
    var t := DeathStep(c, u, w, e);
    RecoveredStays(c, u, w, path, Step(c, w, e).disk.files, i);
  }

  lemma DeathDisk(c: Config, u: iset<Bytes>, w: World, k: nat, order: seq<nat>, stored: nat, commits: seq<nat>,
                  committed: nat)
    requires WorldOk(c, u, w) && Enabled(c, u, w, DieInSync(k, order, stored, commits, committed))
    ensures PagerOk(c, u, View(w, k)) && InRange(order, |View(w, k).ids|) && InRange(commits, |View(w, k).ids|)
    ensures Step(c, w, DieInSync(k, order, stored, commits, committed)).disk
            == Flush.Interrupted(c, View(w, k), order, stored, commits, committed).disk
  {
    SessionPagerOk(c, u, w, k);
    Flush.OrdersInRange(View(w, k), order, commits);
  }

  /** Of a snapshot, a death leaves what it leaves of an msync; of a refused one, nothing. */
  lemma SnapshotDeathDisk(c: Config, w: World, e: Event)
    requires e.DieInSnapshot?
    ensures Step(c, w, e).disk
            == if HasMetadata(w, e.path) then w.disk
               else Step(c, w, DieInSync(e.k, e.order, e.stored, e.commits, e.committed)).disk
  {
  }

  /** There are new files for exactly the tasks that were done. */
  lemma DeathStoresTasksDone(c: Config, u: iset<Bytes>, w: World, k: nat, order: seq<nat>, stored: nat,
                             commits: seq<nat>, committed: nat, f: FileName)
    requires Sound(c, u) && WorldOk(c, u, w) && Enabled(c, u, w, DieInSync(k, order, stored, commits, committed))
    ensures var p := View(w, k);
            |p.mem| == |p.ids| && InRange(order, |p.ids|) && InRange(commits, |p.ids|)
    ensures var p := View(w, k);
            f in Step(c, w, DieInSync(k, order, stored, commits, committed)).disk.files
            <==> f in w.disk.files
                 || ((c.multi || f.tier.Base?)
                     && (FlushLemmas.TaskHash(c, p, order, stored, f.id)
                         || FlushLemmas.TaskHash(c, p, commits, committed, f.id)))
  {
    DeathDisk(c, u, w, k, order, stored, commits, committed);
    FlushLemmas.InterruptedFiles(c, u, View(w, k), order, stored, commits, committed, f);
  }

  /** And the stash files of exactly the commits that were done are gone; the others are as they were. */
  lemma DeathLeavesStash(c: Config, u: iset<Bytes>, w: World, k: nat, order: seq<nat>, stored: nat,
                         commits: seq<nat>, committed: nat, q: nat)
    requires Sound(c, u) && WorldOk(c, u, w) && Enabled(c, u, w, DieInSync(k, order, stored, commits, committed))
    ensures var stash := Step(c, w, DieInSync(k, order, stored, commits, committed)).disk.stash;
            && (q in stash <==>
                  q in w.disk.stash && !FlushLemmas.TaskStashFile(View(w, k).store, commits, committed, q))
            && (q in stash ==> stash[q] == w.disk.stash[q])
  {
    DeathDisk(c, u, w, k, order, stored, commits, committed);
    FlushLemmas.InterruptedStash(c, u, View(w, k), order, stored, commits, committed, q);
  }

  /** A process that opens a version after the death sees what it held before. */
  lemma ReopenAfterDeath(c: Config, u: iset<Bytes>, w: World, e: Event, path: string, k: nat, budget: nat,
                         readOnly: bool, i: nat)
    requires Sound(c, u) && WorldOk(c, u, w) && Enabled(c, u, w, e) && DiesInside(e)
    requires Openable(w, path) && i < BlocksOf(c, w, path)
    requires Enabled(c, u, Step(c, w, e), Open(k, path, budget, readOnly))
    ensures var w' := OpenStep(c, Step(c, w, e), k, path, budget, readOnly);
            && k in w'.sessions && |View(w', k).ids| == |View(w', k).mem| == BlocksOf(c, w, path)
            && Logical(c, View(w', k), i) == Recovered(c, w, path, i)
  {
    StepKeeps(c, u, w, e);
    DeathChangesNoVersion(c, u, w, e, path, i);
    OpenShowsRecovered(c, u, Step(c, w, e), k, path, budget, readOnly);
  }

  /** A snapshot interrupted before its capacity file was written cannot be opened, whatever its metadata file holds. */
  lemma InterruptedSnapshotIsClosed(c: Config, u: iset<Bytes>, w: World, e: Event)
    requires Sound(c, u) && WorldOk(c, u, w) && Enabled(c, u, w, e) && e.DieInSnapshot?
    ensures Openable(Step(c, w, e), e.path) <==> Openable(w, e.path)
    ensures !HasMetadata(w, e.path) ==> Step(c, w, e).versions[e.path].metadata == e.left
  {
  }

  /** And stays so, over every run in which nobody creates a version under its name with leave to overwrite. */
  lemma {:induction false} ClosedStaysClosed(c: Config, u: iset<Bytes>, w: World, events: seq<Event>, path: string)
    requires Sound(c, u) && WorldOk(c, u, w) && ValidRun(c, u, w, events)
    requires HasMetadata(w, path) && !Openable(w, path)
    requires forall i | 0 <= i < |events| :: !Overwrites(events[i], path)
    ensures HasMetadata(Run(c, w, events), path) && !Openable(Run(c, w, events), path)
    decreases |events|
  {
    if events != [] {
      var before := events[..|events| - 1];
      ClosedStaysClosed(c, u, w, before, path);
      RunKeeps(c, u, w, before);
      StepLeavesClosed(c, u, Run(c, w, before), events[|events| - 1], path);
    }
  }

  lemma StepLeavesClosed(c: Config, u: iset<Bytes>, w: World, e: Event, path: string)
    requires Sound(c, u) && WorldOk(c, u, w) && Enabled(c, u, w, e)
    requires HasMetadata(w, path) && !Openable(w, path) && !Overwrites(e, path)
    ensures HasMetadata(Step(c, w, e), path) && !Openable(Step(c, w, e), path)
  {
    NoMetadataNoSession(c, u, w, path);
    StepLeavesFile(c, w, e, path);
  }
}

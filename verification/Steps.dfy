/** What a step can touch: its own process's session, and the metadata file of the version that session writes. */
module Steps {
  import opened Blocks
  import opened Pager
  import opened World
  import opened WorldLemmas
  import opened Recovery
  import Access
  import Flush
  import FlushLemmas

  /** A step of another process leaves a session as it is. */
  lemma OthersSessionStays(c: Config, w: World, e: Event, j: nat)
    requires j in w.sessions && e.k != j
    ensures j in Step(c, w, e).sessions && Step(c, w, e).sessions[j] == w.sessions[j]
  {
  }

  /** An event that starts a session. */
  ghost predicate Starts(e: Event, j: nat) {
    (e.Create? || e.Open? || e.OpenImmutable?) && e.k == j
  }

  lemma PathStays(c: Config, u: iset<Bytes>, w: World, e: Event, j: nat)
    requires Enabled(c, u, w, e) && j in w.sessions && j in Step(c, w, e).sessions
    ensures Step(c, w, e).sessions[j].path == w.sessions[j].path
  {
    if e.k != j {
      OthersSessionStays(c, w, e, j);
    }
  }

  /** A new session is one opened on a version, over the ids its file holds, or one on a version just made. */
  lemma StartsAre(c: Config, w: World, e: Event, j: nat)
    requires j !in w.sessions && j in Step(c, w, e).sessions
    ensures Starts(e, j)
    ensures var s := Step(c, w, e).sessions[j];
            match e
            case Create(_, path, _, _, _) => s.path == path
            case Open(_, path, _, readOnly) =>
              Openable(w, path) && s.path == path && s.pager.readOnly == readOnly && s.pager.ids == IdsOf(c, w, path)
            case OpenImmutable(_, _, target, _) => s.path == target && target !in w.versions
            case _ => false
  {
  }

  /** Creating a version under the name of an existing one, with leave to overwrite. */
  ghost predicate Overwrites(e: Event, path: string) {
    e.Create? && e.path == path && e.allowOverwrite
  }

  /** A create without that leave, on a name that is taken, ends the process and touches nothing. */
  lemma CreateRefused(c: Config, w: World, k: nat, path: string, size: nat, budget: nat)
    requires path in w.versions
    ensures var w' := Step(c, w, Create(k, path, size, budget, false));
            w'.versions == w.versions && w'.disk == w.disk && w'.sessions == w.sessions - {k}
  {
  }

  /** So does opening a version that is not there, or lacks a file. */
  lemma OpenRefused(c: Config, w: World, k: nat, path: string, budget: nat, readOnly: bool)
    requires !Openable(w, path)
    ensures var w' := Step(c, w, Open(k, path, budget, readOnly));
            w'.versions == w.versions && w'.disk == w.disk && w'.sessions == w.sessions - {k}
  {
  }

  /**
    An immutable open fails when its source is not there or lacks a file, or the
    target is there. It leaves a new directory behind exactly when the source is
    there and lacks a file and the target was free.
   */
  lemma OpenImmutableRefused(c: Config, w: World, k: nat, source: string, target: string, budget: nat)
    requires !Openable(w, source) || target in w.versions
    ensures var w' := Step(c, w, OpenImmutable(k, source, target, budget));
            && w'.disk == w.disk && w'.sessions == w.sessions - {k} && !(Openable(w', target) && !Openable(w, target))
            && (forall path | path in w.versions :: path in w'.versions && w'.versions[path] == w.versions[path])
            && (forall path | path in w'.versions && path !in w.versions :: path == target)
            && (target in w'.versions && target !in w.versions
                <==> source in w.versions && !Openable(w, source) && target !in w.versions)
            && (target in w'.versions && target !in w.versions ==>
                  w'.versions[target].metadata == w.versions[source].metadata)
  {
  }

  /** msync and close by a process that has the version open. */
  ghost predicate WritesVersion(w: World, e: Event, path: string) {
    (e.Sync? || e.Close?) && e.k in w.sessions && w.sessions[e.k].path == path
  }

  lemma SyncToLeavesOthers(c: Config, versions: map<string, Version>, target: string, p: Pager,
                           order: seq<nat>, commits: seq<nat>, path: string)
    requires FlushReady(p, order, commits) && path in versions && path != target
    requires SyncTo(c, versions, target, p, order, commits).Some?
    ensures var versions' := SyncTo(c, versions, target, p, order, commits).value.0;
            path in versions' && versions'[path] == versions[path]
  {
  }

  lemma SnapshotLeavesFile(c: Config, w: World, k: nat, target: string, order: seq<nat>, commits: seq<nat>,
                           path: string)
    requires HasMetadata(w, path)
    ensures HasMetadata(SnapshotStep(c, w, k, target, order, commits), path)
    ensures SnapshotStep(c, w, k, target, order, commits).versions[path] == w.versions[path]
  {
    if k in w.sessions && FlushReady(View(w, k), order, commits) && !HasMetadata(w, target) {
      var versions := w.versions[target := Version(Some(""), Some(w.sessions[k].capacity))];
      if SyncTo(c, versions, target, View(w, k), order, commits).Some? {
        SyncToLeavesOthers(c, versions, target, View(w, k), order, commits, path);
      }
    }
  }

  lemma SyncLeavesFile(c: Config, w: World, k: nat, order: seq<nat>, commits: seq<nat>, path: string)
    requires HasMetadata(w, path) && (k in w.sessions ==> w.sessions[k].path != path)
    ensures HasMetadata(SyncStep(c, w, k, order, commits), path)
    ensures SyncStep(c, w, k, order, commits).versions[path] == w.versions[path]
  {
    if k in w.sessions && FlushReady(View(w, k), order, commits) {
      if SyncTo(c, w.versions, w.sessions[k].path, View(w, k), order, commits).Some? {
        SyncToLeavesOthers(c, w.versions, w.sessions[k].path, View(w, k), order, commits, path);
      }
    }
  }

  /** No step but recreating a version, or msync and close of a process that has it open, changes its files. */
  lemma StepLeavesFile(c: Config, w: World, e: Event, path: string)
    requires HasMetadata(w, path) && !Overwrites(e, path) && !WritesVersion(w, e, path)
    ensures HasMetadata(Step(c, w, e), path) && Step(c, w, e).versions[path] == w.versions[path]
  {
    match e
    case Create(_, _, _, _, _) =>
    case Open(_, _, _, _) =>
    case OpenImmutable(_, _, _, _) =>
    case Kill(_) =>
    case ReadByte(_, _) =>
    case WriteByte(_, _, _) =>
    case Sync(k, order, commits) => SyncLeavesFile(c, w, k, order, commits, path);
    case Snapshot(k, target, order, commits) => SnapshotLeavesFile(c, w, k, target, order, commits, path);
    case Close(k, order, commits) => SyncLeavesFile(c, w, k, order, commits, path);
    case DieInSync(_, _, _, _, _) =>
    case DieInSnapshot(_, _, _, _, _, _, _) =>
  }

  // ---------- Read-only sessions ----------

  lemma ReadOnlyIdsStay(c: Config, u: iset<Bytes>, p: Pager, order: seq<nat>, commits: seq<nat>)
    requires Sound(c, u) && PagerOk(c, u, p) && Flush.Orders(p, order, commits) && p.readOnly
    ensures FlushReady(p, order, commits) && Flush.MSync(c, p, order, commits).Some?
    ensures Flush.MSync(c, p, order, commits).value.ids == p.ids
  {
    var q := FlushLemmas.MSyncForm(c, u, p, order, commits);
    assert q.ids == p.ids;
  }

  /** The same region over the same ids. */
  ghost predicate SameReader(s: Session, s': Session) {
    s'.path == s.path && s'.pager.readOnly == s.pager.readOnly && s'.pager.ids == s.pager.ids
  }

  lemma EndedIsGone(c: Config, u: iset<Bytes>, w: World, e: Event)
    requires Sound(c, u) && WorldOk(c, u, w) && Enabled(c, u, w, e)
    requires e.Close? || e.Kill? || e.DieInSync? || e.DieInSnapshot?
    ensures e.k !in Step(c, w, e).sessions
  {
    if e.DieInSync? || e.DieInSnapshot? {
      var t := DeathStep(c, u, w, e);
    }
  }

  lemma OwnReadKeepsIds(c: Config, u: iset<Bytes>, w: World, j: nat, off: nat)
    requires Sound(c, u) && WorldOk(c, u, w) && Enabled(c, u, w, ReadByte(j, off))
    ensures var w' := Step(c, w, ReadByte(j, off)); j in w'.sessions && SameReader(w.sessions[j], w'.sessions[j])
  {
    assert SessionOk(c, u, w.versions, w.disk, w.sessions[j]);
    var q := Access.LoadKeeps(c, u, View(w, j), off);
  }

  lemma OwnSyncKeepsIds(c: Config, u: iset<Bytes>, w: World, j: nat, order: seq<nat>, commits: seq<nat>)
    requires Sound(c, u) && WorldOk(c, u, w) && Enabled(c, u, w, Sync(j, order, commits))
    requires w.sessions[j].pager.readOnly
    ensures var w' := SyncStep(c, w, j, order, commits); j in w'.sessions && SameReader(w.sessions[j], w'.sessions[j])
  {
    var w', q := SyncStepKeeps(c, u, w, j, order, commits);
    assert SessionOk(c, u, w.versions, w.disk, w.sessions[j]);
    ReadOnlyIdsStay(c, u, View(w, j), order, commits);
  }

  lemma OwnSnapshotKeepsIds(c: Config, u: iset<Bytes>, w: World, j: nat, target: string, order: seq<nat>,
                            commits: seq<nat>)
    requires Sound(c, u) && WorldOk(c, u, w) && Enabled(c, u, w, Snapshot(j, target, order, commits))
    requires w.sessions[j].pager.readOnly
    ensures var w' := SnapshotStep(c, w, j, target, order, commits);
            j in w'.sessions && SameReader(w.sessions[j], w'.sessions[j])
  {
    if HasMetadata(w, target) {
      SnapshotRefused(c, u, w, j, target, order, commits);
    } else {
      var w', q := SnapshotStepKeeps(c, u, w, j, target, order, commits);
      assert SessionOk(c, u, w.versions, w.disk, w.sessions[j]);
      ReadOnlyIdsStay(c, u, View(w, j), order, commits);
    }
  }

  /** A read-only session that goes on keeps the ids it was opened with, whatever any process does. */
  lemma StepKeepsReader(c: Config, u: iset<Bytes>, w: World, e: Event, j: nat)
    requires Sound(c, u) && WorldOk(c, u, w) && Enabled(c, u, w, e)
    requires j in w.sessions && w.sessions[j].pager.readOnly && j in Step(c, w, e).sessions
    ensures SameReader(w.sessions[j], Step(c, w, e).sessions[j])
  {
    if e.k != j {
      OthersSessionStays(c, w, e, j);
    } else {
      match e
      case ReadByte(_, off) => OwnReadKeepsIds(c, u, w, j, off);
      case WriteByte(_, off, v) => ReadOnlyWriteStep(c, u, w, j, off, v);
      case Sync(_, order, commits) => OwnSyncKeepsIds(c, u, w, j, order, commits);
      case Snapshot(_, target, order, commits) => OwnSnapshotKeepsIds(c, u, w, j, target, order, commits);
      case _ => EndedIsGone(c, u, w, e);
    }
  }
}

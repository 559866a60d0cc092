/**
  A run in which a reader undoes a writer's msync. msync and close do not ask
  whether the region is read-only: a session that opened the version before the
  writer saved writes the ids it was opened with over the newer records.
 */
module Rollback {
  import opened Blocks
  import opened Pager
  import opened World
  import opened WorldLemmas
  import opened Recovery
  import opened Steps
  import opened Contents
  import opened ReadOnly
  import opened Witness
  import Access

  // ---------- The run: one block, process 0 writes, process 1 reads ----------

  function Made(c: Config): World {
    CreateStep(c, EmptyWorld(), 0, "live", c.blockSize, 1, false)
  }

  function Opened(c: Config): World {
    OpenStep(c, Made(c), 1, "live", 1, true)
  }

  ghost function Loaded(c: Config): World {
    Step(c, Opened(c), ReadByte(1, 0))
  }

  ghost function Stored(c: Config, v: Byte): World {
    Step(c, Loaded(c), WriteByte(0, 0, v))
  }

  ghost function Saved(c: Config, v: Byte, order: seq<nat>, commits: seq<nat>): World {
    Step(c, Stored(c, v), Sync(0, order, commits))
  }

  ghost function RolledBack(c: Config, v: Byte, order: seq<nat>, commits: seq<nat>): World {
    Step(c, Saved(c, v, order, commits), Sync(1, [], []))
  }

  // ---------- What holds on the way ----------

  /** Process j has the one-block version open, and sees a block of zeros. */
  ghost predicate SeesZeros(c: Config, w: World, j: nat, readOnly: bool) {
    && j in w.sessions && w.sessions[j].path == "live"
    && View(w, j).readOnly == readOnly && |View(w, j).ids| == |View(w, j).mem| == 1
    && Logical(c, View(w, j), 0) == Zeros(c.blockSize)
  }

  lemma MadeOk(c: Config, u: iset<Bytes>)
    requires Sound(c, u)
    ensures WorldOk(c, u, Made(c)) && SeesZeros(c, Made(c), 0, false)
    ensures Enabled(c, u, Made(c), Open(1, "live", 1, true)) && Openable(Made(c), "live")
    ensures BlocksOf(c, Made(c), "live") == 1 && Recovered(c, Made(c), "live", 0) == Zeros(c.blockSize)
  {
    CreateKeeps(c, u, EmptyWorld(), 0, "live", c.blockSize, 1, false);
    Access.QuotientUnique(c.blockSize, c.blockSize, 1);
    Access.DivMod(c.blockSize, c.blockSize);
  }

  lemma OpenedOk(c: Config, u: iset<Bytes>)
    requires Sound(c, u)
    ensures WorldOk(c, u, Opened(c)) && SeesZeros(c, Opened(c), 0, false) && SeesZeros(c, Opened(c), 1, true)
  {
    MadeOk(c, u);
    StepKeeps(c, u, Made(c), Open(1, "live", 1, true));
    OpenShowsRecovered(c, u, Made(c), 1, "live", 1, true);
  }

  lemma BlockZero(c: Config, w: World, j: nat)
    requires c.blockSize > 0 && j in w.sessions && |View(w, j).ids| == 1
    ensures Access.InRegion(c, View(w, j), 0) && Access.BlockOf(c, 0) == 0 && Access.Within(c, 0) == 0
  {
    Access.QuotientUnique(0, c.blockSize, 0);
    Access.DivMod(0, c.blockSize);
  }

  /** A step of the other process changes nothing of what j sees. */
  lemma StillSees(c: Config, u: iset<Bytes>, w: World, e: Event, j: nat, readOnly: bool)
    requires Sound(c, u) && WorldOk(c, u, w) && Enabled(c, u, w, e) && e.k != j && SeesZeros(c, w, j, readOnly)
    ensures SeesZeros(c, Step(c, w, e), j, readOnly) && Step(c, w, e).sessions[j] == w.sessions[j]
  {
    OthersSessionStays(c, w, e, j);
    StepSees(c, u, w, e, j);
  }

  lemma ReaderLoads(c: Config, u: iset<Bytes>)
    requires Sound(c, u)
    ensures Enabled(c, u, Opened(c), ReadByte(1, 0))
    ensures SeesZeros(c, Loaded(c), 1, true) && 0 in View(Loaded(c), 1).present
  {
    OpenedOk(c, u);
    BlockZero(c, Opened(c), 1);
    SessionPagerOk(c, u, Opened(c), 1);
    var q := Access.LoadKeeps(c, u, View(Opened(c), 1), 0);
    PutOwn(c, u, Opened(c), 1, q);
    StepSees(c, u, Opened(c), ReadByte(1, 0), 1);
  }

  lemma LoadedOk(c: Config, u: iset<Bytes>)
    requires Sound(c, u)
    ensures WorldOk(c, u, Loaded(c)) && SeesZeros(c, Loaded(c), 0, false)
  {
    OpenedOk(c, u);
    ReaderLoads(c, u);
    StepKeeps(c, u, Opened(c), ReadByte(1, 0));
    StillSees(c, u, Opened(c), ReadByte(1, 0), 0, false);
  }

  lemma WriterStores(c: Config, u: iset<Bytes>, v: Byte)
    requires Sound(c, u) && Zeros(c.blockSize)[0 := v] in u
    ensures Enabled(c, u, Loaded(c), WriteByte(0, 0, v)) && WorldOk(c, u, Stored(c, v))
    ensures 0 in Stored(c, v).sessions && Stored(c, v).sessions[0].path == "live"
    ensures var p := View(Stored(c, v), 0);
            |p.ids| == |p.mem| == 1 && 0 in p.present && Logical(c, p, 0) == Zeros(c.blockSize)[0 := v]
  {
    LoadedOk(c, u);
    BlockZero(c, Loaded(c), 0);
    SessionPagerOk(c, u, Loaded(c), 0);
    StepKeeps(c, u, Loaded(c), WriteByte(0, 0, v));
    var q := Access.StoreByteKeeps(c, u, View(Loaded(c), 0), 0, v);
    PutOwn(c, u, Loaded(c), 0, q);
  }

  /** The reader before the writer saves, and after. */
  lemma ReaderWaits(c: Config, u: iset<Bytes>, v: Byte, order: seq<nat>, commits: seq<nat>)
    requires Sound(c, u) && Zeros(c.blockSize)[0 := v] in u
    requires Enabled(c, u, Stored(c, v), Sync(0, order, commits))
    ensures var w := Saved(c, v, order, commits);
            && WorldOk(c, u, w) && SeesZeros(c, w, 1, true) && 0 in View(w, 1).present
            && Enabled(c, u, w, Sync(1, [], []))
  {
    ReaderLoads(c, u);
    LoadedOk(c, u);
    WriterStores(c, u, v);
    StillSees(c, u, Loaded(c), WriteByte(0, 0, v), 1, true);
    StillSees(c, u, Stored(c, v), Sync(0, order, commits), 1, true);
    StepKeeps(c, u, Stored(c, v), Sync(0, order, commits));
    ReadOnlyIsInert(c, u, Saved(c, v, order, commits), 1);
  }

  lemma ResidentIsRecorded(c: Config, u: iset<Bytes>, p: Pager, i: nat)
    requires i in p.present
    ensures UpToHighest(p.present, i)
  {
  }

  /** Every step of the run can happen. */
  ghost predicate CanHappen(c: Config, u: iset<Bytes>, v: Byte, order: seq<nat>, commits: seq<nat>) {
    && WorldOk(c, u, Made(c))
    && Enabled(c, u, Made(c), Open(1, "live", 1, true)) && Enabled(c, u, Opened(c), ReadByte(1, 0))
    && Enabled(c, u, Loaded(c), WriteByte(0, 0, v)) && Enabled(c, u, Stored(c, v), Sync(0, order, commits))
    && Enabled(c, u, Saved(c, v, order, commits), Sync(1, [], []))
  }

  /** What opening the version shows. */
  ghost predicate Shows(c: Config, w: World, block: Bytes) {
    Openable(w, "live") && BlocksOf(c, w, "live") == 1 && Recovered(c, w, "live", 0) == block
  }

  /**
    For any byte but zero: after the writer's msync its version holds the byte, and
    after the reader's it holds zeros.
   */
  lemma ReaderUndoesSave(c: Config, u: iset<Bytes>, v: Byte) returns (order: seq<nat>, commits: seq<nat>)
    requires Sound(c, u) && Zeros(c.blockSize)[0 := v] in u && v != 0
    ensures CanHappen(c, u, v, order, commits)
    ensures Shows(c, Saved(c, v, order, commits), Zeros(c.blockSize)[0 := v])
    ensures Shows(c, RolledBack(c, v, order, commits), Zeros(c.blockSize))
    ensures Zeros(c.blockSize)[0 := v] != Zeros(c.blockSize)
  {
    MadeOk(c, u);
    ReaderLoads(c, u);
    WriterStores(c, u, v);
    var p := View(Stored(c, v), 0);
    order := p.dirty;
    commits := SomeOrder(p.stashSet);
    ReaderWaits(c, u, v, order, commits);
    ResidentIsRecorded(c, u, p, 0);
    SyncRecovers(c, u, Stored(c, v), 0, order, commits, 0);
    var w := Saved(c, v, order, commits);
    ResidentIsRecorded(c, u, View(w, 1), 0);
    SyncRecovers(c, u, w, 1, [], [], 0);
    assert Zeros(c.blockSize)[0 := v][0] == v;
  }

  /** The run with every assumption discharged, in one tier and in two. */
  lemma RollbackExists(multi: bool) returns (order: seq<nat>, commits: seq<nat>)
    ensures Sound(TwoIds(multi), iset{[0], [1]})
    ensures CanHappen(TwoIds(multi), iset{[0], [1]}, 1, order, commits)
    ensures Shows(TwoIds(multi), Saved(TwoIds(multi), 1, order, commits), [1])
    ensures Shows(TwoIds(multi), RolledBack(TwoIds(multi), 1, order, commits), [0])
  {
    TwoIdsSound(multi);
    assert Zeros(1) == [0] && Zeros(1)[0 := 1] == [1];
    order, commits := ReaderUndoesSave(TwoIds(multi), iset{[0], [1]}, 1);
  }
}

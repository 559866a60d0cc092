/**
  A run whose snapshot is incomplete: update_metadata writes records only up to
  the highest block that is resident, and eviction can leave written blocks above it.
 */
module LostBlock {
  import opened Blocks
  import opened Pager
  import opened World
  import opened WorldLemmas
  import opened Recovery
  import opened Witness
  import Flush

  /**
    A budget of one block for a region of two: write block 1, then block 0, and
    take a snapshot. Block 1 was stashed and is committed, but it lies above the
    highest resident block, so the snapshot holds no record of it.
   */
  lemma SnapshotLosesEvictedBlock(c: Config, u: iset<Bytes>, w: World, w1: World, live: World, k: nat, path: string,
                                  order: seq<nat>, commits: seq<nat>, v: Byte, v0: Byte)
    requires Sound(c, u) && WorldOk(c, u, w) && k in w.sessions
    requires TwoBlocks(View(w, k)) && v != 0
    requires Enabled(c, u, w, WriteByte(k, c.blockSize, v)) && w1 == Step(c, w, WriteByte(k, c.blockSize, v))
    requires Enabled(c, u, w1, WriteByte(k, 0, v0)) && live == Step(c, w1, WriteByte(k, 0, v0))
    requires k in live.sessions && Flush.Orders(View(live, k), order, commits) && !HasMetadata(live, path)
    ensures var w' := SnapshotStep(c, live, k, path, order, commits);
            && |View(live, k).mem| == |View(live, k).ids| == 2
            && Openable(w', path) && BlocksOf(c, w', path) == 2
            && Recovered(c, w', path, 1) != Logical(c, View(live, k), 1)
  {
    StepKeeps(c, u, w, WriteByte(k, c.blockSize, v));
    StepKeeps(c, u, w1, WriteByte(k, 0, v0));
    FirstWrite(c, u, w, k, v);
    SecondWrite(c, u, w1, k, v0);
    LostAbove(c, u, live, k, path, order, commits);
  }

  lemma LostAbove(c: Config, u: iset<Bytes>, live: World, k: nat, path: string, order: seq<nat>, commits: seq<nat>)
    requires Sound(c, u) && WorldOk(c, u, live) && k in live.sessions && Flush.Orders(View(live, k), order, commits)
    requires !HasMetadata(live, path)
    requires View(live, k).present == {0} && TwoBlocks(View(live, k))
    requires Logical(c, View(live, k), 1) != Zeros(c.blockSize)
    ensures var w' := SnapshotStep(c, live, k, path, order, commits);
            && Openable(w', path) && BlocksOf(c, w', path) == 2
            && Recovered(c, w', path, 1) != Logical(c, View(live, k), 1)
  {
    SnapshotRecovers(c, u, live, k, path, order, commits, 1);
  }

  ghost predicate TwoBlocks(p: Pager) {
    p.budget == 1 && !p.readOnly && |p.ids| == 2 && |p.mem| == 2
  }

  lemma FirstWrite(c: Config, u: iset<Bytes>, w: World, k: nat, v: Byte)
    requires Sound(c, u) && WorldOk(c, u, w) && Enabled(c, u, w, WriteByte(k, c.blockSize, v))
    requires TwoBlocks(View(w, k)) && v != 0
    ensures var w1 := Step(c, w, WriteByte(k, c.blockSize, v));
            && k in w1.sessions && TwoBlocks(View(w1, k)) && Logical(c, View(w1, k), 1) != Zeros(c.blockSize)
  {
    Access.QuotientUnique(c.blockSize, c.blockSize, 1);
    assert SessionOk(c, u, w.versions, w.disk, w.sessions[k]);
    var q := Access.StoreByteKeeps(c, u, View(w, k), c.blockSize, v);
    PutOwn(c, u, w, k, q);
    assert View(Step(c, w, WriteByte(k, c.blockSize, v)), k) == q;
    assert Logical(c, q, 1)[0] == v;
  }

  lemma SecondWrite(c: Config, u: iset<Bytes>, w1: World, k: nat, v0: Byte)
    requires Sound(c, u) && WorldOk(c, u, w1) && Enabled(c, u, w1, WriteByte(k, 0, v0)) && TwoBlocks(View(w1, k))
    ensures var live := Step(c, w1, WriteByte(k, 0, v0));
            && k in live.sessions && TwoBlocks(View(live, k)) && View(live, k).present == {0}
            && Logical(c, View(live, k), 1) == Logical(c, View(w1, k), 1)
  {
    assert SessionOk(c, u, w1.versions, w1.disk, w1.sessions[k]);
    var q := OneResident(c, u, View(w1, k), v0);
    assert Attach(q, q.store.disk) == q;
    assert View(Step(c, w1, WriteByte(k, 0, v0)), k) == q;
  }

  lemma OneResident(c: Config, u: iset<Bytes>, p: Pager, v0: Byte) returns (q: Pager)
    requires Sound(c, u) && PagerOk(c, u, p) && TwoBlocks(p) && Access.InRegion(c, p, 0)
    requires |Logical(c, p, Access.BlockOf(c, 0))| == c.blockSize && Access.Written(c, p, 0, v0) in u
    ensures Access.StoreByte(c, p, 0, v0) == Some(q)
    ensures TwoBlocks(q) && q.present == {0} && Logical(c, q, 1) == Logical(c, p, 1)
  {
    Access.QuotientUnique(0, c.blockSize, 0);
    q := Access.StoreByteKeeps(c, u, p, 0, v0);
    OnlyOne(q.present, 0);
  }

  lemma OnlyOne(s: set<nat>, x: nat)
    requires |s| <= 1 && x in s
    ensures s == {x}
  {
    assert |s - {x}| == |s| - 1;
  }

  // ---------- The run itself, from an empty disk ----------

  /** A region of two blocks with a budget of one, created on an empty disk. */
  function Made(c: Config): World {
    CreateStep(c, EmptyWorld(), 0, "live", 2 * c.blockSize, 1, false)
  }

  ghost function Written1(c: Config, v: Byte): World {
    Step(c, Made(c), WriteByte(0, c.blockSize, v))
  }

  ghost function Written0(c: Config, v: Byte, v0: Byte): World {
    Step(c, Written1(c, v), WriteByte(0, 0, v0))
  }

  lemma MadeOk(c: Config, u: iset<Bytes>)
    requires Sound(c, u)
    ensures WorldOk(c, u, Made(c)) && 0 in Made(c).sessions && !HasMetadata(Made(c), "saved")
    ensures TwoBlocks(View(Made(c), 0))
    ensures forall i | 0 <= i < 2 :: Logical(c, View(Made(c), 0), i) == Zeros(c.blockSize)
  {
    CreateKeeps(c, u, EmptyWorld(), 0, "live", 2 * c.blockSize, 1, false);
    Access.QuotientUnique(2 * c.blockSize, c.blockSize, 2);
    Access.DivMod(2 * c.blockSize, c.blockSize);
    assert NumBlocks(c, RoundUp(c, 2 * c.blockSize)) == 2;
  }

  /** For any two bytes, the first not zero: every step of the run can happen, and block 1 is lost. */
  lemma LosingRun(c: Config, u: iset<Bytes>, v: Byte, v0: Byte) returns (order: seq<nat>, commits: seq<nat>)
    requires Sound(c, u) && v != 0
    requires Zeros(c.blockSize)[0 := v] in u && Zeros(c.blockSize)[0 := v0] in u
    ensures Enabled(c, u, Made(c), WriteByte(0, c.blockSize, v))
    ensures Enabled(c, u, Written1(c, v), WriteByte(0, 0, v0))
    ensures Enabled(c, u, Written0(c, v, v0), Snapshot(0, "saved", order, commits))
    ensures var live := Written0(c, v, v0);
            var w' := Step(c, live, Snapshot(0, "saved", order, commits));
            && |View(live, 0).mem| == |View(live, 0).ids| == 2
            && Openable(w', "saved") && BlocksOf(c, w', "saved") == 2
            && Recovered(c, w', "saved", 1) != Logical(c, View(live, 0), 1)
  {
    FirstEnabled(c, u, v);
    AfterFirst(c, u, v, v0);
    AfterSecond(c, u, v, v0);
    var p := View(Written0(c, v, v0), 0);
    commits := SomeOrder(p.stashSet);
    order := p.dirty;
    LostAbove(c, u, Written0(c, v, v0), 0, "saved", order, commits);
  }

  lemma FirstEnabled(c: Config, u: iset<Bytes>, v: Byte)
    requires Sound(c, u) && Zeros(c.blockSize)[0 := v] in u
    ensures Enabled(c, u, Made(c), WriteByte(0, c.blockSize, v))
  {
    MadeOk(c, u);
    Access.QuotientUnique(c.blockSize, c.blockSize, 1);
    Access.DivMod(c.blockSize, c.blockSize);
  }

  lemma FirstLeavesBlock0(c: Config, u: iset<Bytes>, v: Byte)
    requires Sound(c, u) && Zeros(c.blockSize)[0 := v] in u
    ensures 0 in Written1(c, v).sessions && Written1(c, v).versions == Made(c).versions
    ensures |View(Written1(c, v), 0).mem| == |View(Written1(c, v), 0).ids| == 2
    ensures Logical(c, View(Written1(c, v), 0), 0) == Zeros(c.blockSize)
  {
    MadeOk(c, u);
    FirstEnabled(c, u, v);
    var q := WriteStep(c, u, Made(c), 0, c.blockSize, v);
    PutOwn(c, u, Made(c), 0, q);
    Access.QuotientUnique(c.blockSize, c.blockSize, 1);
  }

  lemma AfterFirst(c: Config, u: iset<Bytes>, v: Byte, v0: Byte)
    requires Sound(c, u) && Zeros(c.blockSize)[0 := v] in u && Zeros(c.blockSize)[0 := v0] in u && v != 0
    ensures WorldOk(c, u, Written1(c, v)) && Enabled(c, u, Written1(c, v), WriteByte(0, 0, v0))
    ensures TwoBlocks(View(Written1(c, v), 0)) && Logical(c, View(Written1(c, v), 0), 1) != Zeros(c.blockSize)
    ensures Written1(c, v).versions == Made(c).versions
  {
    MadeOk(c, u);
    FirstEnabled(c, u, v);
    StepKeeps(c, u, Made(c), WriteByte(0, c.blockSize, v));
    FirstWrite(c, u, Made(c), 0, v);
    FirstLeavesBlock0(c, u, v);
    Access.QuotientUnique(0, c.blockSize, 0);
    Access.DivMod(0, c.blockSize);
  }

  lemma AfterSecond(c: Config, u: iset<Bytes>, v: Byte, v0: Byte)
    requires Sound(c, u) && WorldOk(c, u, Written1(c, v)) && Enabled(c, u, Written1(c, v), WriteByte(0, 0, v0))
    requires TwoBlocks(View(Written1(c, v), 0)) && Logical(c, View(Written1(c, v), 0), 1) != Zeros(c.blockSize)
    requires Written1(c, v).versions == Made(c).versions
    ensures var live := Written0(c, v, v0);
            && WorldOk(c, u, live) && 0 in live.sessions && !HasMetadata(live, "saved")
            && TwoBlocks(View(live, 0)) && View(live, 0).present == {0}
            && Logical(c, View(live, 0), 1) != Zeros(c.blockSize)
  {
    StepKeeps(c, u, Written1(c, v), WriteByte(0, 0, v0));
    SecondWrite(c, u, Written1(c, v), 0, v0);
    var q := WriteStep(c, u, Written1(c, v), 0, 0, v0);
  }

  // ---------- Nothing assumed ----------

  /** The losing run with every assumption discharged, in one tier and in two. */
  lemma LosingRunExists(multi: bool) returns (order: seq<nat>, commits: seq<nat>)
    ensures var c, u := TwoIds(multi), iset{[0], [1]};
            var live := Written0(c, 1, 1);
            && Sound(c, u) && WorldOk(c, u, Made(c))
            && Enabled(c, u, Made(c), WriteByte(0, 1, 1)) && Enabled(c, u, Written1(c, 1), WriteByte(0, 0, 1))
            && Enabled(c, u, live, Snapshot(0, "saved", order, commits))
            && var w' := Step(c, live, Snapshot(0, "saved", order, commits));
            && |View(live, 0).mem| == |View(live, 0).ids| == 2
            && Openable(w', "saved") && BlocksOf(c, w', "saved") == 2
            && Recovered(c, w', "saved", 1) != Logical(c, View(live, 0), 1)
  {
    var c, u := TwoIds(multi), iset{[0], [1]};
    TwoIdsSound(multi);
    MadeOk(c, u);
    assert Zeros(1)[0 := 1] == [1];
    order, commits := LosingRun(c, u, 1, 1);
  }
}

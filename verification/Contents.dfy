/** Over every run of every process, a region is a flat array of bytes: reads return the last value written. */
module Contents {
  import opened Blocks
  import opened Pager
  import opened World
  import opened WorldLemmas
  import opened Steps
  import Access

  /** What one step does to the contents process `j` sees: only its own writes change them, and only their block. */
  ghost predicate ContentsAfter(c: Config, w: World, e: Event, w': World, j: nat)
    requires j in w.sessions && j in w'.sessions
  {
    var p, q := View(w, j), View(w', j);
    && SameRegion(p, q) && |p.mem| == |p.ids| && |q.mem| == |q.ids|
    && w'.sessions[j].path == w.sessions[j].path && w'.sessions[j].capacity == w.sessions[j].capacity
    && forall i | 0 <= i < |p.ids| ::
         Logical(c, q, i) == if WritesTo(c, e, p, j, i) then Access.Written(c, p, e.off, e.value) else Logical(c, p, i)
  }

  ghost predicate WritesTo(c: Config, e: Event, p: Pager, j: nat, i: nat) {
    && e.WriteByte? && e.k == j && Access.InRegion(c, p, e.off) && i == Access.BlockOf(c, e.off)
    && |p.mem| == |p.ids| && |Logical(c, p, i)| == c.blockSize
  }

  /** A region whose contents did not change. */
  ghost predicate SeesSame(c: Config, w: World, w': World, j: nat)
    requires j in w.sessions && j in w'.sessions
  {
    && SameRegion(View(w, j), View(w', j)) && SameContents(c, View(w, j), View(w', j))
    && w'.sessions[j].path == w.sessions[j].path && w'.sessions[j].capacity == w.sessions[j].capacity
  }

  lemma SameIsContentsAfter(c: Config, w: World, e: Event, w': World, j: nat)
    requires j in w.sessions && j in w'.sessions && SeesSame(c, w, w', j) && !(e.WriteByte? && e.k == j)
    ensures ContentsAfter(c, w, e, w', j)
  {
  }

  lemma OtherSees(c: Config, u: iset<Bytes>, w: World, k: nat, q: Pager, w': World, j: nat)
    requires Sound(c, u) && WorldOk(c, u, w) && k in w.sessions && Advances(c, u, View(w, k), q)
    requires w' == Put(w, k, w.sessions[k], q).(versions := w'.versions) && j in w.sessions && j != k
    ensures SeesSame(c, w, w', j)
  {
    PutOther(c, u, w, k, q, j);
    assert View(w', j) == View(Put(w, k, w.sessions[k], q), j);
  }

  lemma OwnView(w: World, k: nat, q: Pager, w': World)
    requires k in w.sessions && w' == Put(w, k, w.sessions[k], q).(versions := w'.versions)
    ensures k in w'.sessions && View(w', k) == q
    ensures w'.sessions[k].path == w.sessions[k].path && w'.sessions[k].capacity == w.sessions[k].capacity
  {
    assert Attach(q, q.store.disk) == q;
  }

  lemma PutSees(c: Config, u: iset<Bytes>, w: World, k: nat, q: Pager, w': World, j: nat)
    requires Sound(c, u) && WorldOk(c, u, w) && k in w.sessions && Advances(c, u, View(w, k), q)
    requires w' == Put(w, k, w.sessions[k], q).(versions := w'.versions) && j in w.sessions
    requires SameContents(c, View(w, k), q)
    ensures SeesSame(c, w, w', j)
  {
    if j == k {
      OwnView(w, k, q, w');
    } else {
      OtherSees(c, u, w, k, q, w', j);
    }
  }

  lemma UntouchedSees(c: Config, u: iset<Bytes>, w: World, w': World, j: nat)
    requires WorldOk(c, u, w) && j in w.sessions && j in w'.sessions && w'.sessions[j] == w.sessions[j]
    requires w'.disk == w.disk
    ensures SeesSame(c, w, w', j)
  {
    SessionPagerOk(c, u, w, j);
  }

  // ---------- Step by step ----------

  lemma StartSees(c: Config, u: iset<Bytes>, w: World, e: Event, j: nat)
    requires WorldOk(c, u, w) && Enabled(c, u, w, e)
    requires e.Create? || e.Open? || e.OpenImmutable? || e.Kill?
    requires j in w.sessions && j in Step(c, w, e).sessions
    ensures SeesSame(c, w, Step(c, w, e), j)
  {
    UntouchedSees(c, u, w, Step(c, w, e), j);
  }

  lemma ReadSees(c: Config, u: iset<Bytes>, w: World, k: nat, off: nat, j: nat)
    requires Sound(c, u) && WorldOk(c, u, w) && Enabled(c, u, w, ReadByte(k, off)) && j in w.sessions
    ensures j in Step(c, w, ReadByte(k, off)).sessions && SeesSame(c, w, Step(c, w, ReadByte(k, off)), j)
  {
    var q := ReadStep(c, u, w, k, off);
    PutSees(c, u, w, k, q, Step(c, w, ReadByte(k, off)), j);
  }

  lemma SyncSees(c: Config, u: iset<Bytes>, w: World, k: nat, order: seq<nat>, commits: seq<nat>, j: nat)
    requires Sound(c, u) && WorldOk(c, u, w) && Enabled(c, u, w, Sync(k, order, commits)) && j in w.sessions
    ensures j in SyncStep(c, w, k, order, commits).sessions && SeesSame(c, w, SyncStep(c, w, k, order, commits), j)
  {
    var w', q := SyncStepKeeps(c, u, w, k, order, commits);
    PutSees(c, u, w, k, q, w', j);
  }

  lemma SnapshotSees(c: Config, u: iset<Bytes>, w: World, k: nat, path: string, order: seq<nat>, commits: seq<nat>,
                     j: nat)
    requires Sound(c, u) && WorldOk(c, u, w) && Enabled(c, u, w, Snapshot(k, path, order, commits)) && j in w.sessions
    ensures var w' := SnapshotStep(c, w, k, path, order, commits); j in w'.sessions && SeesSame(c, w, w', j)
  {
    var w', q;
    if path in w.versions && w.versions[path].metadata.Some? {
      SnapshotRefused(c, u, w, k, path, order, commits);
      SessionPagerOk(c, u, w, k);
      w', q := SnapshotStep(c, w, k, path, order, commits), View(w, k);
    } else {
      w', q := SnapshotStepKeeps(c, u, w, k, path, order, commits);
    }
    PutSees(c, u, w, k, q, w', j);
  }

  lemma CloseSees(c: Config, u: iset<Bytes>, w: World, k: nat, order: seq<nat>, commits: seq<nat>, j: nat)
    requires Sound(c, u) && WorldOk(c, u, w) && Enabled(c, u, w, Close(k, order, commits)) && j in w.sessions && j != k
    ensures var w' := Step(c, w, Close(k, order, commits)); j in w'.sessions && SeesSame(c, w, w', j)
  {
    SyncSees(c, u, w, k, order, commits, j);
    ExitSees(c, w, SyncStep(c, w, k, order, commits), k, j);
  }

  lemma ExitSees(c: Config, w: World, w': World, k: nat, j: nat)
    requires j in w.sessions && j in w'.sessions && j != k && SeesSame(c, w, w', j)
    ensures j in Exit(w', k).sessions && SeesSame(c, w, Exit(w', k), j)
  {
    assert View(Exit(w', k), j) == View(w', j);
  }

  /** Another process dying in the middle of msync or snapshot. */
  lemma DeathSees(c: Config, u: iset<Bytes>, w: World, e: Event, j: nat)
    requires Sound(c, u) && WorldOk(c, u, w) && Enabled(c, u, w, e) && (e.DieInSync? || e.DieInSnapshot?)
    requires j in w.sessions && j in Step(c, w, e).sessions
    ensures SeesSame(c, w, Step(c, w, e), j)
  {
    var t := DeathStep(c, u, w, e);
    EvolvedOther(c, u, w, e.k, t, j);
    assert View(Step(c, w, e), j) == Attach(w.sessions[j].pager, t.disk);
  }

  lemma OwnWriteContents(c: Config, u: iset<Bytes>, w: World, k: nat, off: nat, v: Byte)
    requires Sound(c, u) && WorldOk(c, u, w) && Enabled(c, u, w, WriteByte(k, off, v)) && !View(w, k).readOnly
    ensures var w' := Step(c, w, WriteByte(k, off, v));
            k in w'.sessions && ContentsAfter(c, w, WriteByte(k, off, v), w', k)
  {
    SessionPagerOk(c, u, w, k);
    var q := WriteStep(c, u, w, k, off, v);
    OwnView(w, k, q, Step(c, w, WriteByte(k, off, v)));
  }

  lemma OthersWriteSees(c: Config, u: iset<Bytes>, w: World, k: nat, off: nat, v: Byte, j: nat)
    requires Sound(c, u) && WorldOk(c, u, w) && Enabled(c, u, w, WriteByte(k, off, v)) && j in w.sessions && j != k
    ensures j in Step(c, w, WriteByte(k, off, v)).sessions && SeesSame(c, w, Step(c, w, WriteByte(k, off, v)), j)
  {
    if View(w, k).readOnly {
      ReadOnlyWriteStep(c, u, w, k, off, v);
      UntouchedSees(c, u, w, Exit(w, k), j);
    } else {
      var q := WriteStep(c, u, w, k, off, v);
      OtherSees(c, u, w, k, q, Step(c, w, WriteByte(k, off, v)), j);
    }
  }

  /** A step that is not a store by process j leaves what j sees as it is. */
  lemma StepSees(c: Config, u: iset<Bytes>, w: World, e: Event, j: nat)
    requires Sound(c, u) && WorldOk(c, u, w) && Enabled(c, u, w, e) && !(e.WriteByte? && e.k == j)
    requires j in w.sessions && j in Step(c, w, e).sessions
    ensures SeesSame(c, w, Step(c, w, e), j)
  {
    match e
    case Create(_, _, _, _, _) => StartSees(c, u, w, e, j);
    case Open(_, _, _, _) => StartSees(c, u, w, e, j);
    case OpenImmutable(_, _, _, _) => StartSees(c, u, w, e, j);
    case Kill(_) => StartSees(c, u, w, e, j);
    case ReadByte(k, off) => ReadSees(c, u, w, k, off, j);
    case WriteByte(k, off, v) => OthersWriteSees(c, u, w, k, off, v, j);
    case Sync(k, order, commits) => SyncSees(c, u, w, k, order, commits, j);
    case Snapshot(k, path, order, commits) => SnapshotSees(c, u, w, k, path, order, commits, j);
    case Close(k, order, commits) => CloseSees(c, u, w, k, order, commits, j);
    case DieInSync(_, _, _, _, _) => DeathSees(c, u, w, e, j);
    case DieInSnapshot(_, _, _, _, _, _, _) => DeathSees(c, u, w, e, j);
  }

  lemma StepContents(c: Config, u: iset<Bytes>, w: World, e: Event, j: nat)
    requires Sound(c, u) && WorldOk(c, u, w) && Enabled(c, u, w, e)
    requires j in w.sessions && j in Step(c, w, e).sessions
    ensures ContentsAfter(c, w, e, Step(c, w, e), j)
  {
    if e.WriteByte? && e.k == j {
      if View(w, j).readOnly {
        ReadOnlyWriteStep(c, u, w, j, e.off, e.value);
      } else {
        OwnWriteContents(c, u, w, j, e.off, e.value);
      }
    } else {
      StepSees(c, u, w, e, j);
      SameIsContentsAfter(c, w, e, Step(c, w, e), j);
    }
  }

  // ---------- The flat array ----------

  ghost function ByteAt(c: Config, w: World, j: nat, off: nat): Byte
    requires j in w.sessions
  {
    var p := View(w, j);
    if Access.InRegion(c, p, off) && |p.mem| == |p.ids| && |Logical(c, p, Access.BlockOf(c, off))| == c.blockSize
    then Access.Flat(c, p, off) else 0
  }

  /** The value of the last write process `j` made at an offset. */
  ghost function LastWrite(events: seq<Event>, j: nat, off: nat, initial: Byte): Byte {
    if events == [] then initial
    else
      var e := events[|events| - 1];
      if e.WriteByte? && e.k == j && e.off == off then e.value
      else LastWrite(events[..|events| - 1], j, off, initial)
  }

  ghost predicate NeverRestarts(events: seq<Event>, j: nat) {
    forall i | 0 <= i < |events| :: !Starts(events[i], j)
  }

  lemma ByteAfter(c: Config, w: World, e: Event, w': World, j: nat, off: nat)
    requires j in w.sessions && j in w'.sessions && ContentsAfter(c, w, e, w', j)
    requires Access.InRegion(c, View(w, j), off) && |Logical(c, View(w, j), Access.BlockOf(c, off))| == c.blockSize
    requires e.WriteByte? && e.k == j ==> Access.InRegion(c, View(w, j), e.off)
    ensures Access.InRegion(c, View(w', j), off)
    ensures ByteAt(c, w', j, off) == if e.WriteByte? && e.k == j && e.off == off then e.value else ByteAt(c, w, j, off)
  {
    var b := Access.BlockOf(c, off);
    assert Logical(c, View(w', j), b)
           == if WritesTo(c, e, View(w, j), j, b) then Access.Written(c, View(w, j), e.off, e.value)
              else Logical(c, View(w, j), b);
    if e.WriteByte? && e.k == j && Access.Within(c, e.off) == Access.Within(c, off) && Access.BlockOf(c, e.off) == b {
      Access.OffsetsDiffer(c, e.off, off);
    }
  }

  lemma StepByte(c: Config, u: iset<Bytes>, w: World, e: Event, j: nat, off: nat)
    requires Sound(c, u) && WorldOk(c, u, w) && Enabled(c, u, w, e)
    requires j in w.sessions && j in Step(c, w, e).sessions && Access.InRegion(c, View(w, j), off)
    ensures Access.InRegion(c, View(Step(c, w, e), j), off)
    ensures ByteAt(c, Step(c, w, e), j, off)
            == if e.WriteByte? && e.k == j && e.off == off then e.value else ByteAt(c, w, j, off)
  {
    var w' := Step(c, w, e);
    StepContents(c, u, w, e, j);
    assert SessionOk(c, u, w.versions, w.disk, w.sessions[j]);
    Access.LogicalIsBlock(c, u, View(w, j), Access.BlockOf(c, off));
    ByteAfter(c, w, e, w', j, off);
  }

  lemma {:induction false} AliveBefore(c: Config, u: iset<Bytes>, w: World, events: seq<Event>, j: nat)
    requires Sound(c, u) && WorldOk(c, u, w) && ValidRun(c, u, w, events) && events != []
    requires j in Run(c, w, events).sessions && !Starts(events[|events| - 1], j)
    ensures j in Run(c, w, events[..|events| - 1]).sessions
  {
    var before := Run(c, w, events[..|events| - 1]);
    RunKeeps(c, u, w, events[..|events| - 1]);
    SessionsOnlyStart(c, before, events[|events| - 1], j);
  }

  /** The state before the last event of a run, with process j's session there. */
  lemma BeforeLast(c: Config, u: iset<Bytes>, w: World, events: seq<Event>, j: nat) returns (v: World, e: Event)
    requires Sound(c, u) && WorldOk(c, u, w) && ValidRun(c, u, w, events) && events != [] && NeverRestarts(events, j)
    requires j in Run(c, w, events).sessions
    ensures v == Run(c, w, events[..|events| - 1]) && e == events[|events| - 1] && Run(c, w, events) == Step(c, v, e)
    ensures ValidRun(c, u, w, events[..|events| - 1]) && NeverRestarts(events[..|events| - 1], j)
    ensures WorldOk(c, u, v) && Enabled(c, u, v, e) && j in v.sessions
  {
    v, e := Run(c, w, events[..|events| - 1]), events[|events| - 1];
    AliveBefore(c, u, w, events, j);
    RunKeeps(c, u, w, events[..|events| - 1]);
  }

  lemma SessionsOnlyStart(c: Config, w: World, e: Event, j: nat)
    requires j in Step(c, w, e).sessions && !Starts(e, j)
    ensures j in w.sessions
  {
  }

  /** Over every run, each byte of a region holds the last value its process wrote there. */
  lemma {:induction false} RegionIsFlatArray(c: Config, u: iset<Bytes>, w: World, events: seq<Event>, j: nat, off: nat)
    requires Sound(c, u) && WorldOk(c, u, w) && ValidRun(c, u, w, events) && NeverRestarts(events, j)
    requires j in w.sessions && j in Run(c, w, events).sessions && Access.InRegion(c, View(w, j), off)
    ensures Access.InRegion(c, View(Run(c, w, events), j), off)
    ensures ByteAt(c, Run(c, w, events), j, off) == LastWrite(events, j, off, ByteAt(c, w, j, off))
    decreases |events|
  {
    if events != [] {
      AliveBefore(c, u, w, events, j);
      RegionIsFlatArray(c, u, w, events[..|events| - 1], j, off);
      LastStepByte(c, u, w, events, j, off);
    }
  }

  lemma LastStepByte(c: Config, u: iset<Bytes>, w: World, events: seq<Event>, j: nat, off: nat)
    requires Sound(c, u) && WorldOk(c, u, w) && ValidRun(c, u, w, events) && events != []
    requires j in Run(c, w, events[..|events| - 1]).sessions && j in Run(c, w, events).sessions
    requires Access.InRegion(c, View(Run(c, w, events[..|events| - 1]), j), off)
    ensures Access.InRegion(c, View(Run(c, w, events), j), off)
    ensures var e := events[|events| - 1];
            ByteAt(c, Run(c, w, events), j, off)
            == if e.WriteByte? && e.k == j && e.off == off then e.value
               else ByteAt(c, Run(c, w, events[..|events| - 1]), j, off)
  {
    RunKeeps(c, u, w, events[..|events| - 1]);
    StepByte(c, u, Run(c, w, events[..|events| - 1]), events[|events| - 1], j, off);
  }

  /** A load executed after any run returns the last value written, or what was there when the run started. */
  lemma ReadsReturnLastWrite(c: Config, u: iset<Bytes>, w: World, events: seq<Event>, j: nat, off: nat)
    requires Sound(c, u) && WorldOk(c, u, w) && ValidRun(c, u, w, events) && NeverRestarts(events, j)
    requires j in w.sessions && j in Run(c, w, events).sessions && Access.InRegion(c, View(w, j), off)
    ensures var p := View(Run(c, w, events), j);
            && Shape(p) && Access.InRegion(c, p, off)
            && Access.Load(c, p, off).Some?
            && Access.Load(c, p, off).value.1 == LastWrite(events, j, off, ByteAt(c, w, j, off))
  {
    var w' := Run(c, w, events);
    RunKeeps(c, u, w, events);
    RegionIsFlatArray(c, u, w, events, j, off);
    assert SessionOk(c, u, w'.versions, w'.disk, w'.sessions[j]);
    var q := Access.LoadKeeps(c, u, View(w', j), off);
  }

  /**
    A region is created with whole blocks, as few as hold the size asked for, for
    writing and with its budget, and with a version of that capacity.
   */
  lemma CreatedRegionSize(c: Config, w: World, k: nat, path: string, size: nat, budget: nat, overwrite: bool)
    requires c.blockSize > 0 && (path in w.versions ==> overwrite)
    ensures var w' := CreateStep(c, w, k, path, size, budget, overwrite);
            && k in w'.sessions && path in w'.versions && w'.versions[path].capacity == Some(w'.sessions[k].capacity)
            && size <= |w'.sessions[k].pager.ids| * c.blockSize == w'.sessions[k].capacity < size + c.blockSize
            && w'.sessions[k].path == path && !w'.sessions[k].pager.readOnly && w'.sessions[k].pager.budget == budget
  {
    Access.DivMod(size, c.blockSize);
    var n := if size % c.blockSize == 0 then size / c.blockSize else size / c.blockSize + 1;
    Access.Product(size / c.blockSize, n, c.blockSize);
    assert RoundUp(c, size) == n * c.blockSize;
    Access.QuotientUnique(n * c.blockSize, c.blockSize, n);
  }

  /** A region that was just created reads as zeros. */
  lemma CreatedRegionIsZero(c: Config, u: iset<Bytes>, w: World, k: nat, path: string, size: nat, budget: nat,
                            overwrite: bool, off: nat)
    requires Sound(c, u) && WorldOk(c, u, w) && Enabled(c, u, w, Create(k, path, size, budget, overwrite))
    requires path in w.versions ==> overwrite
    ensures k in CreateStep(c, w, k, path, size, budget, overwrite).sessions
    ensures ByteAt(c, CreateStep(c, w, k, path, size, budget, overwrite), k, off) == 0
  {
    EmptyIsNoFile(c, u, w.disk.files, Base);
  }

  /** Over every run no process holds more resident blocks than its budget. */
  lemma ResidencyIsBounded(c: Config, u: iset<Bytes>, w: World, events: seq<Event>, j: nat)
    requires Sound(c, u) && WorldOk(c, u, w) && ValidRun(c, u, w, events) && j in Run(c, w, events).sessions
    ensures var p := View(Run(c, w, events), j);
            |p.present| <= p.budget && |p.clean| + |p.dirty| == |p.present|
  {
    RunKeeps(c, u, w, events);
    var w' := Run(c, w, events);
    assert SessionOk(c, u, w'.versions, w'.disk, w'.sessions[j]);
    var p := View(w', j);
    assert |multiset(p.clean) + multiset(p.dirty)| == |multiset(p.present)|;
  }
}

/**
  Concurrent publication: any number of store_block calls, split into the file
  operations other processes and threads can come between. A writer creates a
  temporary file, checks for the final name, writes, and renames or removes;
  with two tiers it does so for the stash tier and then for the base tier.
 */
module Publication {
  import opened Blocks
  import opened Store

  /** Where a writer is in its current tier; `temp` is its temporary file. */
  datatype Phase =
    | Start
    | Created(temp: nat)
    | Writing(temp: nat, written: nat)
    | Renaming(temp: nat)
    | Removing(temp: nat)
    | Done

  datatype Writer = Writer(tier: Tier, phase: Phase)

  datatype State = State(files: map<FileName, Bytes>, temps: map<nat, Bytes>, nextTemp: nat, writers: seq<Writer>)

  /** Writer `writer` does its next file operation; a write makes `bytes` more bytes reach the file. */
  datatype Event = Event(writer: nat, bytes: nat)

  function Initial(c: Config, files: map<FileName, Bytes>, count: nat): State {
    State(files, map[], 0, seq(count, _ => Writer(Front(c), Start)))
  }

  /** After a tier is finished: on to the base tier, or done. */
  function NextTier(tier: Tier): Writer {
    if tier == Upper then Writer(Base, Start) else Writer(Base, Done)
  }

  function Partial(block: Bytes, n: nat): Bytes
    requires n <= |block|
  {
    block[..n] + Zeros(|block| - n)
  }

  function Step(c: Config, blocks: seq<Bytes>, s: State, e: Event): State
    requires |s.writers| == |blocks|
  {
    if e.writer >= |s.writers| then s
    else
      var w := s.writers[e.writer];
      var block := blocks[e.writer];
      var final := File(w.tier, c.hash(block));
      match w.phase
      case Start =>
        s.(temps := s.temps[s.nextTemp := Zeros(c.blockSize)], nextTemp := s.nextTemp + 1,
           writers := s.writers[e.writer := Writer(w.tier, Created(s.nextTemp))])
      case Created(t) =>
        s.(writers := s.writers[e.writer := Writer(w.tier, if final in s.files then Removing(t) else Writing(t, 0))])
      case Writing(t, n) =>
        if n + e.bytes < |block| then
          s.(temps := s.temps[t := Partial(block, n + e.bytes)],
             writers := s.writers[e.writer := Writer(w.tier, Writing(t, n + e.bytes))])
        else
          s.(temps := s.temps[t := block], writers := s.writers[e.writer := Writer(w.tier, Renaming(t))])
      case Renaming(t) =>
        s.(files := if t in s.temps then s.files[final := s.temps[t]] else s.files, temps := s.temps - {t},
           writers := s.writers[e.writer := NextTier(w.tier)])
      case Removing(t) =>
        s.(temps := s.temps - {t}, writers := s.writers[e.writer := NextTier(w.tier)])
      case Done => s
  }

  function Run(c: Config, blocks: seq<Bytes>, s: State, events: seq<Event>): (r: State)
    requires |s.writers| == |blocks|
    ensures |r.writers| == |blocks|
    decreases |events|
  {
    if events == [] then s else Run(c, blocks, Step(c, blocks, s, events[0]), events[1..])
  }

  // ---------- Invariant ----------

  predicate HoldsTemp(w: Writer) {
    !w.phase.Start? && !w.phase.Done?
  }

  /** A writer's temporary file is there, and holds the whole block by the time it is renamed. */
  ghost predicate TempThere(blocks: seq<Bytes>, s: State, w: nat)
    requires w < |s.writers| == |blocks|
  {
    && (HoldsTemp(s.writers[w]) ==> s.writers[w].phase.temp in s.temps)
    && (s.writers[w].phase.Renaming? ==> s.temps[s.writers[w].phase.temp] == blocks[w])
  }

  ghost predicate TempsThere(blocks: seq<Bytes>, s: State) {
    |s.writers| == |blocks| && forall w | 0 <= w < |s.writers| :: TempThere(blocks, s, w)
  }

  ghost predicate ShareTemp(s: State, v: nat, w: nat) {
    && v != w && v < |s.writers| && w < |s.writers| && HoldsTemp(s.writers[v]) && HoldsTemp(s.writers[w])
    && s.writers[v].phase.temp == s.writers[w].phase.temp
  }

  ghost predicate TempsBelow(s: State) {
    forall t | t in s.temps :: t < s.nextTemp
  }

  /** Every temporary file belongs to exactly one writer, and a finished write is the whole block. */
  ghost predicate TempsOk(c: Config, blocks: seq<Bytes>, s: State) {
    TempsThere(blocks, s) && (forall v, w :: !ShareTemp(s, v, w)) && TempsBelow(s)
  }

  ghost predicate AllOwned(s: State) {
    forall t | t in s.temps :: Owned(s, t)
  }

  ghost predicate Owned(s: State, t: nat) {
    exists w :: 0 <= w < |s.writers| && HoldsTemp(s.writers[w]) && s.writers[w].phase.temp == t
  }

  /** What a writer has published: the stash tier once it is on the base tier, the base tier once it is done. */
  ghost predicate Published(c: Config, files: map<FileName, Bytes>, block: Bytes, w: Writer) {
    && (w.tier.Upper? ==> c.multi && !w.phase.Done?)
    && (c.multi && w.tier.Base? ==> File(Upper, c.hash(block)) in files)
    && (w.phase.Removing? ==> File(w.tier, c.hash(block)) in files)
    && (w.phase.Done? ==> File(Base, c.hash(block)) in files)
  }

  /** The names a set of writers may publish. */
  ghost predicate Target(c: Config, blocks: seq<Bytes>, f: FileName) {
    (c.multi || f.tier.Base?) && exists w :: 0 <= w < |blocks| && f.id == c.hash(blocks[w])
  }

  ghost predicate FilesGrow(c: Config, u: iset<Bytes>, blocks: seq<Bytes>, files0: map<FileName, Bytes>, s: State) {
    && Named(c, u, s.files)
    && (forall f | f in files0 :: f in s.files)
    && (forall f | f in s.files :: f in files0 || Target(c, blocks, f))
  }

  ghost predicate Inv(c: Config, u: iset<Bytes>, blocks: seq<Bytes>, files0: map<FileName, Bytes>, s: State) {
    && TempsOk(c, blocks, s) && AllOwned(s)
    && FilesGrow(c, u, blocks, files0, s)
    && forall w | 0 <= w < |blocks| :: Published(c, s.files, blocks[w], s.writers[w])
  }

  lemma InitialInv(c: Config, u: iset<Bytes>, blocks: seq<Bytes>, files: map<FileName, Bytes>)
    requires Named(c, u, files)
    ensures Inv(c, u, blocks, files, Initial(c, files, |blocks|))
  {
  }

  lemma StepKeepsApart(c: Config, blocks: seq<Bytes>, s: State, e: Event, v: nat, w: nat)
    requires TempsThere(blocks, s) && TempsBelow(s) && !ShareTemp(s, v, w)
    ensures !ShareTemp(Step(c, blocks, s, e), v, w)
  {
    if e.writer < |s.writers| {
      assert TempThere(blocks, s, e.writer);
    }
    if v < |s.writers| && w < |s.writers| {
      assert TempThere(blocks, s, v) && TempThere(blocks, s, w);
    }
  }

  lemma StepKeepsTempThere(c: Config, blocks: seq<Bytes>, s: State, e: Event, w: nat)
    requires TempsOk(c, blocks, s) && w < |s.writers|
    ensures TempThere(blocks, Step(c, blocks, s, e), w)
  {
    assert TempThere(blocks, s, w);
    if w != e.writer && e.writer < |s.writers| {
      assert TempThere(blocks, s, e.writer) && !ShareTemp(s, w, e.writer);
    }
  }

  lemma StepKeepsTemps(c: Config, blocks: seq<Bytes>, s: State, e: Event)
    requires TempsOk(c, blocks, s)
    ensures TempsOk(c, blocks, Step(c, blocks, s, e))
  {
    if e.writer < |s.writers| {
      assert TempThere(blocks, s, e.writer);
    }
    forall w | 0 <= w < |s.writers|
      ensures TempThere(blocks, Step(c, blocks, s, e), w)
    {
      StepKeepsTempThere(c, blocks, s, e, w);
    }
    forall v, w
      ensures !ShareTemp(Step(c, blocks, s, e), v, w)
    {
      StepKeepsApart(c, blocks, s, e, v, w);
    }
  }

  lemma OwnerStays(c: Config, blocks: seq<Bytes>, s: State, e: Event, t: nat, w: nat)
    requires |s.writers| == |blocks| && w < |s.writers| && HoldsTemp(s.writers[w]) && s.writers[w].phase.temp == t
    requires t in Step(c, blocks, s, e).temps
    ensures Owned(Step(c, blocks, s, e), t)
  {
    var s' := Step(c, blocks, s, e);
    assert HoldsTemp(s'.writers[w]) && s'.writers[w].phase.temp == t;
  }

  lemma StepKeepsOwners(c: Config, blocks: seq<Bytes>, s: State, e: Event, t: nat)
    requires |s.writers| == |blocks| && AllOwned(s) && t in Step(c, blocks, s, e).temps
    ensures Owned(Step(c, blocks, s, e), t)
  {
    if t !in s.temps {
      assert Step(c, blocks, s, e).writers[e.writer].phase.temp == t;
    } else {
      assert Owned(s, t);
      var w :| 0 <= w < |s.writers| && HoldsTemp(s.writers[w]) && s.writers[w].phase.temp == t;
      OwnerStays(c, blocks, s, e, t, w);
    }
  }

  lemma StepKeepsFiles(c: Config, u: iset<Bytes>, blocks: seq<Bytes>, files0: map<FileName, Bytes>, s: State, e: Event)
    requires Inv(c, u, blocks, files0, s) && AllBlocks(u, blocks)
    ensures FilesGrow(c, u, blocks, files0, Step(c, blocks, s, e))
  {
    if e.writer < |s.writers| {
      assert TempThere(blocks, s, e.writer);
    }
  }

  lemma FilesNeverRemoved(c: Config, blocks: seq<Bytes>, s: State, e: Event)
    requires |s.writers| == |blocks|
    ensures s.files.Keys <= Step(c, blocks, s, e).files.Keys
  {
  }

  lemma StepKeepsPublished(c: Config, blocks: seq<Bytes>, s: State, e: Event, w: nat)
    requires TempsOk(c, blocks, s) && w < |blocks| && Published(c, s.files, blocks[w], s.writers[w])
    ensures var s' := Step(c, blocks, s, e); Published(c, s'.files, blocks[w], s'.writers[w])
  {
    if e.writer < |s.writers| {
      assert TempThere(blocks, s, e.writer);
    }
    FilesNeverRemoved(c, blocks, s, e);
  }

  lemma StepInv(c: Config, u: iset<Bytes>, blocks: seq<Bytes>, files0: map<FileName, Bytes>, s: State, e: Event)
    requires Inv(c, u, blocks, files0, s) && AllBlocks(u, blocks)
    ensures Inv(c, u, blocks, files0, Step(c, blocks, s, e))
  {
    StepKeepsTemps(c, blocks, s, e);
    forall t | t in Step(c, blocks, s, e).temps
      ensures Owned(Step(c, blocks, s, e), t)
    {
      StepKeepsOwners(c, blocks, s, e, t);
    }
    StepKeepsFiles(c, u, blocks, files0, s, e);
    forall w | 0 <= w < |blocks|
      ensures var s' := Step(c, blocks, s, e); Published(c, s'.files, blocks[w], s'.writers[w])
    {
      StepKeepsPublished(c, blocks, s, e, w);
    }
  }

  lemma {:induction false} RunInv(c: Config, u: iset<Bytes>, blocks: seq<Bytes>, files0: map<FileName, Bytes>,
                                  s: State, events: seq<Event>)
    requires Inv(c, u, blocks, files0, s) && AllBlocks(u, blocks)
    ensures Inv(c, u, blocks, files0, Run(c, blocks, s, events))
    decreases |events|
  {
    if events != [] {
      StepInv(c, u, blocks, files0, s, events[0]);
      RunInv(c, u, blocks, files0, Step(c, blocks, s, events[0]), events[1..]);
    }
  }

  // ---------- Main results ----------

  /**
    In every interleaving every file under a hash name is a complete block that
    hashes to its name, and no file that was there is lost or changed: writers
    racing past the existence check do no harm.
   */
  lemma PublicationSafe(c: Config, u: iset<Bytes>, blocks: seq<Bytes>, files: map<FileName, Bytes>, events: seq<Event>)
    requires Sound(c, u) && Named(c, u, files) && AllBlocks(u, blocks)
    ensures var s := Run(c, blocks, Initial(c, files, |blocks|), events);
            && (forall f | f in s.files :: |s.files[f]| == c.blockSize && c.hash(s.files[f]) == f.id)
            && (forall f | f in files :: f in s.files && s.files[f] == files[f])
  {
    InitialInv(c, u, blocks, files);
    var s := Run(c, blocks, Initial(c, files, |blocks|), events);
    RunInv(c, u, blocks, files, Initial(c, files, |blocks|), events);
    NameFixesContents(c, u, files, s.files);
    forall f | f in s.files
      ensures |s.files[f]| == c.blockSize
    {
      assert s.files[f] in u;
    }
  }

  /** The block has its file in every tier in use. */
  ghost predicate Known(c: Config, files: map<FileName, Bytes>, block: Bytes) {
    File(Base, c.hash(block)) in files && (c.multi ==> File(Upper, c.hash(block)) in files)
  }

  ghost predicate WritesNothing(c: Config, s: State, block: Bytes, w: Writer) {
    Known(c, s.files, block) && (w.tier.Upper? ==> c.multi) && !w.phase.Writing? && !w.phase.Renaming?
  }

  lemma StepWritesNothing(c: Config, blocks: seq<Bytes>, s: State, e: Event, w: nat)
    requires |s.writers| == |blocks| && w < |blocks| && WritesNothing(c, s, blocks[w], s.writers[w])
    ensures var s' := Step(c, blocks, s, e); WritesNothing(c, s', blocks[w], s'.writers[w])
  {
    FilesNeverRemoved(c, blocks, s, e);
    var tier := s.writers[w].tier;
    assert tier == Upper || tier == Base;
    assert File(tier, c.hash(blocks[w])) in s.files;
  }

  /**
    Deduplication saves the write: in every interleaving a writer whose block is in the
    store writes and renames nothing.
   */
  lemma {:induction false} KnownBlockIsNotWritten(c: Config, blocks: seq<Bytes>, s: State, events: seq<Event>, w: nat)
    requires |s.writers| == |blocks| && w < |blocks| && WritesNothing(c, s, blocks[w], s.writers[w])
    ensures var r := Run(c, blocks, s, events); WritesNothing(c, r, blocks[w], r.writers[w])
    decreases |events|
  {
    if events != [] {
      StepWritesNothing(c, blocks, s, events[0], w);
      KnownBlockIsNotWritten(c, blocks, Step(c, blocks, s, events[0]), events[1..], w);
    }
  }

  ghost predicate AllDone(s: State) {
    forall w | 0 <= w < |s.writers| :: s.writers[w].phase.Done?
  }

  /** Blocks stored one after the other, without interleaving. */
  function Sequentially(c: Config, files: map<FileName, Bytes>, blocks: seq<Bytes>, n: nat): map<FileName, Bytes>
    requires n <= |blocks|
  {
    if n == 0 then files
    else PublishAll(c, Sequentially(c, files, blocks, n - 1), c.hash(blocks[n - 1]), blocks[n - 1])
  }

  lemma {:induction false} SequentiallyAdds(c: Config, u: iset<Bytes>, files: map<FileName, Bytes>,
                                            blocks: seq<Bytes>, n: nat)
    requires Sound(c, u) && FilesOk(c, u, files) && AllBlocks(u, blocks) && n <= |blocks|
    ensures FilesOk(c, u, Sequentially(c, files, blocks, n))
    ensures forall f :: f in Sequentially(c, files, blocks, n) <==> f in files || Target(c, blocks[..n], f)
  {
    if n > 0 {
      SequentiallyAdds(c, u, files, blocks, n - 1);
      PublishAllKeeps(c, u, Sequentially(c, files, blocks, n - 1), blocks[n - 1]);
      forall f
        ensures Target(c, blocks[..n], f)
                <==> Target(c, blocks[..n - 1], f) || ((c.multi || f.tier.Base?) && f.id == c.hash(blocks[n - 1]))
      {
        TargetMore(c, blocks, n, f);
      }
    }
  }

  lemma TargetMore(c: Config, blocks: seq<Bytes>, n: nat, f: FileName)
    requires 0 < n <= |blocks|
    ensures Target(c, blocks[..n], f)
            <==> Target(c, blocks[..n - 1], f) || ((c.multi || f.tier.Base?) && f.id == c.hash(blocks[n - 1]))
  {
    assert blocks[..n][n - 1] == blocks[n - 1];
    if Target(c, blocks[..n - 1], f) {
      var w :| 0 <= w < n - 1 && f.id == c.hash(blocks[..n - 1][w]);
      assert blocks[..n][w] == blocks[..n - 1][w];
    }
    if Target(c, blocks[..n], f) {
      var w :| 0 <= w < n && f.id == c.hash(blocks[..n][w]);
      assert w < n - 1 ==> blocks[..n - 1][w] == blocks[..n][w];
    }
  }

  /**
    When every writer has finished, in whatever interleaving, no temporary file
    remains and the files are exactly those of storing the blocks one by one.
   */
  lemma InterleavedIsSequential(c: Config, u: iset<Bytes>, blocks: seq<Bytes>, files: map<FileName, Bytes>,
                                events: seq<Event>)
    requires Sound(c, u) && FilesOk(c, u, files) && AllBlocks(u, blocks)
    requires AllDone(Run(c, blocks, Initial(c, files, |blocks|), events))
    ensures var s := Run(c, blocks, Initial(c, files, |blocks|), events);
            && s.temps == map[]
            && s.files == Sequentially(c, files, blocks, |blocks|)
  {
    InitialInv(c, u, blocks, files);
    var s := Run(c, blocks, Initial(c, files, |blocks|), events);
    var r := Sequentially(c, files, blocks, |blocks|);
    RunInv(c, u, blocks, files, Initial(c, files, |blocks|), events);
    SequentiallyAdds(c, u, files, blocks, |blocks|);
    assert blocks[..|blocks|] == blocks;
    NoTempsLeft(c, blocks, s);
    AllPublished(c, u, blocks, files, s);
    NameFixesContents(c, u, s.files, r);
  }

  lemma NoTempsLeft(c: Config, blocks: seq<Bytes>, s: State)
    requires TempsOk(c, blocks, s) && AllOwned(s) && AllDone(s)
    ensures s.temps == map[]
  {
    assert forall t :: !Owned(s, t);
  }

  lemma AllPublished(c: Config, u: iset<Bytes>, blocks: seq<Bytes>, files: map<FileName, Bytes>, s: State)
    requires Inv(c, u, blocks, files, s) && AllDone(s)
    ensures forall f :: f in s.files <==> f in files || Target(c, blocks, f)
  {
    forall f | Target(c, blocks, f)
      ensures f in s.files
    {
      var w :| 0 <= w < |blocks| && f.id == c.hash(blocks[w]);
      assert Published(c, s.files, blocks[w], s.writers[w]);
      assert f == File(f.tier, f.id) && (f.tier == Base || f.tier == Upper);
    }
  }

  /** The store tasks of a flush, run as concurrent writers, leave the files the tasks leave run one by one. */
  lemma {:induction false} FlushFilesAreSequential(c: Config, s: Storage, mem: seq<Bytes>, order: seq<nat>, n: nat)
    requires InRange(order, |mem|) && n <= |order|
    ensures StoreAll(c, s, mem, order, n).disk.files == Sequentially(c, s.disk.files, FlushedBlocks(mem, order), n)
  {
    if n > 0 {
      FlushFilesAreSequential(c, s, mem, order, n - 1);
    }
  }

  ghost function FlushedBlocks(mem: seq<Bytes>, order: seq<nat>): seq<Bytes>
    requires InRange(order, |mem|)
  {
    seq(|order|, k requires 0 <= k < |order| => mem[order[k]])
  }
}

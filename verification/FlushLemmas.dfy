/** msync writes everything back, changes no contents, and does not depend on the order its tasks run in. */
module FlushLemmas {
  import opened Blocks
  import opened Store
  import opened Pager
  import opened PagerLemmas
  import opened Flush

  // ---------- What msync does, block by block ----------

  /** The ids, protections and lists after a flush. */
  ghost predicate Flushed(c: Config, p: Pager, q: Pager)
    requires |p.prot| == |p.ids| && |p.mem| == |p.ids|
  {
    && |q.ids| == |p.ids| && |q.prot| == |p.ids|
    && q == p.(store := q.store, ids := q.ids, prot := q.prot, clean := q.clean, dirty := [], stashSet := {})
    && multiset(q.clean) == multiset(p.clean) + multiset(p.dirty)
    && forall i | 0 <= i < |p.ids| ::
         && q.prot[i] == (if i in p.dirty then ProtRead else p.prot[i])
         && q.ids[i] == (if i in p.stashSet then StashedId(c, p.store, i)
                         else if i in p.dirty then c.hash(p.mem[i]) else p.ids[i])
  }

  lemma ElementsAreMembers(order: seq<nat>)
    ensures forall i: nat :: i in Elements(order, |order|) <==> i in order
  {
    ElementsAre(order, |order|);
  }

  lemma PagesInUniverse(c: Config, u: iset<Bytes>, p: Pager)
    requires PagerOk(c, u, p)
    ensures AllBlocks(u, p.mem)
  {
    forall i | 0 <= i < |p.mem|
      ensures p.mem[i] in u
    {
      assert PageOk(c, u, p, i);
    }
  }

  lemma MSyncRuns(c: Config, u: iset<Bytes>, p: Pager, order: seq<nat>, commits: seq<nat>) returns (m: Pager, q: Pager)
    requires Sound(c, u) && PagerOk(c, u, p) && Orders(p, order, commits)
    ensures InRange(order, |p.ids|) && InRange(commits, |p.ids|) && NoDuplicates(commits)
    ensures MSync(c, p, order, commits) == Some(q)
    ensures Stored(c, p, m.(dirty := p.dirty), order, |order|) && m.dirty == []
    ensures m.store == StoreAll(c, p.store, p.mem, order, |order|)
    ensures m.store.stashIds == p.store.stashIds && m.store.disk.stash == p.store.disk.stash
    ensures StorageOk(c, u, m.store) && AllStashed(m.store, commits)
    ensures CommitAll(c, m.store, commits, |commits|) == Some(q.store)
    ensures q == m.(store := q.store, ids := CommitIds(c, m.store, m.ids, commits, |commits|), stashSet := {})
  {
    OrdersInRange(p, order, commits);
    m := StoreTasksForm(c, p, order, |order|);
    m := m.(dirty := []);
    PagesInUniverse(c, u, p);
    StoreAllKeeps(c, u, p.store, p.mem, order, |order|);
    StoreAllFrame(c, p.store, p.mem, order, |order|);
    forall k | 0 <= k < |commits|
      ensures commits[k] in m.store.stashIds
    {
      assert commits[k] in commits;
    }
    var s := CommitAllKeeps(c, u, m.store, commits, |commits|);
    q := m.(store := s, ids := CommitIds(c, m.store, m.ids, commits, |commits|), stashSet := {});
  }

  /**
    A flush interrupted anywhere leaves the storage coherent, and has only added files
    and used up its own stash files.
   */
  lemma InterruptedKeeps(c: Config, u: iset<Bytes>, p: Pager, order: seq<nat>, stored: nat,
                         commits: seq<nat>, committed: nat)
    requires Sound(c, u) && PagerOk(c, u, p) && Orders(p, order, commits) && stored <= |order| && committed <= |commits|
    ensures InRange(order, |p.ids|) && InRange(commits, |p.ids|)
    ensures var t := Interrupted(c, p, order, stored, commits, committed);
            StorageOk(c, u, t) && Evolves(p.store, t)
  {
    var r, t := InterruptedRuns(c, u, p, order, stored, commits, committed);
    StoreAllKeeps(c, u, p.store, p.mem, order, stored);
    var t' := CommitAllKeeps(c, u, r, commits, committed);
    EvolvesTransitive(c, u, p.store, r, t);
  }

  /** One of the first n tasks is on a block with this hash. */
  ghost predicate TaskHash(c: Config, p: Pager, tasks: seq<nat>, n: nat, id: Id)
    requires |p.mem| == |p.ids| && InRange(tasks, |p.ids|) && n <= |tasks|
  {
    exists k :: 0 <= k < n && id == c.hash(Logical(c, p, tasks[k]))
  }

  /** One of the first n tasks is on a block with this stash file. */
  ghost predicate TaskStashFile(s: Storage, tasks: seq<nat>, n: nat, q: nat)
    requires n <= |tasks|
  {
    exists k :: 0 <= k < n && tasks[k] in s.stashIds && s.stashIds[tasks[k]] == q
  }

  lemma TaskBlocks(c: Config, u: iset<Bytes>, p: Pager, order: seq<nat>, commits: seq<nat>)
    requires Sound(c, u) && PagerOk(c, u, p) && Orders(p, order, commits)
    ensures InRange(order, |p.ids|) && InRange(commits, |p.ids|) && NoDuplicates(commits)
    ensures AllStashed(p.store, commits)
    ensures forall k | 0 <= k < |order| :: Logical(c, p, order[k]) == p.mem[order[k]]
    ensures forall k | 0 <= k < |commits| :: c.hash(Logical(c, p, commits[k])) == StashedId(c, p.store, commits[k])
  {
    OrdersInRange(p, order, commits);
    forall k | 0 <= k < |order|
      ensures Logical(c, p, order[k]) == p.mem[order[k]]
    {
      assert order[k] in order;
      FlushedBlock(c, u, p, order[k]);
    }
    forall k | 0 <= k < |commits|
      ensures commits[k] in p.store.stashIds
      ensures c.hash(Logical(c, p, commits[k])) == StashedId(c, p.store, commits[k])
    {
      assert commits[k] in commits;
      FlushedBlock(c, u, p, commits[k]);
    }
  }

  lemma InterruptedRuns(c: Config, u: iset<Bytes>, p: Pager, order: seq<nat>, stored: nat, commits: seq<nat>,
                        committed: nat) returns (s: Storage, t: Storage)
    requires Sound(c, u) && PagerOk(c, u, p) && Orders(p, order, commits) && stored <= |order| && committed <= |commits|
    ensures InRange(order, |p.ids|) && InRange(commits, |p.ids|)
    ensures AllBlocks(u, p.mem) && s == StoreAll(c, p.store, p.mem, order, stored)
    ensures s.stashIds == p.store.stashIds && s.disk == p.store.disk.(files := s.disk.files)
    ensures StorageOk(c, u, s) && NoDuplicates(commits) && AllStashed(s, commits)
    ensures CommitAll(c, s, commits, committed) == Some(t)
    ensures Interrupted(c, p, order, stored, commits, committed) == t
  {
    TaskBlocks(c, u, p, order, commits);
    PagesInUniverse(c, u, p);
    var q := StoreTasksForm(c, p, order, stored);
    s := q.store;
    StoreAllKeeps(c, u, p.store, p.mem, order, stored);
    StoreAllFrame(c, p.store, p.mem, order, stored);
    t := CommitAllKeeps(c, u, s, commits, committed);
  }

  /** A flush interrupted anywhere has stored the blocks of the tasks done, and no others. */
  lemma InterruptedFiles(c: Config, u: iset<Bytes>, p: Pager, order: seq<nat>, stored: nat, commits: seq<nat>,
                         committed: nat, f: FileName)
    requires Sound(c, u) && PagerOk(c, u, p) && Orders(p, order, commits) && stored <= |order| && committed <= |commits|
    ensures InRange(order, |p.ids|) && InRange(commits, |p.ids|)
    ensures f in Interrupted(c, p, order, stored, commits, committed).disk.files
            <==> f in p.store.disk.files
                 || ((c.multi || f.tier.Base?)
                     && (TaskHash(c, p, order, stored, f.id) || TaskHash(c, p, commits, committed, f.id)))
  {
    var s, t := InterruptedRuns(c, u, p, order, stored, commits, committed);
    TaskBlocks(c, u, p, order, commits);
    StoreAllAdds(c, u, p.store, p.mem, order, stored);
    HashesAre(c, p.mem, order, stored, f.id);
    var t' := CommitAllKeeps(c, u, s, commits, committed);
    StashHashesAre(c, s, commits, committed, f.id);
  }

  /** And used up the stash files of the commits done, and no others. */
  lemma InterruptedStash(c: Config, u: iset<Bytes>, p: Pager, order: seq<nat>, stored: nat, commits: seq<nat>,
                         committed: nat, q: nat)
    requires Sound(c, u) && PagerOk(c, u, p) && Orders(p, order, commits) && stored <= |order| && committed <= |commits|
    ensures InRange(order, |p.ids|) && InRange(commits, |p.ids|)
    ensures var d := Interrupted(c, p, order, stored, commits, committed).disk;
            && (q in d.stash <==> q in p.store.disk.stash && !TaskStashFile(p.store, commits, committed, q))
            && (q in d.stash ==> d.stash[q] == p.store.disk.stash[q])
            && d.nextUuid == p.store.disk.nextUuid
  {
    var s, t := InterruptedRuns(c, u, p, order, stored, commits, committed);
    CommitAllConsumes(c, s, commits, committed);
    StashFilesAre(s, commits, committed, q);
    ElementsAre(commits, committed);
  }

  lemma MSyncForm(c: Config, u: iset<Bytes>, p: Pager, order: seq<nat>, commits: seq<nat>) returns (q: Pager)
    requires Sound(c, u) && PagerOk(c, u, p) && Orders(p, order, commits)
    ensures InRange(order, |p.ids|) && InRange(commits, |p.ids|)
    ensures MSync(c, p, order, commits) == Some(q)
    ensures Flushed(c, p, q)
  {
    var m: Pager;
    m, q := MSyncRuns(c, u, p, order, commits);
    OrdersInRange(p, order, commits);
    ElementsAreMembers(order);
    ElementsAreMembers(commits);
    assert order[..|order|] == order;
    forall i | 0 <= i < |p.ids|
      ensures q.prot[i] == (if i in p.dirty then ProtRead else p.prot[i])
      ensures q.ids[i] == (if i in p.stashSet then StashedId(c, p.store, i)
                           else if i in p.dirty then c.hash(p.mem[i]) else p.ids[i])
    {
      CommitIdsAre(c, u, m.store, m.ids, commits, |commits|, i);
    }
  }

  /** Exactly the hashes of the dirty blocks and of the stashed blocks. */
  ghost predicate FlushHash(c: Config, p: Pager, id: Id)
    requires |p.mem| == |p.ids|
  {
    exists i: nat :: i < |p.ids| && (i in p.dirty || i in p.stashSet) && id == c.hash(Logical(c, p, i))
  }

  lemma FlushedBlock(c: Config, u: iset<Bytes>, p: Pager, i: nat)
    requires Sound(c, u) && PagerOk(c, u, p) && i < |p.ids|
    ensures i in p.dirty ==> Logical(c, p, i) == p.mem[i]
    ensures i in p.stashSet ==> c.hash(Logical(c, p, i)) == StashedId(c, p.store, i)
  {
    assert PageOk(c, u, p, i);
    InLists(p, i);
  }

  lemma MSyncStorage(c: Config, u: iset<Bytes>, p: Pager, order: seq<nat>, commits: seq<nat>)
    requires Sound(c, u) && PagerOk(c, u, p) && Orders(p, order, commits)
    ensures InRange(order, |p.ids|) && InRange(commits, |p.ids|)
    ensures MSync(c, p, order, commits).Some?
    ensures var q := MSync(c, p, order, commits).value;
            StorageOk(c, u, q.store) && Evolves(p.store, q.store) && q.store.stashIds == map[]
  {
    var m, q := MSyncRuns(c, u, p, order, commits);
    PagesInUniverse(c, u, p);
    StoreAllKeeps(c, u, p.store, p.mem, order, |order|);
    var s := CommitAllKeeps(c, u, m.store, commits, |commits|);
    EvolvesTransitive(c, u, p.store, m.store, s);
    OrdersInRange(p, order, commits);
    ElementsAreMembers(commits);
  }

  /**
    A storage object's record of a block stays as it is, and blocks stored for the first
    time get the empty string; committing a stash file records nothing.
   */
  lemma MSyncRecords(c: Config, u: iset<Bytes>, p: Pager, order: seq<nat>, commits: seq<nat>, i: nat)
    requires Sound(c, u) && PagerOk(c, u, p) && Orders(p, order, commits)
    ensures InRange(order, |p.ids|) && InRange(commits, |p.ids|)
    ensures MSync(c, p, order, commits).Some?
    ensures var before, after := p.store.committed, MSync(c, p, order, commits).value.store.committed;
            && (i in after <==> i in before || i in p.dirty)
            && (i in after ==> after[i] == if i in before then before[i] else "")
  {
    var m, q := MSyncRuns(c, u, p, order, commits);
    OrdersInRange(p, order, commits);
    ElementsAreMembers(order);
    StoreAllFrame(c, p.store, p.mem, order, |order|);
    StoreAllRecords(c, p.store, p.mem, order, |order|);
    CommitAllConsumes(c, m.store, commits, |commits|);
  }

  /**
    Exact deduplication: msync leaves precisely the old files and, in every tier
    in use, a file for each block that was dirty or stashed.
   */
  lemma MSyncDeduplicates(c: Config, u: iset<Bytes>, p: Pager, order: seq<nat>, commits: seq<nat>, f: FileName)
    requires Sound(c, u) && PagerOk(c, u, p) && Orders(p, order, commits)
    ensures InRange(order, |p.ids|) && InRange(commits, |p.ids|)
    ensures MSync(c, p, order, commits).Some?
    ensures f in MSync(c, p, order, commits).value.store.disk.files
            <==> f in p.store.disk.files || ((c.multi || f.tier.Base?) && FlushHash(c, p, f.id))
  {
    var m, q := MSyncRuns(c, u, p, order, commits);
    OrdersInRange(p, order, commits);
    PagesInUniverse(c, u, p);
    StoreAllAdds(c, u, p.store, p.mem, order, |order|);
    var s := CommitAllKeeps(c, u, m.store, commits, |commits|);
    StoredHashIs(c, u, p, order, f.id);
    CommittedHashIs(c, u, p, m.store, commits, f.id);
  }

  lemma StoredHashIs(c: Config, u: iset<Bytes>, p: Pager, order: seq<nat>, id: Id)
    requires Sound(c, u) && PagerOk(c, u, p) && multiset(order) == multiset(p.dirty) && InRange(order, |p.ids|)
    ensures id in Hashes(c, p.mem, order, |order|)
            <==> exists i: nat :: i < |p.ids| && i in p.dirty && id == c.hash(Logical(c, p, i))
  {
    HashesAre(c, p.mem, order, |order|, id);
    if id in Hashes(c, p.mem, order, |order|) {
      var k :| 0 <= k < |order| && id == c.hash(p.mem[order[k]]);
      assert order[k] in multiset(order);
      FlushedBlock(c, u, p, order[k]);
    }
    if i: nat :| i < |p.ids| && i in p.dirty && id == c.hash(Logical(c, p, i)) {
      FlushedBlock(c, u, p, i);
      assert i in multiset(order);
    }
  }

  lemma CommittedHashIs(c: Config, u: iset<Bytes>, p: Pager, s: Storage, commits: seq<nat>, id: Id)
    requires Sound(c, u) && PagerOk(c, u, p) && multiset(commits) == multiset(p.stashSet)
    requires StashIdsOk(s) && AllStashed(s, commits)
    requires s.stashIds == p.store.stashIds && s.disk.stash == p.store.disk.stash
    ensures id in StashHashes(c, s, commits, |commits|)
            <==> exists i: nat :: i < |p.ids| && i in p.stashSet && id == c.hash(Logical(c, p, i))
  {
    forall i: nat | i in p.stashSet
      ensures i < |p.ids| && c.hash(Logical(c, p, i)) == StashedId(c, s, i)
    {
      FlushedBlock(c, u, p, i);
    }
    CommittedHashes(c, p, s, commits, id);
  }

  lemma CommittedHashes(c: Config, p: Pager, s: Storage, commits: seq<nat>, id: Id)
    requires |p.mem| == |p.ids| && multiset(commits) == multiset(p.stashSet)
    requires StashIdsOk(s) && AllStashed(s, commits)
    requires forall i: nat | i in p.stashSet :: i < |p.ids| && c.hash(Logical(c, p, i)) == StashedId(c, s, i)
    ensures id in StashHashes(c, s, commits, |commits|)
            <==> exists i: nat :: i < |p.ids| && i in p.stashSet && id == c.hash(Logical(c, p, i))
  {
    StashHashesAre(c, s, commits, |commits|, id);
    if id in StashHashes(c, s, commits, |commits|) {
      var k :| 0 <= k < |commits| && id == StashedId(c, s, commits[k]);
      assert commits[k] in multiset(commits);
    }
    if i: nat :| i < |p.ids| && i in p.stashSet && id == c.hash(Logical(c, p, i)) {
      assert i in multiset(commits);
      assert i in commits;
    }
  }

  // ---------- Main results ----------

  lemma MSyncPage(c: Config, u: iset<Bytes>, p: Pager, q: Pager, i: nat)
    requires Sound(c, u) && PagerOk(c, u, p) && Flushed(c, p, q) && i < |p.ids|
    requires StorageOk(c, u, q.store) && p.store.disk.files.Keys <= q.store.disk.files.Keys && q.store.stashIds == map[]
    requires i in p.dirty || i in p.stashSet ==> File(Base, c.hash(Logical(c, p, i))) in q.store.disk.files
    ensures Content(c, q.store.disk.files, q.ids[i]) == Logical(c, p, i)
    ensures |q.ids[i]| == HASH_SIZE
  {
    assert PageOk(c, u, p, i) && IdOk(c, p.store, i, p.ids[i]);
    InLists(p, i);
    FlushedBlock(c, u, p, i);
    if i in p.dirty || i in p.stashSet {
      BackingInUniverse(c, u, p, i);
      FileHolds(c, u, q.store.disk.files, Logical(c, p, i));
    } else {
      ContentStable(c, u, p.store.disk.files, q.store.disk.files, p.ids[i]);
    }
  }

  lemma FileHolds(c: Config, u: iset<Bytes>, files: map<FileName, Bytes>, block: Bytes)
    requires Sound(c, u) && Named(c, u, files) && block in u && File(Base, c.hash(block)) in files
    ensures Content(c, files, c.hash(block)) == block && |c.hash(block)| == HASH_SIZE
  {
    assert SameHash(c, files[File(Base, c.hash(block))], block);
  }

  lemma MSyncId(c: Config, u: iset<Bytes>, p: Pager, q: Pager, i: nat)
    requires Sound(c, u) && PagerOk(c, u, p) && Flushed(c, p, q) && i < |p.ids|
    requires p.store.disk.files.Keys <= q.store.disk.files.Keys
    requires i in q.store.committed <==> i in p.store.committed || i in p.dirty
    requires i in p.dirty || i in p.stashSet ==>
               && File(Base, c.hash(Logical(c, p, i))) in q.store.disk.files
               && (c.multi ==> File(Upper, c.hash(Logical(c, p, i))) in q.store.disk.files)
    ensures IdOk(c, q.store, i, q.ids[i])
  {
    assert IdOk(c, p.store, i, p.ids[i]);
    FlushedBlock(c, u, p, i);
  }

  /**
    A complete flush: nothing stays dirty or stashed, and every block, resident
    or not, now equals the store file its id names, or zeros under the empty id.
   */
  lemma MSyncKeeps(c: Config, u: iset<Bytes>, p: Pager, order: seq<nat>, commits: seq<nat>) returns (q: Pager)
    requires Sound(c, u) && PagerOk(c, u, p) && Orders(p, order, commits)
    ensures InRange(order, |p.ids|) && InRange(commits, |p.ids|)
    ensures MSync(c, p, order, commits) == Some(q)
    ensures PagerOk(c, u, q) && SameContents(c, p, q) && Evolves(p.store, q.store) && SameRegion(p, q)
    ensures q.dirty == [] && q.stashSet == {} && q.store.stashIds == map[]
    ensures q.present == p.present && q.mem == p.mem
    ensures forall i | 0 <= i < |q.ids| :: Content(c, q.store.disk.files, q.ids[i]) == Logical(c, q, i)
  {
    q := MSyncForm(c, u, p, order, commits);
    MSyncStorage(c, u, p, order, commits);
    forall i | 0 <= i < |p.ids|
      ensures |q.ids[i]| == HASH_SIZE && IdOk(c, q.store, i, q.ids[i])
      ensures Content(c, q.store.disk.files, q.ids[i]) == Logical(c, p, i)
    {
      if i in p.dirty || i in p.stashSet {
        assert FlushHash(c, p, c.hash(Logical(c, p, i)));
        MSyncDeduplicates(c, u, p, order, commits, File(Base, c.hash(Logical(c, p, i))));
        MSyncDeduplicates(c, u, p, order, commits, File(Upper, c.hash(Logical(c, p, i))));
      }
      MSyncRecords(c, u, p, order, commits, i);
      MSyncPage(c, u, p, q, i);
      MSyncId(c, u, p, q, i);
    }
    MSyncInvariant(c, u, p, q);
  }

  lemma MSyncInvariant(c: Config, u: iset<Bytes>, p: Pager, q: Pager)
    requires Sound(c, u) && PagerOk(c, u, p) && Flushed(c, p, q)
    requires StorageOk(c, u, q.store) && q.store.stashIds == map[] && IdsOk(c, q)
    requires forall i | 0 <= i < |p.ids| :: Content(c, q.store.disk.files, q.ids[i]) == Logical(c, p, i)
    ensures PagerOk(c, u, q) && SameContents(c, p, q)
    ensures forall i | 0 <= i < |q.ids| :: Content(c, q.store.disk.files, q.ids[i]) == Logical(c, q, i)
  {
    forall k | 0 <= k < |q.clean|
      ensures q.clean[k] < |q.ids|
    {
      assert q.clean[k] in multiset(q.clean);
      assert q.clean[k] in p.clean || q.clean[k] in p.dirty;
    }
    forall i | 0 <= i < |p.ids|
      ensures PageOk(c, u, q, i) && Logical(c, q, i) == Logical(c, p, i)
    {
      assert PageOk(c, u, p, i);
      InLists(p, i);
      assert i in q.clean <==> i in multiset(q.clean);
    }
  }

  lemma AllStashFiles(s: Storage, commits: seq<nat>)
    requires multiset(commits) == multiset(s.stashIds.Keys)
    ensures StashFiles(s, commits, |commits|) == s.stashIds.Values
  {
    ElementsAreMembers(commits);
    forall f: nat
      ensures f in StashFiles(s, commits, |commits|) <==> f in s.stashIds.Values
    {
      StashFilesAre(s, commits, |commits|, f);
      if i :| i in s.stashIds && s.stashIds[i] == f {
        assert i in multiset(commits);
      }
      if i :| i in Elements(commits, |commits|) && i in s.stashIds && f == s.stashIds[i] {
        assert i in multiset(commits);
      }
    }
  }

  /**
    What of the storage a flush leaves besides its final files: the session's own stash
    files are gone, all others are as before.
   */
  lemma MSyncLeftovers(c: Config, u: iset<Bytes>, p: Pager, order: seq<nat>, commits: seq<nat>)
    requires Sound(c, u) && PagerOk(c, u, p) && Orders(p, order, commits)
    ensures InRange(order, |p.ids|) && InRange(commits, |p.ids|)
    ensures MSync(c, p, order, commits).Some?
    ensures var q := MSync(c, p, order, commits).value;
            && q.store.disk.stash == p.store.disk.stash - p.store.stashIds.Values
            && q.store.disk.nextUuid == p.store.disk.nextUuid
  {
    var m, q := MSyncRuns(c, u, p, order, commits);
    StoreAllFrame(c, p.store, p.mem, order, |order|);
    CommitAllConsumes(c, m.store, commits, |commits|);
    AllStashFiles(m.store, commits);
  }

  /**
    The parallel tasks of a flush may run in any order: same files, same ids,
    same everything, except that the clean list is permuted.
   */
  lemma MSyncOrderIrrelevant(c: Config, u: iset<Bytes>, p: Pager, order: seq<nat>, commits: seq<nat>,
                             order': seq<nat>, commits': seq<nat>)
    requires Sound(c, u) && PagerOk(c, u, p) && Orders(p, order, commits) && Orders(p, order', commits')
    ensures InRange(order, |p.ids|) && InRange(commits, |p.ids|) && InRange(order', |p.ids|)
    ensures InRange(commits', |p.ids|)
    ensures MSync(c, p, order, commits).Some? && MSync(c, p, order', commits').Some?
    ensures var q, q' := MSync(c, p, order, commits).value, MSync(c, p, order', commits').value;
            q == q'.(clean := q.clean) && multiset(q.clean) == multiset(q'.clean)
  {
    var q := MSyncForm(c, u, p, order, commits);
    var q' := MSyncForm(c, u, p, order', commits');
    assert q.ids == q'.ids && q.prot == q'.prot;
    SameStorage(c, u, p, order, commits, order', commits');
  }

  lemma SameStorage(c: Config, u: iset<Bytes>, p: Pager, order: seq<nat>, commits: seq<nat>, order': seq<nat>,
                    commits': seq<nat>)
    requires Sound(c, u) && PagerOk(c, u, p) && Orders(p, order, commits) && Orders(p, order', commits')
    ensures InRange(order, |p.ids|) && InRange(commits, |p.ids|) && InRange(order', |p.ids|)
    ensures InRange(commits', |p.ids|)
    ensures MSync(c, p, order, commits).Some? && MSync(c, p, order', commits').Some?
    ensures MSync(c, p, order, commits).value.store == MSync(c, p, order', commits').value.store
  {
    MSyncStorage(c, u, p, order, commits);
    MSyncStorage(c, u, p, order', commits');
    MSyncLeftovers(c, u, p, order, commits);
    MSyncLeftovers(c, u, p, order', commits');
    var s, s' := MSync(c, p, order, commits).value.store, MSync(c, p, order', commits').value.store;
    forall f
      ensures f in s.disk.files <==> f in s'.disk.files
    {
      MSyncDeduplicates(c, u, p, order, commits, f);
      MSyncDeduplicates(c, u, p, order', commits', f);
    }
    NameFixesContents(c, u, s.disk.files, s'.disk.files);
    assert s.disk.files.Keys == s'.disk.files.Keys;
    forall i: nat
      ensures i in s.committed <==> i in s'.committed
      ensures i in s.committed ==> s.committed[i] == s'.committed[i]
    {
      MSyncRecords(c, u, p, order, commits, i);
      MSyncRecords(c, u, p, order', commits', i);
    }
    assert s.committed == s'.committed;
  }
}

/** Every fault and eviction keeps the pager's invariant and every block's logical contents. */
module PagerLemmas {
  import opened Blocks
  import opened Store
  import opened Pager

  // ---------- Lists ----------

  lemma InLists(p: Pager, i: nat)
    requires ListsOk(p)
    ensures i in p.present <==> i in p.clean || i in p.dirty
    ensures !(i in p.clean && i in p.dirty)
  {
    var both := multiset(p.clean) + multiset(p.dirty);
    assert both[i] == multiset(p.present)[i];
    assert i in p.clean <==> i in multiset(p.clean);
    assert i in p.dirty <==> i in multiset(p.dirty);
  }

  /**
    The list invariant in plain words: no list repeats a block, no block is in both,
    together they are the resident set.
   */
  lemma ListsPartitionResident(p: Pager)
    requires ListsOk(p)
    ensures NoDuplicates(p.clean) && NoDuplicates(p.dirty)
    ensures forall i: nat :: !(i in p.clean && i in p.dirty)
    ensures forall i: nat :: i in p.present <==> i in p.clean || i in p.dirty
  {
    forall i: nat
      ensures !(i in p.clean && i in p.dirty) && (i in p.present <==> i in p.clean || i in p.dirty)
    {
      InLists(p, i);
    }
    forall x: nat
      ensures multiset(p.clean)[x] <= 1 && multiset(p.dirty)[x] <= 1
    {
      assert (multiset(p.clean) + multiset(p.dirty))[x] == multiset(p.present)[x];
    }
    CountsGiveNoDuplicates(p.clean);
    CountsGiveNoDuplicates(p.dirty);
  }

  lemma CountsGiveNoDuplicates(s: seq<nat>)
    requires forall x: nat :: multiset(s)[x] <= 1
    ensures NoDuplicates(s)
  {
    forall j, k | 0 <= j < k < |s|
      ensures s[j] != s[k]
    {
      assert s == s[..k] + [s[k]] + s[k + 1..];
      var before := s[..k];
      assert before[j] == s[j] && s[j] in multiset(before);
      assert multiset(s) == multiset(before) + multiset{s[k]} + multiset(s[k + 1..]);
      assert multiset(s)[s[k]] <= 1;
    }
  }

  lemma PopBack(s: seq<nat>)
    requires s != []
    ensures multiset(s) == multiset(s[..|s| - 1]) + multiset{s[|s| - 1]}
    ensures s[|s| - 1] in s
    ensures forall i | i in s[..|s| - 1] :: i in s
  {
    assert s == s[..|s| - 1] + [s[|s| - 1]];
  }

  lemma {:induction false} RemoveCounts(s: seq<nat>, x: nat)
    ensures multiset(Remove(s, x)) == multiset(s)[x := 0]
  {
    if s != [] {
      RemoveCounts(s[1..], x);
      assert s == [s[0]] + s[1..];
      if s[0] == x {
        assert Remove(s, x) == Remove(s[1..], x);
      }
    }
  }

  lemma {:induction false} RemoveKeepsRange(s: seq<nat>, x: nat, n: nat)
    requires InRange(s, n)
    ensures InRange(Remove(s, x), n)
  {
    if s != [] {
      RemoveKeepsRange(s[1..], x, n);
    }
  }

  // ---------- Backing contents ----------

  lemma ContentStable(c: Config, u: iset<Bytes>, files: map<FileName, Bytes>, files': map<FileName, Bytes>, id: Id)
    requires Sound(c, u) && Named(c, u, files) && Named(c, u, files') && files.Keys <= files'.Keys
    requires id == EmptyBlockHash() || File(Base, id) in files
    ensures Content(c, files', id) == Content(c, files, id)
  {
    NameFixesContents(c, u, files, files');
    EmptyIsNoFile(c, u, files', Base);
  }

  lemma BackingInUniverse(c: Config, u: iset<Bytes>, p: Pager, i: nat)
    requires Sound(c, u) && StorageOk(c, u, p.store) && i < |p.ids|
    ensures Backing(c, p, i) in u
  {
  }

  // ---------- Eviction ----------

  lemma UnmapKeepsLists(c: Config, p: Pager, q: Pager, victim: nat)
    requires ListsOk(p) && victim in p.present && victim < |p.prot| && victim < |p.mem|
    requires q.budget == p.budget && q.present == p.present
    requires multiset(p.clean) + multiset(p.dirty) == multiset(q.clean) + multiset(q.dirty) + multiset{victim}
    requires victim < |q.prot| && victim < |q.mem|
    ensures ListsOk(Unmap(c, q, victim)) && |Unmap(c, q, victim).present| < p.budget
  {
    var lists := multiset(q.clean) + multiset(q.dirty);
    assert multiset(p.present) == multiset(p.present - {victim}) + multiset{victim};
    assert lists == lists + multiset{victim} - multiset{victim};
    assert multiset(p.present - {victim}) == multiset(p.present) - multiset{victim};
  }

  lemma EvictClean(c: Config, u: iset<Bytes>, p: Pager)
    requires Sound(c, u) && PagerOk(c, u, p) && |p.present| >= p.budget && |p.clean| > 0
    ensures Evict(c, p).Some?
    ensures var q := Evict(c, p).value;
            PagerOk(c, u, q) && SameContents(c, p, q) && |q.present| < q.budget
  {
    var victim := p.clean[|p.clean| - 1];
    var q := Evict(c, p).value;
    PopBack(p.clean);
    InLists(p, victim);
    UnmapKeepsLists(c, p, p.(clean := p.clean[..|p.clean| - 1]), victim);
    InLists(q, victim);
    forall i | 0 <= i < |p.ids|
      ensures PageOk(c, u, q, i) && Logical(c, q, i) == Logical(c, p, i)
    {
      assert PageOk(c, u, p, i);
    }
  }

  ghost predicate MustStash(p: Pager) {
    |p.present| >= p.budget && |p.clean| == 0 && |p.dirty| > 0
  }

  lemma EvictDirtyLists(c: Config, p: Pager)
    requires Shape(p) && ListsOk(p) && MustStash(p)
    ensures Evict(c, p).Some?
    ensures var q := Evict(c, p).value;
            var victim := p.dirty[|p.dirty| - 1];
            && Shape(q) && ListsOk(q) && |q.present| < q.budget && victim in p.present
            && forall i: nat :: i in q.dirty <==> i in p.dirty && i != victim
  {
    var victim := p.dirty[|p.dirty| - 1];
    var q := Evict(c, p).value;
    PopBack(p.dirty);
    InLists(p, victim);
    UnmapKeepsLists(c, p, p.(dirty := p.dirty[..|p.dirty| - 1]), victim);
    InLists(q, victim);
    assert p.dirty == q.dirty + [victim];
  }

  lemma EvictDirtyStore(c: Config, u: iset<Bytes>, p: Pager)
    requires Sound(c, u) && PagerOk(c, u, p) && MustStash(p)
    ensures Evict(c, p).Some?
    ensures var q := Evict(c, p).value;
            StorageOk(c, u, q.store) && StashOk(q) && IdsOk(c, q) && Evolves(p.store, q.store)
  {
    var victim := p.dirty[|p.dirty| - 1];
    EvictDirtyLists(c, p);
    assert PageOk(c, u, p, victim);
    StashBlockKeeps(c, u, p.store, victim, p.mem[victim]);
  }

  lemma StashedBacking(c: Config, u: iset<Bytes>, p: Pager, q: Pager, victim: nat, i: nat)
    requires StorageOk(c, u, p.store) && i < |p.ids| && victim < |p.mem|
    requires q.ids == p.ids && q.store == StashBlock(p.store, victim, p.mem[victim])
    ensures Backing(c, q, i) == if i == victim then p.mem[victim] else Backing(c, p, i)
  {
    FilesNotShared(p.store);
  }

  lemma EvictDirtyPage(c: Config, u: iset<Bytes>, p: Pager, i: nat)
    requires Sound(c, u) && PagerOk(c, u, p) && MustStash(p) && i < |p.ids|
    ensures Evict(c, p).Some?
    ensures var q := Evict(c, p).value; PageOk(c, u, q, i) && Logical(c, q, i) == Logical(c, p, i)
  {
    EvictDirtyLists(c, p);
    assert PageOk(c, u, p, i);
    StashedBacking(c, u, p, Evict(c, p).value, p.dirty[|p.dirty| - 1], i);
  }

  lemma EvictDirty(c: Config, u: iset<Bytes>, p: Pager)
    requires Sound(c, u) && PagerOk(c, u, p) && MustStash(p)
    ensures Evict(c, p).Some?
    ensures var q := Evict(c, p).value;
            PagerOk(c, u, q) && SameContents(c, p, q) && |q.present| < q.budget && Evolves(p.store, q.store)
  {
    EvictDirtyLists(c, p);
    EvictDirtyStore(c, u, p);
    var q := Evict(c, p).value;
    forall i | 0 <= i < |p.ids|
      ensures PageOk(c, u, q, i) && Logical(c, q, i) == Logical(c, p, i)
    {
      EvictDirtyPage(c, u, p, i);
    }
  }

  /**
    Eviction always finds one victim when it needs one, never the block about to
    be mapped, and changes no contents; it stashes nothing while a block is clean.
   */
  lemma EvictKeeps(c: Config, u: iset<Bytes>, p: Pager) returns (q: Pager)
    requires Sound(c, u) && PagerOk(c, u, p)
    ensures Evict(c, p) == Some(q)
    ensures PagerOk(c, u, q) && SameContents(c, p, q) && Evolves(p.store, q.store)
    ensures |q.present| < q.budget && q.present <= p.present && SameRegion(p, q) && q.ids == p.ids
    ensures |p.present| < p.budget ==> q == p
    ensures |p.present| >= p.budget ==> |q.present| + 1 == |p.present|
    ensures p.clean != [] ==> q.store == p.store && q.dirty == p.dirty
  {
    q := Evict(c, p).value;
    if |p.present| >= p.budget {
      if |p.clean| > 0 {
        EvictClean(c, u, p);
      } else {
        assert |multiset(p.present)| == |p.present| && |multiset(p.dirty)| == |p.dirty|;
        EvictDirty(c, u, p);
      }
    }
  }

  // ---------- Faults on resident blocks ----------

  lemma UnstashedBacking(c: Config, u: iset<Bytes>, p: Pager, q: Pager, b: nat, i: nat)
    requires StorageOk(c, u, p.store) && i < |p.ids| && i != b && b in p.store.stashIds
    requires q.ids == p.ids && q.store == UnstashBlock(p.store, b).value
    ensures Backing(c, q, i) == Backing(c, p, i)
  {
    FilesNotShared(p.store);
  }

  lemma {:induction false} RemoveMembers(s: seq<nat>, x: nat)
    ensures forall i: nat :: i in Remove(s, x) <==> i in s && i != x
  {
    if s != [] {
      RemoveMembers(s[1..], x);
    }
  }

  /** The lists once block b has moved from the clean to the dirty list. */
  ghost predicate MovedToDirty(p: Pager, q: Pager, b: nat) {
    q.clean == Remove(p.clean, b) && q.dirty == [b] + p.dirty && q.present == p.present && q.budget == p.budget
  }

  lemma MoveKeepsCounts(p: Pager, q: Pager, b: nat)
    requires ListsOk(p) && b in p.clean && MovedToDirty(p, q, b)
    ensures ListsOk(q)
  {
    InLists(p, b);
    RemoveCounts(p.clean, b);
    assert (multiset(p.clean) + multiset(p.dirty))[b] == multiset(p.present)[b];
    assert multiset(p.clean)[b := 0] + multiset{b} == multiset(p.clean);
    assert multiset(q.dirty) == multiset{b} + multiset(p.dirty);
  }

  lemma MoveToDirty(p: Pager, q: Pager, b: nat)
    requires Shape(p) && ListsOk(p) && b in p.clean && MovedToDirty(p, q, b)
    ensures ListsOk(q) && InRange(q.clean, |p.ids|) && InRange(q.dirty, |p.ids|) && b in p.present
    ensures forall i: nat :: (i in q.clean <==> i in p.clean && i != b) && (i in q.dirty <==> i in p.dirty || i == b)
  {
    InLists(p, b);
    MoveKeepsCounts(p, q, b);
    RemoveMembers(p.clean, b);
    RemoveKeepsRange(p.clean, b, |p.ids|);
  }

  lemma PresentWriteStore(c: Config, u: iset<Bytes>, p: Pager, b: nat)
    requires Sound(c, u) && PagerOk(c, u, p) && b < |p.ids| && b in p.clean && !p.readOnly
    ensures FaultPresent(p, b, true).Some?
    ensures var q := FaultPresent(p, b, true).value;
            && Shape(q) && ListsOk(q) && StashOk(q) && StorageOk(c, u, q.store) && IdsOk(c, q)
            && Evolves(p.store, q.store)
  {
    var q := FaultPresent(p, b, true).value;
    MoveToDirty(p, q, b);
    if b in p.stashSet {
      UnstashBlockKeeps(c, u, p.store, b);
    }
  }

  lemma PresentWritePage(c: Config, u: iset<Bytes>, p: Pager, b: nat, i: nat)
    requires Sound(c, u) && PagerOk(c, u, p) && b < |p.ids| && b in p.clean && !p.readOnly && i < |p.ids|
    ensures FaultPresent(p, b, true).Some?
    ensures var q := FaultPresent(p, b, true).value; PageOk(c, u, q, i) && Logical(c, q, i) == Logical(c, p, i)
  {
    var q := FaultPresent(p, b, true).value;
    assert PageOk(c, u, p, i);
    MoveToDirty(p, q, b);
    InLists(p, i);
    if b in p.stashSet && i != b {
      UnstashedBacking(c, u, p, q, b, i);
    }
  }

  /** A write to a clean resident block makes it dirty, drops its stash file, and changes no contents. */
  lemma PresentWriteKeeps(c: Config, u: iset<Bytes>, p: Pager, b: nat) returns (q: Pager)
    requires Sound(c, u) && PagerOk(c, u, p) && b < |p.ids| && b in p.clean && !p.readOnly
    ensures FaultPresent(p, b, true) == Some(q)
    ensures PagerOk(c, u, q) && SameContents(c, p, q) && Evolves(p.store, q.store) && SameRegion(p, q)
    ensures q.present == p.present && q.ids == p.ids && Permits(q.prot[b], true) && q.stashSet <= p.stashSet
  {
    PresentWriteStore(c, u, p, b);
    q := FaultPresent(p, b, true).value;
    InLists(p, b);
    forall i | 0 <= i < |p.ids|
      ensures PageOk(c, u, q, i) && Logical(c, q, i) == Logical(c, p, i)
    {
      PresentWritePage(c, u, p, b, i);
    }
  }

  // ---------- Faults on absent blocks ----------

  /** An absent block's backing file exists, and reading it gives the block's logical contents. */
  lemma FetchGivesBacking(c: Config, u: iset<Bytes>, p: Pager, b: nat) returns (store: Storage)
    requires Sound(c, u) && PagerOk(c, u, p) && b < |p.ids| && b !in p.present
    ensures Fetch(c, p, b) == Some((store, Backing(c, p, b)))
    ensures StorageOk(c, u, store) && Evolves(p.store, store)
    ensures store == p.store.(disk := p.store.disk.(files := store.disk.files), committed := store.committed)
    ensures p.store.disk.files.Keys <= store.disk.files.Keys
    ensures IdsOk(c, p.(store := store))
  {
    assert PageOk(c, u, p, b) && IdOk(c, p.store, b, p.ids[b]);
    store := Fetch(c, p, b).value.0;
    EmptyIsNoFile(c, u, p.store.disk.files, Base);
    if b !in p.store.stashIds && p.ids[b] != EmptyBlockHash() {
      FullPathNamesTheBlock(c, u, p.store, b, p.ids[b]);
      forall i | 0 <= i < |p.ids|
        ensures IdOk(c, store, i, p.ids[i])
      {
        assert IdOk(c, p.store, i, p.ids[i]);
      }
    }
  }

  /** A session that uses more of the same stash and more files sees the same backing contents. */
  lemma SameStashSameBacking(c: Config, u: iset<Bytes>, p: Pager, q: Pager, i: nat)
    requires Sound(c, u) && StorageOk(c, u, p.store) && StorageOk(c, u, q.store) && i < |p.ids|
    requires q.ids == p.ids && IdOk(c, p.store, i, p.ids[i])
    requires q.store.stashIds == p.store.stashIds && q.store.disk.stash == p.store.disk.stash
    requires p.store.disk.files.Keys <= q.store.disk.files.Keys
    ensures Backing(c, q, i) == Backing(c, p, i)
  {
    ContentStable(c, u, p.store.disk.files, q.store.disk.files, p.ids[i]);
  }

  lemma PushKeepsLists(p: Pager, q: Pager, b: nat)
    requires ListsOk(p) && b !in p.present && |p.present| < p.budget
    requires q.budget == p.budget && q.present == p.present + {b}
    requires (q.clean == [b] + p.clean && q.dirty == p.dirty) || (q.clean == p.clean && q.dirty == [b] + p.dirty)
    ensures ListsOk(q)
  {
    assert multiset(q.present) == multiset(p.present) + multiset{b};
    assert multiset([b] + p.clean) == multiset{b} + multiset(p.clean);
    assert multiset([b] + p.dirty) == multiset{b} + multiset(p.dirty);
  }

  lemma MapInStore(c: Config, u: iset<Bytes>, p: Pager, b: nat, isWrite: bool)
    requires Sound(c, u) && PagerOk(c, u, p) && b < |p.ids| && b !in p.present && |p.present| < p.budget
    requires !(p.readOnly && isWrite)
    ensures MapIn(c, p, b, isWrite).Some?
    ensures var q := MapIn(c, p, b, isWrite).value;
            && Shape(q) && ListsOk(q) && StashOk(q) && StorageOk(c, u, q.store) && Evolves(p.store, q.store)
  {
    var store := FetchGivesBacking(c, u, p, b);
    var q := MapIn(c, p, b, isWrite).value;
    PushKeepsLists(p, q, b);
    InLists(p, b);
    if isWrite && b in store.stashIds {
      UnstashBlockKeeps(c, u, store, b);
      EvolvesTransitive(c, u, p.store, store, q.store);
    }
  }

  lemma MapInPage(c: Config, u: iset<Bytes>, p: Pager, b: nat, isWrite: bool, i: nat)
    requires Sound(c, u) && PagerOk(c, u, p) && b < |p.ids| && b !in p.present && |p.present| < p.budget
    requires !(p.readOnly && isWrite) && i < |p.ids|
    ensures MapIn(c, p, b, isWrite).Some?
    ensures var q := MapIn(c, p, b, isWrite).value;
            && PageOk(c, u, q, i) && Logical(c, q, i) == Logical(c, p, i) && IdOk(c, q.store, i, q.ids[i])
  {
    var store := FetchGivesBacking(c, u, p, b);
    var q := MapIn(c, p, b, isWrite).value;
    var m := p.(store := store);
    InLists(p, b);
    assert PageOk(c, u, p, i) && IdOk(c, p.store, i, p.ids[i]) && IdOk(c, m.store, i, p.ids[i]);
    SameStashSameBacking(c, u, p, m, i);
    BackingInUniverse(c, u, p, b);
    if isWrite && b in store.stashIds && i != b {
      UnstashedBacking(c, u, m, q, b, i);
    }
  }

  lemma MapInPages(c: Config, u: iset<Bytes>, p: Pager, b: nat, isWrite: bool)
    requires Sound(c, u) && PagerOk(c, u, p) && b < |p.ids| && b !in p.present && |p.present| < p.budget
    requires !(p.readOnly && isWrite)
    ensures MapIn(c, p, b, isWrite).Some?
    ensures var q := MapIn(c, p, b, isWrite).value;
            && |q.ids| == |p.ids| && |q.mem| == |p.ids| && |q.prot| == |p.ids|
            && PagesOk(c, u, q) && SameContents(c, p, q)
            && forall i | 0 <= i < |p.ids| :: IdOk(c, q.store, i, q.ids[i])
  {
    MapInStore(c, u, p, b, isWrite);
    var q := MapIn(c, p, b, isWrite).value;
    forall i | 0 <= i < |p.ids|
      ensures PageOk(c, u, q, i) && Logical(c, q, i) == Logical(c, p, i) && IdOk(c, q.store, i, q.ids[i])
    {
      MapInPage(c, u, p, b, isWrite, i);
    }
  }

  lemma MapInKeeps(c: Config, u: iset<Bytes>, p: Pager, b: nat, isWrite: bool) returns (q: Pager)
    requires Sound(c, u) && PagerOk(c, u, p) && b < |p.ids| && b !in p.present && |p.present| < p.budget
    requires !(p.readOnly && isWrite)
    ensures MapIn(c, p, b, isWrite) == Some(q)
    ensures PagerOk(c, u, q) && SameContents(c, p, q) && Evolves(p.store, q.store) && SameRegion(p, q)
    ensures q.present == p.present + {b} && q.ids == p.ids && Permits(q.prot[b], isWrite) && q.stashSet <= p.stashSet
  {
    MapInPages(c, u, p, b, isWrite);
    MapInStore(c, u, p, b, isWrite);
    q := MapIn(c, p, b, isWrite).value;
  }
}

/**
  The content-addressed block store as a value: two tiers of final files, the
  stash files, and the two in-memory maps of a storage object. BlockStorage
  is the class that does these steps on its fields.
 */
module Store {
  import opened Blocks

  /** What is on disk. UUIDs are fresh: they are drawn from a counter. */
  datatype Disk = Disk(files: map<FileName, Bytes>, stash: map<nat, Bytes>, nextUuid: nat)

  /** A posix_block_storage object over its directories. */
  datatype Storage = Storage(disk: Disk, stashIds: map<nat, nat>, committed: map<nat, string>)

  // ---------- Operations ----------

  /** A temporary file renamed to its hash name, or removed when that name is taken. */
  function Publish(files: map<FileName, Bytes>, f: FileName, block: Bytes): map<FileName, Bytes> {
    if f in files then files else files[f := block]
  }

  function PublishAll(c: Config, files: map<FileName, Bytes>, id: Id, block: Bytes): map<FileName, Bytes> {
    Publish(if c.multi then Publish(files, File(Upper, id), block) else files, File(Base, id), block)
  }

  /** std::map::insert: an existing entry wins. */
  function Insert(m: map<nat, string>, i: nat, s: string): map<nat, string> {
    if i in m then m else m[i := s]
  }

  /** The hash of the stash tier is shadowed in the source, so the empty string is what gets recorded. */
  function StoreBlock(c: Config, s: Storage, i: nat, block: Bytes): Storage {
    s.(disk := s.disk.(files := PublishAll(c, s.disk.files, c.hash(block), block)),
       committed := Insert(s.committed, i, ""))
  }

  function StashBlock(s: Storage, i: nat, block: Bytes): Storage {
    if i in s.stashIds then
      s.(disk := s.disk.(stash := s.disk.stash[s.stashIds[i] := block]))
    else
      var uuid := s.disk.nextUuid;
      Storage(s.disk.(stash := s.disk.stash[uuid := block], nextUuid := uuid + 1), s.stashIds[i := uuid], s.committed)
  }

  /** None: the block has no stash file. */
  function UnstashBlock(s: Storage, i: nat): Option<Storage> {
    if i !in s.stashIds then None
    else Some(s.(disk := s.disk.(stash := s.disk.stash - {s.stashIds[i]}), stashIds := s.stashIds - {i}))
  }

  /** The tier commit_stash_block and get_block_full_path look in first. */
  function Front(c: Config): Tier {
    if c.multi then Upper else Base
  }

  /**
    None: the process exits, having no stash file to commit. When the front tier
    already has the block the base tier is not looked at; otherwise the stash
    file is renamed and store_block then runs on the base tier.
   */
  function CommitStashBlock(c: Config, s: Storage, i: nat): Option<(Storage, Id)> {
    if i !in s.stashIds || s.stashIds[i] !in s.disk.stash then None
    else
      var block := s.disk.stash[s.stashIds[i]];
      var id := c.hash(block);
      var s1 := UnstashBlock(s, i).value;
      if File(Front(c), id) in s.disk.files then Some((s1, id))
      else
        var renamed := s.disk.files[File(Front(c), id) := block];
        Some((s1.(disk := s1.disk.(files := Publish(renamed, File(Base, id), block))), id))
  }

  /** get_block_full_path: in two tiers the first use of a block index copies its file up. None: the copy fails. */
  function PrepareFullPath(c: Config, s: Storage, i: nat, id: Id): Option<Storage> {
    if !c.multi || i in s.committed then Some(s)
    else if File(Upper, id) in s.disk.files then Some(s.(committed := Insert(s.committed, i, id)))
    else if File(Base, id) in s.disk.files then
      var copied := s.disk.files[File(Upper, id) := s.disk.files[File(Base, id)]];
      Some(s.(disk := s.disk.(files := copied), committed := Insert(s.committed, i, id)))
    else None
  }

  /** Open and read the file get_block_full_path names. None: no such file, the process exits. */
  function ReadBlock(c: Config, s: Storage, i: nat, id: Id): Option<(Storage, Bytes)> {
    var s1 := PrepareFullPath(c, s, i, id);
    if s1.None? || File(Front(c), id) !in s1.value.disk.files then None
    else Some((s1.value, s1.value.disk.files[File(Front(c), id)]))
  }

  /** Open and read a block's stash file. None: no such file, the process exits. */
  function ReadStash(s: Storage, i: nat): Option<(Storage, Bytes)> {
    if i in s.stashIds && s.stashIds[i] in s.disk.stash then Some((s, s.disk.stash[s.stashIds[i]])) else None
  }

  // ---------- Invariant ----------

  /** Two-tier coherence: every file is well named, and the stash tier only caches the base tier. */
  ghost predicate FilesOk(c: Config, u: iset<Bytes>, files: map<FileName, Bytes>) {
    && Named(c, u, files)
    && forall id | File(Upper, id) in files :: File(Base, id) in files
  }

  ghost predicate DiskOk(c: Config, u: iset<Bytes>, d: Disk) {
    && FilesOk(c, u, d.files)
    && forall q | q in d.stash :: d.stash[q] in u && q < d.nextUuid
  }

  ghost predicate StashIdsOk(s: Storage) {
    && (forall i | i in s.stashIds :: s.stashIds[i] in s.disk.stash)
    && (forall i, j :: !ShareFile(s.stashIds, i, j))
  }

  ghost predicate ShareFile(stashIds: map<nat, nat>, i: nat, j: nat) {
    i != j && i in stashIds && j in stashIds && stashIds[i] == stashIds[j]
  }

  lemma FilesNotShared(s: Storage)
    requires StashIdsOk(s)
    ensures forall i, j | i in s.stashIds && j in s.stashIds && s.stashIds[i] == s.stashIds[j] :: i == j
  {
    forall i, j | i in s.stashIds && j in s.stashIds && s.stashIds[i] == s.stashIds[j]
      ensures i == j
    {
      assert !ShareFile(s.stashIds, i, j);
    }
  }

  ghost predicate StorageOk(c: Config, u: iset<Bytes>, s: Storage) {
    DiskOk(c, u, s.disk) && StashIdsOk(s)
  }

  /** The contents an id stands for. */
  function Content(c: Config, files: map<FileName, Bytes>, id: Id): Bytes {
    if File(Base, id) in files then files[File(Base, id)] else Zeros(c.blockSize)
  }

  /**
    What a storage object may do to the disk it shares: add final files, and
    touch stash files that are its own or new.
   */
  ghost predicate Evolves(s: Storage, t: Storage) {
    && s.disk.files.Keys <= t.disk.files.Keys
    && s.disk.nextUuid <= t.disk.nextUuid
    && (forall q | q in s.disk.stash && q !in s.stashIds.Values ::
          q in t.disk.stash && t.disk.stash[q] == s.disk.stash[q])
    && (forall i | i in t.stashIds :: t.stashIds[i] >= s.disk.nextUuid || t.stashIds[i] in s.stashIds.Values)
  }

  lemma EvolvesTransitive(c: Config, u: iset<Bytes>, r: Storage, s: Storage, t: Storage)
    requires DiskOk(c, u, r.disk) && Evolves(r, s) && Evolves(s, t)
    ensures Evolves(r, t)
  {
    forall q | q in r.disk.stash && q !in r.stashIds.Values
      ensures q !in s.stashIds.Values
    {
    }
  }

  /** `files'` has exactly the files of `files` and, in every tier in use, files for `hashes`. */
  ghost predicate Adds(c: Config, files: map<FileName, Bytes>, files': map<FileName, Bytes>, hashes: iset<Id>) {
    forall f :: f in files' <==> f in files || ((c.multi || f.tier.Base?) && f.id in hashes)
  }

  // ---------- What each operation keeps and does ----------

  lemma PublishKeeps(c: Config, u: iset<Bytes>, files: map<FileName, Bytes>, tier: Tier, block: Bytes)
    requires Sound(c, u) && Named(c, u, files) && block in u
    ensures var f := File(tier, c.hash(block));
            && Named(c, u, Publish(files, f, block))
            && Publish(files, f, block).Keys == files.Keys + {f}
            && Publish(files, f, block)[f] == block
  {
    var f := File(tier, c.hash(block));
    if f in files {
      assert SameHash(c, files[f], block);
    }
  }

  lemma PublishAllKeeps(c: Config, u: iset<Bytes>, files: map<FileName, Bytes>, block: Bytes)
    requires Sound(c, u) && FilesOk(c, u, files) && block in u
    ensures var files' := PublishAll(c, files, c.hash(block), block);
            && FilesOk(c, u, files') && files.Keys <= files'.Keys
            && Adds(c, files, files', iset{c.hash(block)})
            && files'[File(Base, c.hash(block))] == block
  {
    var files1 := if c.multi then Publish(files, File(Upper, c.hash(block)), block) else files;
    PublishKeeps(c, u, files, Upper, block);
    PublishKeeps(c, u, files1, Base, block);
    forall f
      ensures f in PublishAll(c, files, c.hash(block), block)
              <==> f in files || ((c.multi || f.tier.Base?) && f.id in iset{c.hash(block)})
    {
      assert f == File(f.tier, f.id) && (f.tier == Base || f.tier == Upper);
    }
  }

  lemma StoreBlockKeeps(c: Config, u: iset<Bytes>, s: Storage, i: nat, block: Bytes)
    requires Sound(c, u) && StorageOk(c, u, s) && block in u
    ensures var t := StoreBlock(c, s, i, block);
            && StorageOk(c, u, t) && Evolves(s, t)
            && Adds(c, s.disk.files, t.disk.files, iset{c.hash(block)})
  {
    PublishAllKeeps(c, u, s.disk.files, block);
  }

  lemma StashBlockKeeps(c: Config, u: iset<Bytes>, s: Storage, i: nat, block: Bytes)
    requires StorageOk(c, u, s) && block in u
    ensures var t := StashBlock(s, i, block);
            && StorageOk(c, u, t) && Evolves(s, t)
            && t.stashIds.Keys == s.stashIds.Keys + {i}
            && t.disk.stash[t.stashIds[i]] == block
            && (forall j | j in s.stashIds && j != i ::
                  t.stashIds[j] == s.stashIds[j] && t.disk.stash[t.stashIds[j]] == s.disk.stash[s.stashIds[j]])
            && (if i in s.stashIds then t.stashIds == s.stashIds && t.disk.stash.Keys == s.disk.stash.Keys
                else t.stashIds[i] !in s.disk.stash && t.disk.stash.Keys == s.disk.stash.Keys + {t.stashIds[i]})
            && t.disk.files == s.disk.files && t.committed == s.committed
  {
    FilesNotShared(s);
  }

  lemma UnstashBlockKeeps(c: Config, u: iset<Bytes>, s: Storage, i: nat)
    requires StorageOk(c, u, s) && i in s.stashIds
    ensures var t := UnstashBlock(s, i).value;
            && StorageOk(c, u, t) && Evolves(s, t)
            && forall j | j in t.stashIds :: t.disk.stash[t.stashIds[j]] == s.disk.stash[s.stashIds[j]]
  {
    FilesNotShared(s);
    assert s.stashIds[i] in s.stashIds.Values;
  }

  /** Both branches of commit_stash_block come to unstashing the block and storing it. */
  lemma CommitIsUnstashThenStore(c: Config, u: iset<Bytes>, s: Storage, i: nat)
    requires Sound(c, u) && StorageOk(c, u, s) && i in s.stashIds
    ensures CommitStashBlock(c, s, i).Some?
    ensures var block := s.disk.stash[s.stashIds[i]];
            CommitStashBlock(c, s, i).value
            == (StoreBlock(c, UnstashBlock(s, i).value, i, block).(committed := s.committed), c.hash(block))
  {
  }

  lemma CommitKeeps(c: Config, u: iset<Bytes>, s: Storage, i: nat)
    requires Sound(c, u) && StorageOk(c, u, s) && i in s.stashIds
    ensures CommitStashBlock(c, s, i).Some?
    ensures var (t, id) := CommitStashBlock(c, s, i).value;
            && StorageOk(c, u, t) && Evolves(s, t)
            && id == c.hash(s.disk.stash[s.stashIds[i]])
            && Adds(c, s.disk.files, t.disk.files, iset{id})
            && t.stashIds == s.stashIds - {i} && t.committed == s.committed
            && forall j | j in t.stashIds :: t.disk.stash[t.stashIds[j]] == s.disk.stash[s.stashIds[j]]
  {
    var block := s.disk.stash[s.stashIds[i]];
    var m := UnstashBlock(s, i).value;
    CommitIsUnstashThenStore(c, u, s, i);
    UnstashBlockKeeps(c, u, s, i);
    StoreBlockKeeps(c, u, m, i, block);
    EvolvesTransitive(c, u, s, m, StoreBlock(c, m, i, block));
  }

  /** What get_block_full_path leaves: at most one new file, in the stash tier, and the recorded hash of a first use. */
  lemma FullPathFrame(c: Config, s: Storage, i: nat, id: Id)
    requires ReadBlock(c, s, i, id).Some?
    ensures var t := ReadBlock(c, s, i, id).value.0;
            && t == s.(disk := t.disk, committed := t.committed) && t.disk == s.disk.(files := t.disk.files)
            && t.disk.files.Keys == s.disk.files.Keys + (if c.multi && i !in s.committed then {File(Upper, id)} else {})
            && t.committed == (if c.multi && i !in s.committed then s.committed[i := id] else s.committed)
  {
  }

  /** In every coherent state get_block_full_path names an existing file with the right contents. */
  lemma FullPathNamesTheBlock(c: Config, u: iset<Bytes>, s: Storage, i: nat, id: Id)
    requires Sound(c, u) && StorageOk(c, u, s) && File(Base, id) in s.disk.files
    requires c.multi && i in s.committed ==> File(Upper, id) in s.disk.files
    ensures ReadBlock(c, s, i, id).Some?
    ensures var (t, block) := ReadBlock(c, s, i, id).value;
            && block == s.disk.files[File(Base, id)]
            && StorageOk(c, u, t) && Evolves(s, t)
            && (c.multi ==> File(Upper, id) in t.disk.files)
  {
    NameFixesContents(c, u, s.disk.files, s.disk.files);
    assert s.disk.files[File(Base, id)] in u;
  }

  /**
    Stashing a block and committing it is storing it: same id, same files in both
    tiers, and no stash file of the block left behind, whether or not it had one
    and whether or not the hash was already there.
   */
  lemma StashCommitIsStore(c: Config, u: iset<Bytes>, s: Storage, i: nat, block: Bytes)
    requires Sound(c, u) && StorageOk(c, u, s) && block in u
    ensures CommitStashBlock(c, StashBlock(s, i, block), i).Some?
    ensures var (t, id) := CommitStashBlock(c, StashBlock(s, i, block), i).value;
            && id == c.hash(block)
            && t.disk.files == StoreBlock(c, s, i, block).disk.files
            && t.stashIds == s.stashIds - {i}
            && t.disk.stash == s.disk.stash - (if i in s.stashIds then {s.stashIds[i]} else {})
  {
    StashBlockKeeps(c, u, s, i, block);
    CommitIsUnstashThenStore(c, u, StashBlock(s, i, block), i);
    StashThenUnstash(c, u, s, i, block);
  }

  lemma StashThenUnstash(c: Config, u: iset<Bytes>, s: Storage, i: nat, block: Bytes)
    requires DiskOk(c, u, s.disk)
    ensures UnstashBlock(StashBlock(s, i, block), i).Some?
    ensures var t := UnstashBlock(StashBlock(s, i, block), i).value;
            && t.disk.files == s.disk.files && t.stashIds == s.stashIds - {i}
            && t.disk.stash == s.disk.stash - (if i in s.stashIds then {s.stashIds[i]} else {})
  {
    if i !in s.stashIds {
      assert s.disk.nextUuid !in s.disk.stash;
    }
  }

  // ---------- Many operations, in any order ----------

  ghost predicate InRange(order: seq<nat>, n: nat) {
    forall k | 0 <= k < |order| :: order[k] < n
  }

  ghost predicate NoDuplicates(order: seq<nat>) {
    forall j, k | 0 <= j < k < |order| :: order[j] != order[k]
  }

  ghost predicate AllStashed(s: Storage, order: seq<nat>) {
    forall k | 0 <= k < |order| :: order[k] in s.stashIds
  }

  ghost predicate AllBlocks(u: iset<Bytes>, mem: seq<Bytes>) {
    forall i | 0 <= i < |mem| :: mem[i] in u
  }

  /** The first n store tasks of a flush, one after the other: task k stores the contents of block order[k]. */
  ghost function StoreAll(c: Config, s: Storage, mem: seq<Bytes>, order: seq<nat>, n: nat): Storage
    requires InRange(order, |mem|) && n <= |order|
  {
    if n == 0 then s
    else StoreBlock(c, StoreAll(c, s, mem, order, n - 1), order[n - 1], mem[order[n - 1]])
  }

  /** The first n commit tasks of a flush. None: a block has no stash file. */
  ghost function CommitAll(c: Config, s: Storage, order: seq<nat>, n: nat): Option<Storage>
    requires n <= |order|
  {
    if n == 0 then Some(s) else CommitNext(c, CommitAll(c, s, order, n - 1), order[n - 1])
  }

  ghost function CommitNext(c: Config, r: Option<Storage>, i: nat): Option<Storage> {
    if r.None? then None
    else
      var t := CommitStashBlock(c, r.value, i);
      if t.None? then None else Some(t.value.0)
  }

  ghost function Elements(order: seq<nat>, n: nat): set<nat>
    requires n <= |order|
  {
    if n == 0 then {} else Elements(order, n - 1) + {order[n - 1]}
  }

  /** The hashes of the first n blocks a flush stores. */
  ghost function Hashes(c: Config, mem: seq<Bytes>, order: seq<nat>, n: nat): iset<Id>
    requires InRange(order, |mem|) && n <= |order|
  {
    if n == 0 then iset{} else Hashes(c, mem, order, n - 1) + iset{c.hash(mem[order[n - 1]])}
  }

  /** The hashes of the first n blocks a flush commits. */
  ghost function StashHashes(c: Config, s: Storage, order: seq<nat>, n: nat): iset<Id>
    requires StashIdsOk(s) && AllStashed(s, order) && n <= |order|
  {
    if n == 0 then iset{}
    else StashHashes(c, s, order, n - 1) + iset{c.hash(s.disk.stash[s.stashIds[order[n - 1]]])}
  }

  lemma AddsMore(c: Config, f: map<FileName, Bytes>, g: map<FileName, Bytes>, h: map<FileName, Bytes>,
                 hashes: iset<Id>, id: Id)
    requires Adds(c, f, g, hashes) && Adds(c, g, h, iset{id})
    ensures Adds(c, f, h, hashes + iset{id})
  {
  }

  lemma {:induction false} StoreAllKeeps(c: Config, u: iset<Bytes>, s: Storage, mem: seq<Bytes>, order: seq<nat>,
                                         n: nat)
    requires Sound(c, u) && StorageOk(c, u, s) && InRange(order, |mem|) && AllBlocks(u, mem) && n <= |order|
    ensures StorageOk(c, u, StoreAll(c, s, mem, order, n))
    ensures Evolves(s, StoreAll(c, s, mem, order, n))
  {
    if n > 0 {
      StoreAllKeeps(c, u, s, mem, order, n - 1);
      var r := StoreAll(c, s, mem, order, n - 1);
      StoreBlockKeeps(c, u, r, order[n - 1], mem[order[n - 1]]);
      EvolvesTransitive(c, u, s, r, StoreAll(c, s, mem, order, n));
    }
  }

  /** Exact deduplication: storing adds precisely the hashes of the blocks stored. */
  lemma {:induction false} StoreAllAdds(c: Config, u: iset<Bytes>, s: Storage, mem: seq<Bytes>, order: seq<nat>, n: nat)
    requires Sound(c, u) && StorageOk(c, u, s) && InRange(order, |mem|) && AllBlocks(u, mem) && n <= |order|
    ensures Adds(c, s.disk.files, StoreAll(c, s, mem, order, n).disk.files, Hashes(c, mem, order, n))
  {
    if n > 0 {
      StoreAllAdds(c, u, s, mem, order, n - 1);
      StoreAllKeeps(c, u, s, mem, order, n - 1);
      StoreOneMore(c, u, s.disk.files, StoreAll(c, s, mem, order, n - 1), order[n - 1], mem[order[n - 1]],
                   Hashes(c, mem, order, n - 1));
    }
  }

  lemma StoreOneMore(c: Config, u: iset<Bytes>, files: map<FileName, Bytes>, s: Storage, i: nat, block: Bytes,
                     hashes: iset<Id>)
    requires Sound(c, u) && StorageOk(c, u, s) && block in u && Adds(c, files, s.disk.files, hashes)
    ensures Adds(c, files, StoreBlock(c, s, i, block).disk.files, hashes + iset{c.hash(block)})
  {
    StoreBlockKeeps(c, u, s, i, block);
    AddsMore(c, files, s.disk.files, StoreBlock(c, s, i, block).disk.files, hashes, c.hash(block));
  }

  lemma {:induction false} StoreAllFrame(c: Config, s: Storage, mem: seq<Bytes>, order: seq<nat>, n: nat)
    requires InRange(order, |mem|) && n <= |order|
    ensures var t := StoreAll(c, s, mem, order, n);
            && t == s.(disk := s.disk.(files := t.disk.files), committed := t.committed)
            && t.committed.Keys == s.committed.Keys + Elements(order, n)
  {
    if n > 0 {
      StoreAllFrame(c, s, mem, order, n - 1);
    }
  }

  /** Committing the first n blocks consumes their stash files and leaves every other stashed block as it was. */
  ghost predicate StashedAfter(s: Storage, t: Storage, order: seq<nat>, n: nat)
    requires StashIdsOk(s) && StashIdsOk(t) && n <= |order|
  {
    && t.committed == s.committed
    && (forall i | i in t.stashIds :: i in s.stashIds && t.disk.stash[t.stashIds[i]] == s.disk.stash[s.stashIds[i]])
    && t.stashIds.Keys == s.stashIds.Keys - Elements(order, n)
  }

  /** What holds of the state t the first n commits come to. */
  ghost predicate Committed(c: Config, u: iset<Bytes>, s: Storage, order: seq<nat>, n: nat, t: Storage)
    requires StashIdsOk(s) && AllStashed(s, order) && n <= |order|
  {
    && StorageOk(c, u, t) && Evolves(s, t) && StashedAfter(s, t, order, n)
    && Adds(c, s.disk.files, t.disk.files, StashHashes(c, s, order, n))
  }

  lemma OneFewerStashed(s: Storage, r: Storage, t: Storage, order: seq<nat>, n: nat)
    requires StashIdsOk(s) && StashIdsOk(r) && StashIdsOk(t) && n < |order| && StashedAfter(s, r, order, n)
    requires t.stashIds == r.stashIds - {order[n]} && t.committed == r.committed
    requires forall j | j in t.stashIds :: t.disk.stash[t.stashIds[j]] == r.disk.stash[r.stashIds[j]]
    ensures StashedAfter(s, t, order, n + 1)
  {
  }

  lemma CommitOneMore(c: Config, u: iset<Bytes>, s: Storage, r: Storage, order: seq<nat>, n: nat) returns (t: Storage)
    requires Sound(c, u) && StorageOk(c, u, s) && NoDuplicates(order) && AllStashed(s, order) && n < |order|
    requires Committed(c, u, s, order, n, r)
    ensures CommitNext(c, Some(r), order[n]) == Some(t)
    ensures Committed(c, u, s, order, n + 1, t)
  {
    StillStashed(s, r, order, n);
    CommitKeeps(c, u, r, order[n]);
    t := CommitStashBlock(c, r, order[n]).value.0;
    OneFewerStashed(s, r, t, order, n);
    EvolvesTransitive(c, u, s, r, t);
    var id := c.hash(s.disk.stash[s.stashIds[order[n]]]);
    AddsMore(c, s.disk.files, r.disk.files, t.disk.files, StashHashes(c, s, order, n), id);
  }

  /** The commit of block order[k] takes P at k to P at k + 1. */
  ghost predicate Carries(c: Config, order: seq<nat>, P: (Storage, nat) -> bool, r: Storage, k: nat)
    requires k < |order|
  {
    P(r, k) ==> CommitNext(c, Some(r), order[k]).Some? && P(CommitNext(c, Some(r), order[k]).value, k + 1)
  }

  /** A property that holds at the start and that each commit carries over holds at the end. */
  lemma {:induction false} CommitInduction(c: Config, s: Storage, order: seq<nat>, n: nat, P: (Storage, nat) -> bool)
    requires n <= |order| && P(s, 0)
    requires forall r: Storage, k: nat | k < n :: Carries(c, order, P, r, k)
    ensures CommitAll(c, s, order, n).Some? && P(CommitAll(c, s, order, n).value, n)
  {
    if n > 0 {
      CommitInduction(c, s, order, n - 1, P);
      assert Carries(c, order, P, CommitAll(c, s, order, n - 1).value, n - 1);
    }
  }

  lemma CommitCarries(c: Config, u: iset<Bytes>, s: Storage, order: seq<nat>, P: (Storage, nat) -> bool, r: Storage,
                      k: nat)
    requires Sound(c, u) && StorageOk(c, u, s) && NoDuplicates(order) && AllStashed(s, order) && k < |order|
    requires forall t: Storage, n: nat :: P(t, n) <==> n <= |order| && Committed(c, u, s, order, n, t)
    ensures Carries(c, order, P, r, k)
  {
    if P(r, k) {
      var t := CommitOneMore(c, u, s, r, order, k);
    }
  }

  lemma CommitAllCommits(c: Config, u: iset<Bytes>, s: Storage, order: seq<nat>, n: nat)
    requires Sound(c, u) && StorageOk(c, u, s) && NoDuplicates(order) && AllStashed(s, order) && n <= |order|
    ensures CommitAll(c, s, order, n).Some? && Committed(c, u, s, order, n, CommitAll(c, s, order, n).value)
  {
    var P := (t: Storage, k: nat) => k <= |order| && Committed(c, u, s, order, k, t);
    forall r: Storage, k: nat | k < n
      ensures Carries(c, order, P, r, k)
    {
      CommitCarries(c, u, s, order, P, r, k);
    }
    CommitInduction(c, s, order, n, P);
  }

  lemma CommitAllKeeps(c: Config, u: iset<Bytes>, s: Storage, order: seq<nat>, n: nat) returns (t: Storage)
    requires Sound(c, u) && StorageOk(c, u, s) && NoDuplicates(order) && AllStashed(s, order) && n <= |order|
    ensures CommitAll(c, s, order, n) == Some(t)
    ensures StorageOk(c, u, t) && Evolves(s, t)
    ensures StashedAfter(s, t, order, n)
    ensures Adds(c, s.disk.files, t.disk.files, StashHashes(c, s, order, n))
  {
    CommitAllCommits(c, u, s, order, n);
    t := CommitAll(c, s, order, n).value;
  }

  /** The id commit_stash_block returns: the hash of the stash file's contents. */
  ghost function StashedId(c: Config, s: Storage, i: nat): Id {
    if i in s.stashIds && s.stashIds[i] in s.disk.stash then c.hash(s.disk.stash[s.stashIds[i]]) else EmptyBlockHash()
  }

  ghost function NextIds(c: Config, before: Option<Storage>, ids: seq<Id>, i: nat): (r: seq<Id>)
    requires i < |ids|
    ensures |r| == |ids|
  {
    if before.None? then ids else ids[i := StashedId(c, before.value, i)]
  }

  /** The block ids as the commit tasks update them. */
  ghost function CommitIds(c: Config, s: Storage, ids: seq<Id>, order: seq<nat>, n: nat): (r: seq<Id>)
    requires InRange(order, |ids|) && n <= |order|
    ensures |r| == |ids|
  {
    if n == 0 then ids
    else
      NextIds(c, CommitAll(c, s, order, n - 1), CommitIds(c, s, ids, order, n - 1), order[n - 1])
  }

  lemma {:induction false} SamePrefixCommits(c: Config, s: Storage, order: seq<nat>, rest: seq<nat>, n: nat)
    requires n <= |order|
    ensures CommitAll(c, s, order + rest, n) == CommitAll(c, s, order, n)
  {
    if n > 0 {
      SamePrefixCommits(c, s, order, rest, n - 1);
    }
  }

  lemma {:induction false} SamePrefixIds(c: Config, s: Storage, ids: seq<Id>, order: seq<nat>, i: nat, n: nat)
    requires InRange(order, |ids|) && InRange(order + [i], |ids|) && n <= |order|
    ensures CommitIds(c, s, ids, order + [i], n) == CommitIds(c, s, ids, order, n)
  {
    if n > 0 {
      SamePrefixIds(c, s, ids, order, i, n - 1);
      SamePrefixCommits(c, s, order, [i], n - 1);
      assert (order + [i])[n - 1] == order[n - 1];
    }
  }

  /** One more commit after those of an order. */
  lemma OneMoreCommit(c: Config, s: Storage, ids: seq<Id>, order: seq<nat>, i: nat)
    requires InRange(order, |ids|) && i < |ids|
    ensures InRange(order + [i], |ids|)
    ensures CommitAll(c, s, order + [i], |order| + 1) == CommitNext(c, CommitAll(c, s, order, |order|), i)
    ensures CommitAll(c, s, order, |order|).Some? ==>
              CommitIds(c, s, ids, order + [i], |order| + 1)
              == CommitIds(c, s, ids, order, |order|)[i := StashedId(c, CommitAll(c, s, order, |order|).value, i)]
  {
    SamePrefixCommits(c, s, order, [i], |order|);
    SamePrefixIds(c, s, ids, order, i, |order|);
  }

  /** When the n-th commit runs, its block still has the stash file it had at the start. */
  ghost predicate Undisturbed(c: Config, s: Storage, order: seq<nat>, n: nat)
    requires n < |order|
  {
    var r := CommitAll(c, s, order, n);
    r.Some? && StashedId(c, r.value, order[n]) == StashedId(c, s, order[n])
  }

  lemma {:induction false} CommitIdsWhenUndisturbed(c: Config, s: Storage, ids: seq<Id>, order: seq<nat>, n: nat,
                                                    i: nat)
    requires InRange(order, |ids|) && n <= |order| && i < |ids|
    requires forall k: nat | k < n :: Undisturbed(c, s, order, k)
    ensures CommitIds(c, s, ids, order, n)[i] == if i in Elements(order, n) then StashedId(c, s, i) else ids[i]
  {
    if n > 0 {
      CommitIdsWhenUndisturbed(c, s, ids, order, n - 1, i);
      assert Undisturbed(c, s, order, n - 1);
    }
  }

  /** Each committed block gets the id of the contents it was stashed with, whenever its task ran. */
  lemma CommitIdsAre(c: Config, u: iset<Bytes>, s: Storage, ids: seq<Id>, order: seq<nat>, n: nat, i: nat)
    requires Sound(c, u) && StorageOk(c, u, s) && NoDuplicates(order) && AllStashed(s, order) && n <= |order|
    requires InRange(order, |ids|) && i < |ids|
    ensures CommitIds(c, s, ids, order, n)[i] == if i in Elements(order, n) then StashedId(c, s, i) else ids[i]
  {
    forall k: nat | k < n
      ensures Undisturbed(c, s, order, k)
    {
      NthIdIs(c, u, s, order, k);
    }
    CommitIdsWhenUndisturbed(c, s, ids, order, n, i);
  }

  lemma NthIdIs(c: Config, u: iset<Bytes>, s: Storage, order: seq<nat>, n: nat)
    requires Sound(c, u) && StorageOk(c, u, s) && NoDuplicates(order) && AllStashed(s, order) && n < |order|
    ensures Undisturbed(c, s, order, n)
  {
    var r := CommitAllKeeps(c, u, s, order, n);
    StillStashed(s, r, order, n);
  }

  lemma StillStashed(s: Storage, r: Storage, order: seq<nat>, n: nat)
    requires StashIdsOk(s) && StashIdsOk(r) && NoDuplicates(order) && AllStashed(s, order) && n < |order|
    requires StashedAfter(s, r, order, n)
    ensures order[n] in r.stashIds
  {
    NotAmongEarlier(order, n, n);
    assert order[n] in s.stashIds.Keys - Elements(order, n);
  }

  lemma {:induction false} NotAmongEarlier(order: seq<nat>, k: nat, n: nat)
    requires NoDuplicates(order) && n <= k < |order|
    ensures order[k] !in Elements(order, n)
  {
    if n > 0 {
      NotAmongEarlier(order, k, n - 1);
    }
  }

  lemma {:induction false} ElementsAre(order: seq<nat>, n: nat)
    requires n <= |order|
    ensures forall i :: i in Elements(order, n) <==> exists k :: 0 <= k < n && order[k] == i
  {
    if n > 0 {
      ElementsAre(order, n - 1);
    }
  }

  lemma {:induction false} HashesAre(c: Config, mem: seq<Bytes>, order: seq<nat>, n: nat, id: Id)
    requires InRange(order, |mem|) && n <= |order|
    ensures id in Hashes(c, mem, order, n) <==> exists k :: 0 <= k < n && id == c.hash(mem[order[k]])
  {
    if n > 0 {
      HashesAre(c, mem, order, n - 1, id);
    }
  }

  lemma {:induction false} StashHashesAre(c: Config, s: Storage, order: seq<nat>, n: nat, id: Id)
    requires StashIdsOk(s) && AllStashed(s, order) && n <= |order|
    ensures id in StashHashes(c, s, order, n) <==> exists k :: 0 <= k < n && id == StashedId(c, s, order[k])
  {
    if n > 0 {
      StashHashesAre(c, s, order, n - 1, id);
    }
  }

  /** The stash files of the first n blocks. */
  ghost function StashFiles(s: Storage, order: seq<nat>, n: nat): set<nat>
    requires n <= |order|
  {
    if n == 0 then {}
    else StashFiles(s, order, n - 1) + (if order[n - 1] in s.stashIds then {s.stashIds[order[n - 1]]} else {})
  }

  /** Committing consumes exactly the stash files of the blocks committed. */
  lemma {:induction false} CommitAllConsumes(c: Config, s: Storage, order: seq<nat>, n: nat)
    requires n <= |order| && CommitAll(c, s, order, n).Some?
    ensures var t := CommitAll(c, s, order, n).value;
            && t.stashIds == s.stashIds - Elements(order, n)
            && t.disk.stash == s.disk.stash - StashFiles(s, order, n)
            && t.disk.nextUuid == s.disk.nextUuid && t.committed == s.committed
  {
    if n > 0 {
      CommitAllConsumes(c, s, order, n - 1);
      CommitConsumes(c, CommitAll(c, s, order, n - 1).value, order[n - 1]);
    }
  }

  lemma CommitConsumes(c: Config, s: Storage, i: nat)
    requires CommitStashBlock(c, s, i).Some?
    ensures var t := CommitStashBlock(c, s, i).value.0;
            && i in s.stashIds && t.stashIds == s.stashIds - {i} && t.disk.stash == s.disk.stash - {s.stashIds[i]}
            && t.disk.nextUuid == s.disk.nextUuid && t.committed == s.committed
  {
  }

  lemma {:induction false} StashFilesAre(s: Storage, order: seq<nat>, n: nat, q: nat)
    requires n <= |order|
    ensures q in StashFiles(s, order, n)
            <==> exists i :: i in Elements(order, n) && i in s.stashIds && q == s.stashIds[i]
  {
    if n > 0 {
      StashFilesAre(s, order, n - 1, q);
    }
  }

  /** What the store tasks record, in any order: old records stay, new ones are empty strings. */
  lemma {:induction false} StoreAllRecords(c: Config, s: Storage, mem: seq<Bytes>, order: seq<nat>, n: nat)
    requires InRange(order, |mem|) && n <= |order|
    ensures var t := StoreAll(c, s, mem, order, n);
            forall i | i in t.committed :: t.committed[i] == if i in s.committed then s.committed[i] else ""
  {
    if n > 0 {
      StoreAllRecords(c, s, mem, order, n - 1);
      StoreAllFrame(c, s, mem, order, n - 1);
    }
  }
}

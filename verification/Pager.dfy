/**
  The demand pager as a value: which blocks are resident, in which list, with
  which protection and contents, on top of the block store. Blocks are named by
  their index in the region. RegionObject.Region is the class that does these
  steps on its fields.
 */
module Pager {
  import opened Blocks
  import opened Metadata
  import opened Store

  /** Page protections. On x86 PROT_WRITE alone also lets the page be read. */
  datatype Prot = ProtNone | ProtRead | ProtWrite | ProtReadWrite

  predicate Permits(prot: Prot, isWrite: bool) {
    if isWrite then prot == ProtWrite || prot == ProtReadWrite else prot != ProtNone
  }

  /** `budget` is the number of blocks that may be resident, `mem` the anonymous memory behind the region. */
  datatype Pager = Pager(
    budget: nat,
    readOnly: bool,
    ids: seq<Id>,
    clean: seq<nat>,
    dirty: seq<nat>,
    stashSet: set<nat>,
    present: set<nat>,
    prot: seq<Prot>,
    mem: seq<Bytes>,
    store: Storage)

  /** The arrays have one entry a block, and every address held lies in the region. */
  ghost predicate Shape(p: Pager) {
    && |p.prot| == |p.ids| && |p.mem| == |p.ids|
    && InRange(p.clean, |p.ids|) && InRange(p.dirty, |p.ids|)
    && (forall i | i in p.present :: i < |p.ids|)
    && (forall i | i in p.stashSet :: i < |p.ids|)
  }

  // ---------- Eviction ----------

  /** mprotect to PROT_NONE, then madvise(MADV_DONTNEED): the page reads as zeros when it is next mapped. */
  function Unmap(c: Config, p: Pager, victim: nat): Pager
    requires victim < |p.prot| && victim < |p.mem|
  {
    p.(prot := p.prot[victim := ProtNone], mem := p.mem[victim := Zeros(c.blockSize)], present := p.present - {victim})
  }

  /** A clean block goes first, a dirty one is stashed. None: there is no block to evict. */
  ghost function Evict(c: Config, p: Pager): Option<Pager>
    requires Shape(p)
  {
    if |p.present| < p.budget then Some(p)
    else if |p.clean| > 0 then
      var victim := p.clean[|p.clean| - 1];
      Some(Unmap(c, p.(clean := p.clean[..|p.clean| - 1]), victim))
    else if |p.dirty| > 0 then
      var victim := p.dirty[|p.dirty| - 1];
      Some(Unmap(c, p.(dirty := p.dirty[..|p.dirty| - 1], stashSet := p.stashSet + {victim},
                       store := StashBlock(p.store, victim, p.mem[victim])), victim))
    else None
  }

  // ---------- Faults ----------

  /** std::list::remove: every occurrence goes. */
  function Remove(s: seq<nat>, x: nat): seq<nat> {
    if s == [] then [] else (if s[0] == x then [] else [s[0]]) + Remove(s[1..], x)
  }

  /** A fault on a resident block. It grants both accesses even to a read fault. None: the block cannot be unstashed. */
  function FaultPresent(p: Pager, b: nat, isWrite: bool): Option<Pager>
    requires b < |p.prot|
  {
    var granted := p.(prot := p.prot[b := ProtReadWrite]);
    if !isWrite then Some(granted)
    else
      var moved := granted.(clean := Remove(p.clean, b), dirty := [b] + p.dirty);
      if b !in p.stashSet then Some(moved)
      else
        var store := UnstashBlock(p.store, b);
        if store.None? then None else Some(moved.(store := store.value, stashSet := p.stashSet - {b}))
  }

  /** The backing contents of an absent block: stash file, else store file, else the untouched zero page. */
  function Fetch(c: Config, p: Pager, b: nat): Option<(Storage, Bytes)>
    requires b < |p.ids| && b < |p.mem|
  {
    if b in p.store.stashIds then ReadStash(p.store, b)
    else if p.ids[b] != EmptyBlockHash() then ReadBlock(c, p.store, b, p.ids[b])
    else Some((p.store, p.mem[b]))
  }

  /** Bring an absent block in. None: its backing file cannot be read. */
  function MapIn(c: Config, p: Pager, b: nat, isWrite: bool): Option<Pager>
    requires b < |p.ids| && b < |p.mem| && b < |p.prot|
  {
    var fetched := Fetch(c, p, b);
    if fetched.None? then None
    else
      var (store, content) := fetched.value;
      var q := p.(prot := p.prot[b := if isWrite then ProtWrite else ProtRead],
                  mem := p.mem[b := content],
                  present := p.present + {b});
      if !isWrite then Some(q.(store := store, clean := [b] + p.clean))
      else if b in store.stashIds then
        Some(q.(store := UnstashBlock(store, b).value, stashSet := p.stashSet - {b}, dirty := [b] + p.dirty))
      else Some(q.(store := store, dirty := [b] + p.dirty))
  }

  /** The SIGSEGV handler. None: the process exits, as it does on a write to a read-only region. */
  ghost function HandleFault(c: Config, p: Pager, b: nat, isWrite: bool): Option<Pager>
    requires Shape(p) && b < |p.ids|
  {
    if p.readOnly && isWrite then None
    else if b in p.present then FaultPresent(p, b, isWrite)
    else
      var evicted := Evict(c, p);
      if evicted.None? then None else MapIn(c, evicted.value, b, isWrite)
  }

  // ---------- User accesses ----------

  /** An access faults when the protection forbids it, and is then retried. */
  ghost function AccessBlock(c: Config, p: Pager, b: nat, isWrite: bool): Option<Pager>
    requires Shape(p) && b < |p.ids|
  {
    if Permits(p.prot[b], isWrite) then Some(p) else HandleFault(c, p, b, isWrite)
  }

  // ---------- Logical contents ----------

  /** What a block's contents are when it is not in memory. */
  function Backing(c: Config, p: Pager, i: nat): Bytes
    requires i < |p.ids|
  {
    if i in p.store.stashIds && p.store.stashIds[i] in p.store.disk.stash then p.store.disk.stash[p.store.stashIds[i]]
    else Content(c, p.store.disk.files, p.ids[i])
  }

  /** The contents the user sees: memory if resident, else stash file, else store file, else zeros. */
  function Logical(c: Config, p: Pager, i: nat): Bytes
    requires i < |p.ids| && i < |p.mem|
  {
    if i in p.present then p.mem[i] else Backing(c, p, i)
  }

  ghost predicate SameContents(c: Config, p: Pager, q: Pager) {
    && |p.ids| == |p.mem| && |q.ids| == |q.mem| && |q.ids| == |p.ids|
    && forall i | 0 <= i < |p.ids| :: Logical(c, q, i) == Logical(c, p, i)
  }

  // ---------- Invariant ----------

  /** The two lists hold each resident block once, in one list or the other, and no block besides. */
  ghost predicate ListsOk(p: Pager) {
    && multiset(p.clean) + multiset(p.dirty) == multiset(p.present)
    && 0 < p.budget && |p.present| <= p.budget
  }

  /** The pager and the storage agree on what is stashed, and a dirty block is not. */
  ghost predicate StashOk(p: Pager) {
    && p.stashSet == p.store.stashIds.Keys
    && (forall i | i in p.stashSet :: i !in p.dirty)
    && (p.readOnly ==> p.dirty == [] && p.stashSet == {})
  }

  /** An id is empty or names a base file, copied to the stash tier once this session has used it. */
  ghost predicate IdOk(c: Config, store: Storage, i: nat, id: Id) {
    id != EmptyBlockHash() ==>
      && File(Base, id) in store.disk.files
      && (c.multi && i in store.committed ==> File(Upper, id) in store.disk.files)
  }

  ghost predicate IdsOk(c: Config, p: Pager) {
    AllIds(p.ids) && forall i | 0 <= i < |p.ids| :: IdOk(c, p.store, i, p.ids[i])
  }

  /** Clean: read-only and equal to its backing. Dirty: writable. Absent: no access and zero-filled. */
  ghost predicate PageOk(c: Config, u: iset<Bytes>, p: Pager, i: nat)
    requires i < |p.ids| && i < |p.mem| && i < |p.prot|
  {
    && p.mem[i] in u
    && (i in p.clean ==> p.prot[i] == ProtRead && p.mem[i] == Backing(c, p, i))
    && (i in p.dirty ==> Permits(p.prot[i], true))
    && (i !in p.present ==> p.prot[i] == ProtNone && p.mem[i] == Zeros(c.blockSize))
  }

  ghost predicate PagesOk(c: Config, u: iset<Bytes>, p: Pager)
    requires |p.prot| == |p.ids| && |p.mem| == |p.ids|
  {
    forall i | 0 <= i < |p.ids| :: PageOk(c, u, p, i)
  }

  ghost predicate PagerOk(c: Config, u: iset<Bytes>, p: Pager) {
    && Shape(p) && ListsOk(p) && StashOk(p)
    && StorageOk(c, u, p.store) && IdsOk(c, p) && PagesOk(c, u, p)
  }

  /** What no step changes. */
  ghost predicate SameRegion(p: Pager, q: Pager) {
    q.budget == p.budget && q.readOnly == p.readOnly && |q.ids| == |p.ids|
  }
}

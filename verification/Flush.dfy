/**
  msync: the store tasks of the dirty blocks, then the commit tasks of the
  stashed ones. The tasks run on several threads, so both take the order they
  happen in as a parameter, and every order is allowed.
 */
module Flush {
  import opened Blocks
  import opened Store
  import opened Pager
  import opened PagerLemmas

  /** One store task: store the block, record its id, make the page read-only, and move it to the clean list. */
  function StoreTask(c: Config, p: Pager, i: nat): Pager
    requires i < |p.ids| && i < |p.mem| && i < |p.prot|
  {
    p.(store := StoreBlock(c, p.store, i, p.mem[i]),
       ids := p.ids[i := c.hash(p.mem[i])],
       prot := p.prot[i := ProtRead],
       clean := [i] + p.clean)
  }

  ghost function StoreTasks(c: Config, p: Pager, order: seq<nat>, n: nat): (q: Pager)
    requires Shape(p) && InRange(order, |p.ids|) && n <= |order|
    ensures |q.ids| == |p.ids| && |q.mem| == |p.ids| && |q.prot| == |p.ids|
  {
    if n == 0 then p else StoreTask(c, StoreTasks(c, p, order, n - 1), order[n - 1])
  }

  lemma {:induction false} SamePrefixTasks(c: Config, p: Pager, order: seq<nat>, i: nat, n: nat)
    requires Shape(p) && InRange(order + [i], |p.ids|) && n <= |order|
    ensures InRange(order, |p.ids|) && StoreTasks(c, p, order + [i], n) == StoreTasks(c, p, order, n)
  {
    assert (order + [i])[..|order|] == order;
    forall k | 0 <= k < |order|
      ensures order[k] < |p.ids|
    {
      assert (order + [i])[k] == order[k];
    }
    if n > 0 {
      SamePrefixTasks(c, p, order, i, n - 1);
    }
  }

  /** One more task after those of an order. */
  lemma OneMoreTask(c: Config, p: Pager, order: seq<nat>, i: nat)
    requires Shape(p) && InRange(order, |p.ids|) && i < |p.ids|
    ensures InRange(order + [i], |p.ids|)
    ensures StoreTasks(c, p, order + [i], |order| + 1) == StoreTask(c, StoreTasks(c, p, order, |order|), i)
  {
    SamePrefixTasks(c, p, order, i, |order|);
  }

  /** The orders in which parallel tasks can happen: any permutation of the dirty list, and of the stash set. */
  ghost predicate Orders(p: Pager, order: seq<nat>, commits: seq<nat>) {
    multiset(order) == multiset(p.dirty) && multiset(commits) == multiset(p.stashSet)
  }

  /** None: a commit task does not find its stash file, and the process exits. */
  ghost function MSync(c: Config, p: Pager, order: seq<nat>, commits: seq<nat>): Option<Pager>
    requires Shape(p) && InRange(order, |p.ids|) && InRange(commits, |p.ids|)
  {
    var stored := StoreTasks(c, p, order, |order|).(dirty := []);
    var committed := CommitAll(c, stored.store, commits, |commits|);
    if committed.None? then None
    else
      Some(stored.(store := committed.value,
                   ids := CommitIds(c, stored.store, stored.ids, commits, |commits|),
                   stashSet := {}))
  }

  /** The storage when some of a flush's tasks are done: store tasks first, then commit tasks. */
  ghost function Interrupted(c: Config, p: Pager, order: seq<nat>, stored: nat, commits: seq<nat>, committed: nat):
    Storage
    requires Shape(p) && InRange(order, |p.ids|) && stored <= |order| && committed <= |commits|
  {
    var s := StoreTasks(c, p, order, stored).store;
    var t := CommitAll(c, s, commits, committed);
    if t.None? then s else t.value
  }

  lemma OrdersInRange(p: Pager, order: seq<nat>, commits: seq<nat>)
    requires Shape(p) && Orders(p, order, commits)
    ensures InRange(order, |p.ids|) && InRange(commits, |p.ids|) && NoDuplicates(commits)
    ensures forall i: nat :: (i in order <==> i in p.dirty) && (i in commits <==> i in p.stashSet)
  {
    forall i: nat
      ensures (i in order <==> i in p.dirty) && (i in commits <==> i in p.stashSet)
    {
      assert i in order <==> i in multiset(order);
      assert i in p.dirty <==> i in multiset(p.dirty);
      assert i in commits <==> i in multiset(commits);
    }
    forall k | 0 <= k < |order|
      ensures order[k] < |p.ids|
    {
      assert order[k] in order && order[k] in p.dirty;
    }
    forall k | 0 <= k < |commits|
      ensures commits[k] < |p.ids|
    {
      assert commits[k] in commits && commits[k] in p.stashSet;
    }
    CountsGiveNoDuplicates(commits);
  }

  // ---------- The tasks in closed form ----------

  ghost predicate Stored(c: Config, p: Pager, q: Pager, order: seq<nat>, n: nat)
    requires n <= |order|
  {
    && |p.mem| == |p.ids| && |p.prot| == |p.ids| && |q.prot| == |p.ids| && |q.ids| == |p.ids|
    && q == p.(store := q.store, ids := q.ids, prot := q.prot, clean := q.clean)
    && multiset(q.clean) == multiset(p.clean) + multiset(order[..n])
    && forall i | 0 <= i < |p.ids| ::
         && q.ids[i] == (if i in Elements(order, n) then c.hash(p.mem[i]) else p.ids[i])
         && q.prot[i] == (if i in Elements(order, n) then ProtRead else p.prot[i])
  }

  lemma StoredMore(c: Config, p: Pager, r: Pager, order: seq<nat>, n: nat)
    requires 0 < n <= |order| && Stored(c, p, r, order, n - 1) && order[n - 1] < |p.ids|
    ensures Stored(c, p, StoreTask(c, r, order[n - 1]), order, n)
    ensures StoreTask(c, r, order[n - 1]).store == StoreBlock(c, r.store, order[n - 1], p.mem[order[n - 1]])
  {
    assert order[..n] == order[..n - 1] + [order[n - 1]];
  }

  lemma {:induction false} StoreTasksForm(c: Config, p: Pager, order: seq<nat>, n: nat) returns (q: Pager)
    requires Shape(p) && InRange(order, |p.ids|) && n <= |order|
    ensures q == StoreTasks(c, p, order, n)
    ensures Stored(c, p, q, order, n) && q.store == StoreAll(c, p.store, p.mem, order, n)
  {
    if n == 0 {
      q := p;
    } else {
      var r := StoreTasksForm(c, p, order, n - 1);
      StoredMore(c, p, r, order, n);
      q := StoreTask(c, r, order[n - 1]);
    }
  }
}

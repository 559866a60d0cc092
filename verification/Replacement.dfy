/**
  Which block an eviction takes. The lists are called LRU, but an access to a
  resident block that raises no fault moves nothing: clean blocks go before dirty
  ones, and either kind in the order in which they came on their list, by a fault
  or by the store task of an msync.
 */
module Replacement {
  import opened Blocks
  import opened Store
  import opened Pager
  import opened PagerLemmas
  import Access
  import Flush
  import FlushLemmas

  /**
    A load from a block, a store that leaves the block with the given contents, or msync
    with the order of its tasks.
   */
  datatype Use =
    | Read(block: nat)
    | Write(block: nat, contents: Bytes)
    | MSync(order: seq<nat>, commits: seq<nat>)

  /** A pager, when each block came on the list it is on, and the time. */
  datatype Traced = Traced(pager: Pager, entered: map<nat, nat>, clock: nat)

  ghost predicate Allowed(u: iset<Bytes>, p: Pager, e: Use) {
    if e.MSync? then Flush.Orders(p, e.order, e.commits)
    else e.block < |p.ids| && (e.Write? ==> !p.readOnly && e.contents in u)
  }

  /** The store tasks put their blocks on the clean list one after the other. */
  ghost function EnteredBy(entered: map<nat, nat>, clock: nat, order: seq<nat>, n: nat): map<nat, nat>
    requires n <= |order|
  {
    if n == 0 then entered else EnteredBy(entered, clock, order, n - 1)[order[n - 1] := clock + n - 1]
  }

  ghost function Touch(c: Config, s: Traced, e: Use): Traced
    requires !e.MSync?
  {
    if !Shape(s.pager) || e.block >= |s.pager.ids| then s
    else
      var r := AccessBlock(c, s.pager, e.block, e.Write?);
      if r.None? || e.block >= |r.value.mem| then s
      else
        Traced(if e.Read? then r.value else r.value.(mem := r.value.mem[e.block := e.contents]),
               if Permits(s.pager.prot[e.block], e.Write?) then s.entered else s.entered[e.block := s.clock],
               s.clock + 1)
  }

  ghost function Flushed(c: Config, s: Traced, order: seq<nat>, commits: seq<nat>): Traced {
    if !Shape(s.pager) || !InRange(order, |s.pager.ids|) || !InRange(commits, |s.pager.ids|) then s
    else
      var r := Flush.MSync(c, s.pager, order, commits);
      if r.None? then s
      else Traced(r.value, EnteredBy(s.entered, s.clock, order, |order|), s.clock + |order|)
  }

  ghost function Step(c: Config, s: Traced, e: Use): Traced {
    if e.MSync? then Flushed(c, s, e.order, e.commits) else Touch(c, s, e)
  }

  ghost function Run(c: Config, s: Traced, uses: seq<Use>): Traced {
    if uses == [] then s else Step(c, Run(c, s, uses[..|uses| - 1]), uses[|uses| - 1])
  }

  ghost predicate ValidRun(c: Config, u: iset<Bytes>, s: Traced, uses: seq<Use>) {
    uses == [] ||
    (ValidRun(c, u, s, uses[..|uses| - 1]) && Allowed(u, Run(c, s, uses[..|uses| - 1]).pager, uses[|uses| - 1]))
  }

  /** The block that came last is first. */
  ghost predicate LatestFirst(list: seq<nat>, entered: map<nat, nat>, clock: nat) {
    && (forall i | 0 <= i < |list| :: list[i] in entered && entered[list[i]] < clock)
    && (forall i, j | 0 <= i < j < |list| :: entered[list[i]] > entered[list[j]])
  }

  ghost predicate InOrder(s: Traced) {
    LatestFirst(s.pager.clean, s.entered, s.clock) && LatestFirst(s.pager.dirty, s.entered, s.clock)
  }

  // ---------- Lists ----------

  lemma LaterClock(list: seq<nat>, entered: map<nat, nat>, clock: nat, b: nat)
    requires LatestFirst(list, entered, clock) && b !in list
    ensures LatestFirst(list, entered[b := clock], clock + 1)
    ensures LatestFirst([b] + list, entered[b := clock], clock + 1)
  {
    var after := entered[b := clock];
    forall i | 0 <= i < |list|
      ensures list[i] in after && after[list[i]] == entered[list[i]] < clock
    {
      assert list[i] != b;
    }
  }

  lemma Shorter(list: seq<nat>, entered: map<nat, nat>, clock: nat)
    requires LatestFirst(list, entered, clock) && list != []
    ensures LatestFirst(list[..|list| - 1], entered, clock)
    ensures forall x | x in list && x != list[|list| - 1] :: entered[list[|list| - 1]] < entered[x]
  {
  }

  lemma {:induction false} RemoveKeepsOrder(list: seq<nat>, b: nat, entered: map<nat, nat>, clock: nat)
    requires LatestFirst(list, entered, clock)
    ensures LatestFirst(Remove(list, b), entered, clock)
  {
    if list != [] {
      RemoveKeepsOrder(list[1..], b, entered, clock);
      if list[0] != b {
        RemoveMembers(list[1..], b);
        assert list == [list[0]] + list[1..];
        InFront(list[0], list[1..], Remove(list[1..], b), entered, clock);
      }
    }
  }

  lemma InFront(x: nat, rest: seq<nat>, kept: seq<nat>, entered: map<nat, nat>, clock: nat)
    requires LatestFirst([x] + rest, entered, clock) && LatestFirst(kept, entered, clock)
    requires forall y | y in kept :: y in rest
    ensures LatestFirst([x] + kept, entered, clock)
  {
    assert ([x] + rest)[0] == x;
    forall j | 0 <= j < |kept|
      ensures kept[j] in entered && entered[x] > entered[kept[j]]
    {
      assert kept[j] in kept;
      var i :| 0 <= i < |rest| && rest[i] == kept[j];
      assert ([x] + rest)[i + 1] == kept[j];
    }
  }

  // ---------- One use ----------

  /** The lists an eviction leaves. */
  lemma EvictLists(c: Config, u: iset<Bytes>, p: Pager)
    requires Sound(c, u) && PagerOk(c, u, p)
    ensures Evict(c, p).Some?
    ensures var q := Evict(c, p).value;
            && (|p.present| < p.budget ==> q == p)
            && (|p.present| >= p.budget ==> Evicted(p, q))
  {
    var q := EvictKeeps(c, u, p);
  }

  /** `q` is `p` without the block that comes last on the clean list, or on the dirty list when no block is clean. */
  ghost predicate Evicted(p: Pager, q: Pager) {
    if p.clean != [] then
      && q.clean == p.clean[..|p.clean| - 1] && q.dirty == p.dirty
      && q.present == p.present - {p.clean[|p.clean| - 1]}
    else
      && p.dirty != [] && q.clean == [] && q.dirty == p.dirty[..|p.dirty| - 1]
      && q.present == p.present - {p.dirty[|p.dirty| - 1]}
  }

  lemma MapInLists(c: Config, e: Pager, b: nat, isWrite: bool)
    requires b < |e.ids| && b < |e.mem| && b < |e.prot| && MapIn(c, e, b, isWrite).Some?
    ensures Brought(e, MapIn(c, e, b, isWrite).value, b, isWrite)
  {
  }

  /** `q` is `e` with the block in front of the list it belongs on. */
  ghost predicate Brought(e: Pager, q: Pager, b: nat, isWrite: bool) {
    && q.clean == (if isWrite then e.clean else [b] + e.clean)
    && q.dirty == (if isWrite then [b] + e.dirty else e.dirty)
    && q.present == e.present + {b}
  }

  lemma AbsentFaults(c: Config, u: iset<Bytes>, p: Pager, b: nat, isWrite: bool)
    requires Sound(c, u) && PagerOk(c, u, p) && b < |p.ids| && b !in p.present && !(p.readOnly && isWrite)
    ensures AccessBlock(c, p, b, isWrite) == HandleFault(c, p, b, isWrite)
  {
    AbsentForbidden(c, u, p, b, isWrite);
  }

  lemma AbsentLists(c: Config, u: iset<Bytes>, p: Pager, b: nat, isWrite: bool) returns (e: Pager)
    requires Sound(c, u) && PagerOk(c, u, p) && b < |p.ids| && b !in p.present && !(p.readOnly && isWrite)
    ensures |p.present| < p.budget ==> e == p
    ensures |p.present| >= p.budget ==> Evicted(p, e)
    ensures b !in e.clean && b !in e.dirty
    ensures AccessBlock(c, p, b, isWrite).Some?
    ensures Brought(e, AccessBlock(c, p, b, isWrite).value, b, isWrite)
  {
    AbsentFaults(c, u, p, b, isWrite);
    EvictLists(c, u, p);
    e := EvictKeeps(c, u, p);
    InLists(e, b);
    var q := MapInKeeps(c, u, e, b, isWrite);
    MapInLists(c, e, b, isWrite);
  }

  lemma UseKeeps(c: Config, u: iset<Bytes>, s: Traced, e: Use)
    requires Sound(c, u) && PagerOk(c, u, s.pager) && Allowed(u, s.pager, e) && !e.MSync?
    ensures AccessBlock(c, s.pager, e.block, e.Write?).Some?
    ensures var q := AccessBlock(c, s.pager, e.block, e.Write?).value;
            var s' := Touch(c, s, e);
            && PagerOk(c, u, s'.pager)
            && s'.pager.clean == q.clean && s'.pager.dirty == q.dirty && s'.pager.present == q.present
            && |s'.pager.ids| == |s.pager.ids| && s'.pager.readOnly == s.pager.readOnly
            && s'.clock == s.clock + 1
            && s'.entered == if Permits(s.pager.prot[e.block], e.Write?) then s.entered
                             else s.entered[e.block := s.clock]
  {
    var q := Access.AccessKeeps(c, u, s.pager, e.block, e.Write?);
    if e.Write? {
      Access.DirtyWrite(c, u, q, e.block, e.contents);
    }
  }

  lemma AbsentInOrder(c: Config, u: iset<Bytes>, s: Traced, e: Use)
    requires Sound(c, u) && PagerOk(c, u, s.pager) && Allowed(u, s.pager, e) && !e.MSync? && InOrder(s)
    requires e.block !in s.pager.present
    ensures InOrder(Touch(c, s, e))
  {
    UseKeeps(c, u, s, e);
    AbsentForbidden(c, u, s.pager, e.block, e.Write?);
    var p := AbsentLists(c, u, s.pager, e.block, e.Write?);
    BroughtInOrder(s, p, AccessBlock(c, s.pager, e.block, e.Write?).value, e.block, e.Write?);
  }

  lemma BroughtInOrder(s: Traced, p: Pager, q: Pager, b: nat, isWrite: bool)
    requires InOrder(s) && (p == s.pager || Evicted(s.pager, p)) && Brought(p, q, b, isWrite)
    requires b !in p.clean && b !in p.dirty
    ensures LatestFirst(q.clean, s.entered[b := s.clock], s.clock + 1)
    ensures LatestFirst(q.dirty, s.entered[b := s.clock], s.clock + 1)
  {
    EvictedInOrder(s, p);
    LaterClock(p.clean, s.entered, s.clock, b);
    LaterClock(p.dirty, s.entered, s.clock, b);
  }

  lemma AbsentForbidden(c: Config, u: iset<Bytes>, p: Pager, b: nat, isWrite: bool)
    requires PagerOk(c, u, p) && b < |p.ids| && b !in p.present
    ensures !Permits(p.prot[b], isWrite)
  {
    assert PageOk(c, u, p, b);
  }

  lemma EvictedInOrder(s: Traced, q: Pager)
    requires InOrder(s) && (q == s.pager || Evicted(s.pager, q))
    ensures LatestFirst(q.clean, s.entered, s.clock) && LatestFirst(q.dirty, s.entered, s.clock)
  {
    if s.pager.clean != [] {
      Shorter(s.pager.clean, s.entered, s.clock);
    }
    if s.pager.dirty != [] {
      Shorter(s.pager.dirty, s.entered, s.clock);
    }
  }

  lemma MovedInOrder(s: Traced, q: Pager, b: nat)
    requires InOrder(s) && q.clean == Remove(s.pager.clean, b) && q.dirty == [b] + s.pager.dirty && b !in s.pager.dirty
    ensures LatestFirst(q.clean, s.entered[b := s.clock], s.clock + 1)
    ensures LatestFirst(q.dirty, s.entered[b := s.clock], s.clock + 1)
  {
    RemoveKeepsOrder(s.pager.clean, b, s.entered, s.clock);
    RemoveMembers(s.pager.clean, b);
    LaterClock(Remove(s.pager.clean, b), s.entered, s.clock, b);
    LaterClock(s.pager.dirty, s.entered, s.clock, b);
  }

  /** A resident block that faults is clean, and the access is a store. */
  lemma ResidentFault(c: Config, u: iset<Bytes>, p: Pager, b: nat, isWrite: bool)
    requires PagerOk(c, u, p) && b < |p.ids| && b in p.present && !Permits(p.prot[b], isWrite)
    ensures isWrite && b in p.clean && b !in p.dirty
  {
    assert PageOk(c, u, p, b);
    InLists(p, b);
  }

  lemma PresentInOrder(c: Config, u: iset<Bytes>, s: Traced, e: Use)
    requires Sound(c, u) && PagerOk(c, u, s.pager) && Allowed(u, s.pager, e) && !e.MSync? && InOrder(s)
    requires e.block in s.pager.present && !Permits(s.pager.prot[e.block], e.Write?)
    ensures InOrder(Touch(c, s, e)) && Touch(c, s, e).pager.present == s.pager.present
  {
    UseKeeps(c, u, s, e);
    ResidentFault(c, u, s.pager, e.block, e.Write?);
    var q := PresentWriteKeeps(c, u, s.pager, e.block);
    MovedInOrder(s, q, e.block);
  }

  lemma TouchInOrder(c: Config, u: iset<Bytes>, s: Traced, e: Use)
    requires Sound(c, u) && PagerOk(c, u, s.pager) && Allowed(u, s.pager, e) && !e.MSync? && InOrder(s)
    ensures PagerOk(c, u, Touch(c, s, e).pager) && InOrder(Touch(c, s, e))
  {
    UseKeeps(c, u, s, e);
    if !Permits(s.pager.prot[e.block], e.Write?) {
      if e.block in s.pager.present {
        PresentInOrder(c, u, s, e);
      } else {
        AbsentInOrder(c, u, s, e);
      }
    }
  }

  // ---------- msync ----------

  /** A list with the first n of some blocks put in front of it, one by one. */
  ghost function Pushed(list: seq<nat>, order: seq<nat>, n: nat): seq<nat>
    requires n <= |order|
  {
    if n == 0 then list else [order[n - 1]] + Pushed(list, order, n - 1)
  }

  lemma {:induction false} PushedNew(list: seq<nat>, order: seq<nat>, n: nat, k: nat)
    requires n <= k < |order| && NoDuplicates(order) && order[k] !in list
    ensures order[k] !in Pushed(list, order, n)
  {
    if n > 0 {
      PushedNew(list, order, n - 1, k);
    }
  }

  lemma {:induction false} PushedInOrder(list: seq<nat>, order: seq<nat>, n: nat, entered: map<nat, nat>, clock: nat)
    requires n <= |order| && NoDuplicates(order) && LatestFirst(list, entered, clock)
    requires forall k | 0 <= k < |order| :: order[k] !in list
    ensures LatestFirst(Pushed(list, order, n), EnteredBy(entered, clock, order, n), clock + n)
  {
    if n > 0 {
      PushedInOrder(list, order, n - 1, entered, clock);
      PushedNew(list, order, n - 1, n - 1);
      LaterClock(Pushed(list, order, n - 1), EnteredBy(entered, clock, order, n - 1), clock + n - 1, order[n - 1]);
    }
  }

  /** The store tasks put their blocks on the clean list in the order they run. */
  lemma {:induction false} TasksPush(c: Config, p: Pager, order: seq<nat>, n: nat)
    requires Shape(p) && InRange(order, |p.ids|) && n <= |order|
    ensures Flush.StoreTasks(c, p, order, n).clean == Pushed(p.clean, order, n)
  {
    if n > 0 {
      TasksPush(c, p, order, n - 1);
    }
  }

  /** The blocks of the store tasks are the dirty ones, each once. */
  lemma TasksAreDirty(p: Pager, order: seq<nat>)
    requires ListsOk(p) && multiset(order) == multiset(p.dirty)
    ensures NoDuplicates(order) && forall k | 0 <= k < |order| :: order[k] !in p.clean
  {
    forall x: nat
      ensures multiset(order)[x] <= 1
    {
      assert (multiset(p.clean) + multiset(p.dirty))[x] == multiset(p.present)[x];
    }
    CountsGiveNoDuplicates(order);
    forall k | 0 <= k < |order|
      ensures order[k] !in p.clean
    {
      assert order[k] in multiset(p.dirty);
      InLists(p, order[k]);
    }
  }

  lemma FlushedKeeps(c: Config, u: iset<Bytes>, s: Traced, order: seq<nat>, commits: seq<nat>)
    requires Sound(c, u) && PagerOk(c, u, s.pager) && Flush.Orders(s.pager, order, commits)
    ensures InRange(order, |s.pager.ids|)
    ensures var t := Flushed(c, s, order, commits);
            && PagerOk(c, u, t.pager) && t.pager.present == s.pager.present && t.pager.dirty == []
            && t.pager.clean == Flush.StoreTasks(c, s.pager, order, |order|).clean
            && t.entered == EnteredBy(s.entered, s.clock, order, |order|) && t.clock == s.clock + |order|
            && |t.pager.ids| == |s.pager.ids| && t.pager.readOnly == s.pager.readOnly
  {
    var q := FlushLemmas.MSyncKeeps(c, u, s.pager, order, commits);
  }

  lemma FlushedInOrder(c: Config, u: iset<Bytes>, s: Traced, order: seq<nat>, commits: seq<nat>)
    requires Sound(c, u) && PagerOk(c, u, s.pager) && Flush.Orders(s.pager, order, commits) && InOrder(s)
    ensures InOrder(Flushed(c, s, order, commits))
  {
    FlushedKeeps(c, u, s, order, commits);
    TasksAreDirty(s.pager, order);
    TasksPush(c, s.pager, order, |order|);
    PushedInOrder(s.pager.clean, order, |order|, s.entered, s.clock);
  }

  lemma StepInOrder(c: Config, u: iset<Bytes>, s: Traced, e: Use)
    requires Sound(c, u) && PagerOk(c, u, s.pager) && Allowed(u, s.pager, e) && InOrder(s)
    ensures PagerOk(c, u, Step(c, s, e).pager) && InOrder(Step(c, s, e))
  {
    if e.MSync? {
      FlushedKeeps(c, u, s, e.order, e.commits);
      FlushedInOrder(c, u, s, e.order, e.commits);
    } else {
      TouchInOrder(c, u, s, e);
    }
  }

  // ---------- Main result ----------

  /** Over every run, msyncs included, both lists have the block that came last first. */
  lemma {:induction false} RunInOrder(c: Config, u: iset<Bytes>, s: Traced, uses: seq<Use>)
    requires Sound(c, u) && PagerOk(c, u, s.pager) && InOrder(s) && ValidRun(c, u, s, uses)
    ensures PagerOk(c, u, Run(c, s, uses).pager) && InOrder(Run(c, s, uses))
    decreases |uses|
  {
    if uses != [] {
      RunInOrder(c, u, s, uses[..|uses| - 1]);
      StepInOrder(c, u, Run(c, s, uses[..|uses| - 1]), uses[|uses| - 1]);
    }
  }

  /** The block that came on its list longest ago, of the clean blocks if there are any, and else of the dirty ones. */
  ghost predicate IsVictim(s: Traced, v: nat) {
    var list := if s.pager.clean != [] then s.pager.clean else s.pager.dirty;
    v in list && forall x | x in list && x != v :: v in s.entered && x in s.entered && s.entered[v] < s.entered[x]
  }

  /** The step evicts v: it faults on an absent block with no room left, and v is the one to go. */
  ghost predicate Evicts(s: Traced, e: Use, v: nat) {
    !e.MSync? && e.block !in s.pager.present && |s.pager.present| >= s.pager.budget && IsVictim(s, v)
  }

  /** Over every run of loads, stores and msyncs, a block stops being resident exactly when it is the victim. */
  lemma OldestGoesFirst(c: Config, u: iset<Bytes>, s: Traced, uses: seq<Use>, e: Use, v: nat)
    requires Sound(c, u) && PagerOk(c, u, s.pager) && InOrder(s)
    requires ValidRun(c, u, s, uses) && Allowed(u, Run(c, s, uses).pager, e)
    requires v in Run(c, s, uses).pager.present
    ensures v !in Step(c, Run(c, s, uses), e).pager.present <==> Evicts(Run(c, s, uses), e, v)
  {
    var t := Run(c, s, uses);
    RunInOrder(c, u, s, uses);
    if e.MSync? {
      FlushedKeeps(c, u, t, e.order, e.commits);
    } else {
      VictimGoes(c, u, t, e, v);
    }
  }

  lemma VictimGoes(c: Config, u: iset<Bytes>, t: Traced, e: Use, v: nat)
    requires Sound(c, u) && PagerOk(c, u, t.pager) && InOrder(t) && Allowed(u, t.pager, e) && !e.MSync?
    requires v in t.pager.present
    ensures v !in Touch(c, t, e).pager.present
            <==> e.block !in t.pager.present && |t.pager.present| >= t.pager.budget && IsVictim(t, v)
  {
    UseKeeps(c, u, t, e);
    if e.block in t.pager.present {
      if !Permits(t.pager.prot[e.block], e.Write?) {
        PresentInOrder(c, u, t, e);
      }
    } else {
      AbsentVictimGoes(c, u, t, e, v);
    }
  }

  lemma AbsentVictimGoes(c: Config, u: iset<Bytes>, t: Traced, e: Use, v: nat)
    requires Sound(c, u) && PagerOk(c, u, t.pager) && InOrder(t) && Allowed(u, t.pager, e) && !e.MSync?
    requires v in t.pager.present
    requires e.block !in t.pager.present
    ensures v !in Touch(c, t, e).pager.present <==> |t.pager.present| >= t.pager.budget && IsVictim(t, v)
  {
    var p := AbsentPresent(c, u, t, e);
    if |t.pager.present| >= t.pager.budget {
      EvictedVictim(t, p, v);
    }
  }

  lemma AbsentPresent(c: Config, u: iset<Bytes>, t: Traced, e: Use) returns (p: Pager)
    requires Sound(c, u) && PagerOk(c, u, t.pager) && Allowed(u, t.pager, e) && !e.MSync? && e.block !in t.pager.present
    ensures Touch(c, t, e).pager.present == p.present + {e.block}
    ensures if |t.pager.present| >= t.pager.budget then Evicted(t.pager, p) else p == t.pager
  {
    UseKeeps(c, u, t, e);
    p := AbsentLists(c, u, t.pager, e.block, e.Write?);
  }

  lemma EvictedVictim(t: Traced, p: Pager, v: nat)
    requires InOrder(t) && Evicted(t.pager, p) && v in t.pager.present
    ensures v !in p.present <==> IsVictim(t, v)
  {
    LastIsVictim(t, v);
  }

  lemma LastIsVictim(t: Traced, v: nat)
    requires InOrder(t) && (t.pager.clean != [] || t.pager.dirty != [])
    ensures var list := if t.pager.clean != [] then t.pager.clean else t.pager.dirty;
            IsVictim(t, v) <==> v == list[|list| - 1]
  {
    var list := if t.pager.clean != [] then t.pager.clean else t.pager.dirty;
    var last := list[|list| - 1];
    Shorter(list, t.entered, t.clock);
    assert last in list;
  }
}

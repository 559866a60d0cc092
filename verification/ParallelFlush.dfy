/** What the threads of a flush can do comes to the sequential flush, down to single file operations. */
module ParallelFlush {
  import opened Blocks
  import opened Store
  import opened Pager
  import Publication
  import ParallelFor
  import Flush

  /** The tasks in the order their indices were visited. */
  ghost function Picked(tasks: seq<nat>, visited: seq<nat>): seq<nat>
    requires InRange(visited, |tasks|)
  {
    seq(|visited|, k requires 0 <= k < |visited| => tasks[visited[k]])
  }

  lemma {:induction false} PermutedPicks(tasks: seq<nat>, v: seq<nat>, w: seq<nat>)
    requires InRange(v, |tasks|) && InRange(w, |tasks|) && multiset(v) == multiset(w)
    ensures multiset(Picked(tasks, v)) == multiset(Picked(tasks, w))
    decreases |v|
  {
    if v == [] {
      assert |multiset(w)| == |w| == 0;
    } else {
      var last := |v| - 1;
      Without(v, last);
      assert v[last] in multiset(w);
      var k :| 0 <= k < |w| && w[k] == v[last];
      Without(w, k);
      SplitPick(tasks, v, last);
      SplitPick(tasks, w, k);
      PermutedPicks(tasks, v[..last] + v[last + 1..], w[..k] + w[k + 1..]);
    }
  }

  lemma Without(w: seq<nat>, k: nat)
    requires k < |w|
    ensures multiset(w[..k] + w[k + 1..]) == multiset(w) - multiset{w[k]}
  {
    assert w == w[..k] + [w[k]] + w[k + 1..];
  }

  lemma SplitPick(tasks: seq<nat>, w: seq<nat>, k: nat)
    requires InRange(w, |tasks|) && k < |w|
    ensures InRange(w[..k] + w[k + 1..], |tasks|)
    ensures multiset(Picked(tasks, w)) == multiset(Picked(tasks, w[..k] + w[k + 1..])) + multiset{tasks[w[k]]}
  {
    var rest := w[..k] + w[k + 1..];
    assert Picked(tasks, w) == Picked(tasks, w[..k]) + [tasks[w[k]]] + Picked(tasks, w[k + 1..]);
    assert Picked(tasks, rest) == Picked(tasks, w[..k]) + Picked(tasks, w[k + 1..]);
  }

  /** Visiting each index once takes each task once. */
  lemma VisitedOncePermutes(tasks: seq<nat>, visited: seq<nat>)
    requires forall i: nat :: multiset(visited)[i] == if i < |tasks| then 1 else 0
    ensures InRange(visited, |tasks|) && multiset(Picked(tasks, visited)) == multiset(tasks)
  {
    var indices := Indices(|tasks|);
    forall k | 0 <= k < |visited|
      ensures visited[k] < |tasks|
    {
      assert multiset(visited)[visited[k]] > 0;
    }
    var seen, all: multiset<nat> := multiset(visited), multiset(indices);
    forall i: nat
      ensures seen[i] == all[i]
    {
      IndicesOnce(|tasks|, i);
    }
    assert seen == all;
    assert Picked(tasks, indices) == tasks;
    PermutedPicks(tasks, visited, indices);
  }

  /**
    Under every schedule of the worker threads the tasks happen in some
    permutation of the list they were taken from: what a flush allows for.
   */
  lemma SchedulesArePermutations(tasks: seq<nat>, chunks: seq<ParallelFor.Chunk>, schedule: seq<nat>)
    requires ParallelFor.Tiles(chunks, |tasks|)
    requires ParallelFor.Finished(chunks, ParallelFor.Run(chunks, ParallelFor.Start(chunks), schedule))
    ensures var visited := ParallelFor.Run(chunks, ParallelFor.Start(chunks), schedule).visited;
            InRange(visited, |tasks|) && multiset(Picked(tasks, visited)) == multiset(tasks)
  {
    var visited := ParallelFor.EveryIndexOnce(chunks, |tasks|, schedule);
    VisitedOncePermutes(tasks, visited);
  }

  // ---------- Workers one call at a time ----------

  /** Where the workers of a parallel loop are, and the tasks they have run so far in the order they ran them. */
  ghost predicate Progress(tasks: seq<nat>, chunks: seq<ParallelFor.Chunk>, next: seq<nat>, visited: seq<nat>,
                           order: seq<nat>)
  {
    && ParallelFor.Tiles(chunks, |tasks|) && ParallelFor.Inv(chunks, ParallelFor.State(next, visited))
    && InRange(visited, |tasks|) && order == Picked(tasks, visited)
  }

  lemma ProgressStarts(tasks: seq<nat>, chunks: seq<ParallelFor.Chunk>, next: seq<nat>)
    requires ParallelFor.Tiles(chunks, |tasks|) && next == ParallelFor.Start(chunks).next
    ensures Progress(tasks, chunks, next, [], [])
  {
  }

  lemma PickedMore(tasks: seq<nat>, visited: seq<nat>, i: nat)
    requires InRange(visited, |tasks|) && i < |tasks|
    ensures InRange(visited + [i], |tasks|) && Picked(tasks, visited + [i]) == Picked(tasks, visited) + [tasks[i]]
  {
  }

  lemma CallsDecrease(tasks: seq<nat>, chunks: seq<ParallelFor.Chunk>, next: seq<nat>, w: nat)
    requires |next| == |chunks| && w < |chunks| && next[w] < chunks[w].end
    requires forall k | 0 <= k < |chunks| :: next[k] <= chunks[k].end
    ensures 0 <= ParallelFor.Remaining(chunks, next[w := next[w] + 1]) < ParallelFor.Remaining(chunks, next)
  {
    ParallelFor.OneCallLess(chunks, next, w);
    ParallelFor.NoneLessThanZero(chunks, next[w := next[w] + 1]);
  }

  /** Worker w makes its next call. */
  lemma ProgressCall(tasks: seq<nat>, chunks: seq<ParallelFor.Chunk>, next: seq<nat>, visited: seq<nat>,
                     order: seq<nat>, w: nat)
    requires Progress(tasks, chunks, next, visited, order) && w < |chunks| && next[w] < chunks[w].end
    ensures next[w] < |tasks|
    ensures Progress(tasks, chunks, next[w := next[w] + 1], visited + [next[w]], order + [tasks[next[w]]])
    ensures 0 <= ParallelFor.Remaining(chunks, next[w := next[w] + 1]) < ParallelFor.Remaining(chunks, next)
  {
    CallsDecrease(tasks, chunks, next, w);
    ParallelFor.BelowCount(chunks, |tasks|, w);
    PickedMore(tasks, visited, next[w]);
    ParallelFor.StepInv(chunks, |tasks|, ParallelFor.State(next, visited), w);
    assert ParallelFor.Step(chunks, ParallelFor.State(next, visited), w)
        == ParallelFor.State(next[w := next[w] + 1], visited + [next[w]]);
  }

  lemma ProgressEnds(tasks: seq<nat>, chunks: seq<ParallelFor.Chunk>, next: seq<nat>, visited: seq<nat>,
                     order: seq<nat>)
    requires Progress(tasks, chunks, next, visited, order)
    requires forall w | 0 <= w < |chunks| :: next[w] >= chunks[w].end
    ensures multiset(order) == multiset(tasks)
  {
    ParallelFor.FinishedOnce(chunks, |tasks|, ParallelFor.State(next, visited));
    VisitedOncePermutes(tasks, visited);
  }

  /** The workers can go on to the end from anywhere. */
  lemma ProgressCompletes(tasks: seq<nat>, chunks: seq<ParallelFor.Chunk>, next: seq<nat>, visited: seq<nat>,
                          order: seq<nat>)
    returns (rest: seq<nat>)
    requires Progress(tasks, chunks, next, visited, order)
    ensures multiset(order + rest) == multiset(tasks)
    decreases ParallelFor.Remaining(chunks, next)
  {
    if w :| 0 <= w < |chunks| && next[w] < chunks[w].end {
      ProgressCall(tasks, chunks, next, visited, order, w);
      var task := tasks[next[w]];
      var more := ProgressCompletes(tasks, chunks, next[w := next[w] + 1], visited + [next[w]], order + [task]);
      rest := [task] + more;
      assert order + rest == order + [task] + more;
    } else {
      ProgressEnds(tasks, chunks, next, visited, order);
      rest := [];
      assert order + rest == order;
    }
  }

  function Indices(n: nat): (r: seq<nat>)
    ensures |r| == n && forall k | 0 <= k < n :: r[k] == k
  {
    seq(n, k => k)
  }

  lemma {:induction false} IndicesOnce(n: nat, i: nat)
    ensures multiset(Indices(n))[i] == if i < n then 1 else 0
  {
    if n > 0 {
      IndicesOnce(n - 1, i);
      assert Indices(n) == Indices(n - 1) + [n - 1];
    }
  }

  /**
    The store tasks of a flush as concurrent writers, their file operations
    interleaved in any way: once all are done the files are those of the
    sequential tasks, and no temporary file is left.
   */
  lemma ConcurrentStoresAreTheFlush(c: Config, u: iset<Bytes>, p: Pager, order: seq<nat>,
                                    events: seq<Publication.Event>)
    requires Sound(c, u) && PagerOk(c, u, p) && InRange(order, |p.ids|)
    requires var blocks := Publication.FlushedBlocks(p.mem, order);
             var s := Publication.Initial(c, p.store.disk.files, |order|);
             Publication.AllDone(Publication.Run(c, blocks, s, events))
    ensures var blocks := Publication.FlushedBlocks(p.mem, order);
            var s := Publication.Run(c, blocks, Publication.Initial(c, p.store.disk.files, |order|), events);
            && s.temps == map[]
            && s.files == Flush.StoreTasks(c, p, order, |order|).store.disk.files
  {
    var blocks := Publication.FlushedBlocks(p.mem, order);
    forall k | 0 <= k < |blocks|
      ensures blocks[k] in u
    {
      assert PageOk(c, u, p, order[k]);
    }
    Publication.InterleavedIsSequential(c, u, blocks, p.store.disk.files, events);
    Publication.FlushFilesAreSequential(c, p.store, p.mem, order, |order|);
    var q := Flush.StoreTasksForm(c, p, order, |order|);
  }
}

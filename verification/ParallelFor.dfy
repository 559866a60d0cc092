/**
  run_parallel_for_count: contiguous chunks of the index range, one worker
  thread a chunk, each worker visiting its chunk in order.
 */
module ParallelFor {

  datatype Chunk = Chunk(begin: nat, end: nat)

  function Min(a: nat, b: nat): nat {
    if a < b then a else b
  }

  /** Consecutive non-empty ranges that cover [0, count) exactly. */
  ghost predicate Tiles(chunks: seq<Chunk>, count: nat) {
    && (forall k | 0 <= k < |chunks| :: chunks[k].begin < chunks[k].end)
    && (forall k | 0 < k < |chunks| :: chunks[k].begin == chunks[k - 1].end)
    && (chunks != [] ==> chunks[0].begin == 0 && chunks[|chunks| - 1].end == count)
    && (chunks == [] ==> count == 0)
  }

  /** No worker gets more than its share of the indices, rounded up, of the threads there can be. */
  ghost predicate IsFairShare(chunk: Chunk, count: nat, hardwareThreads: nat) {
    (chunk.end - chunk.begin - 1) * Min(if hardwareThreads == 0 then 1 else hardwareThreads, count) < count
  }

  /** The chunks handed to the worker threads; `hardwareThreads` is what the machine reports, zero when unknown. */
  method MakeChunks(count: nat, hardwareThreads: nat) returns (workers: seq<Chunk>)
    ensures Tiles(workers, count)
    ensures |workers| <= (if hardwareThreads == 0 then 1 else hardwareThreads)
    ensures forall k | 0 <= k < |workers| :: IsFairShare(workers[k], count, hardwareThreads)
  {
    workers := [];
    if count == 0 {
      return;
    }
    var threadCount := if hardwareThreads == 0 then 1 else hardwareThreads;
    threadCount := Min(threadCount, count);
    var chunkSize := (count + threadCount - 1) / threadCount;
    ChunksCover(count, threadCount, chunkSize);
    var threadIndex := 0;
    ghost var covered: nat := 0;
    while threadIndex < threadCount
      invariant threadIndex <= threadCount && |workers| == threadIndex
      invariant Tiles(workers, covered) && covered == Reached(count, chunkSize, threadIndex)
      invariant forall k | 0 <= k < |workers| :: IsFairShare(workers[k], count, hardwareThreads)
    {
      var begin := threadIndex * chunkSize;
      if begin >= count {
        break;
      }
      var end := Min(count, begin + chunkSize);
      OneMoreChunk(workers, begin, end);
      ChunkIsFair(count, hardwareThreads, threadCount, chunkSize, Chunk(begin, end));
      NextReached(count, chunkSize, threadIndex);
      workers := workers + [Chunk(begin, end)];
      threadIndex := threadIndex + 1;
      covered := end;
    }
    assert covered == count;
  }

  /** How far the first `chunks` chunks go. */
  function Reached(count: nat, chunkSize: nat, chunks: nat): nat {
    Min(count, chunks * chunkSize)
  }

  lemma NextReached(count: nat, chunkSize: nat, chunks: nat)
    ensures chunks * chunkSize < count ==>
              Reached(count, chunkSize, chunks + 1) == Min(count, chunks * chunkSize + chunkSize)
  {
    assert (chunks + 1) * chunkSize == chunks * chunkSize + chunkSize;
  }

  lemma ChunkIsFair(count: nat, hardwareThreads: nat, threads: nat, chunkSize: nat, chunk: Chunk)
    requires 0 < count && threads == Min(if hardwareThreads == 0 then 1 else hardwareThreads, count) && 0 < threads
    requires chunkSize == (count + threads - 1) / threads && chunk.begin < chunk.end <= chunk.begin + chunkSize
    ensures IsFairShare(chunk, count, hardwareThreads)
  {
    ShareIsFair(count, threads, chunkSize, chunk.end - chunk.begin);
  }

  lemma ShareIsFair(count: nat, threads: nat, chunkSize: nat, share: nat)
    requires 0 < threads && 0 < count && chunkSize == (count + threads - 1) / threads && 0 < share <= chunkSize
    ensures (share - 1) * threads < count
  {
    var x := count + threads - 1;
    assert x == threads * chunkSize + x % threads;
    assert (chunkSize - 1) * threads == chunkSize * threads - threads;
    assert (share - 1) * threads <= (chunkSize - 1) * threads;
  }

  lemma OneMoreChunk(chunks: seq<Chunk>, begin: nat, end: nat)
    requires Tiles(chunks, begin) && begin < end
    ensures Tiles(chunks + [Chunk(begin, end)], end)
  {
  }

  lemma ChunksCover(count: nat, threads: nat, chunkSize: nat)
    requires 0 < threads && chunkSize == (count + threads - 1) / threads
    ensures threads * chunkSize >= count && (count > 0 ==> chunkSize > 0)
  {
    var x := count + threads - 1;
    assert x == threads * (x / threads) + x % threads;
  }

  // ---------- Every schedule of the workers ----------

  /** The workers' cursors and the indices visited so far, in the order the visits happened. */
  datatype State = State(next: seq<nat>, visited: seq<nat>)

  function Start(chunks: seq<Chunk>): State {
    State(seq(|chunks|, k requires 0 <= k < |chunks| => chunks[k].begin), [])
  }

  /** One worker makes one call, if it has one left. */
  function Step(chunks: seq<Chunk>, s: State, worker: nat): State
    requires |s.next| == |chunks|
  {
    if worker < |chunks| && s.next[worker] < chunks[worker].end then
      State(s.next[worker := s.next[worker] + 1], s.visited + [s.next[worker]])
    else s
  }

  function Run(chunks: seq<Chunk>, s: State, schedule: seq<nat>): (r: State)
    requires |s.next| == |chunks|
    ensures |r.next| == |chunks|
    decreases |schedule|
  {
    if schedule == [] then s else Run(chunks, Step(chunks, s, schedule[0]), schedule[1..])
  }

  ghost predicate Inv(chunks: seq<Chunk>, s: State) {
    && |s.next| == |chunks|
    && (forall k | 0 <= k < |chunks| :: chunks[k].begin <= s.next[k] <= chunks[k].end)
    && (forall i: nat :: multiset(s.visited)[i] == if Visited(chunks, s.next, i) then 1 else 0)
  }

  ghost predicate Visited(chunks: seq<Chunk>, next: seq<nat>, i: nat)
    requires |next| == |chunks|
  {
    exists k :: 0 <= k < |chunks| && InChunk(chunks[k], next[k], i)
  }

  predicate InChunk(chunk: Chunk, next: nat, i: nat) {
    chunk.begin <= i < next
  }

  lemma {:induction false} ChunksIncrease(chunks: seq<Chunk>, count: nat, j: nat, k: nat)
    requires Tiles(chunks, count) && j < k < |chunks|
    ensures chunks[j].end <= chunks[k].begin
  {
    if j + 1 < k {
      ChunksIncrease(chunks, count, j, k - 1);
    }
  }

  lemma OtherChunksApart(chunks: seq<Chunk>, count: nat, s: State, w: nat, k: nat)
    requires Tiles(chunks, count) && Inv(chunks, s) && w < |chunks| && k < |chunks| && w != k
    requires s.next[w] < chunks[w].end
    ensures !InChunk(chunks[k], s.next[k], s.next[w])
  {
    if k < w {
      ChunksIncrease(chunks, count, k, w);
    } else {
      ChunksIncrease(chunks, count, w, k);
    }
  }

  lemma StepInv(chunks: seq<Chunk>, count: nat, s: State, w: nat)
    requires Tiles(chunks, count) && Inv(chunks, s)
    ensures Inv(chunks, Step(chunks, s, w))
  {
    if w < |chunks| && s.next[w] < chunks[w].end {
      var s' := Step(chunks, s, w);
      var me := s.next[w];
      forall i
        ensures Visited(chunks, s'.next, i) <==> Visited(chunks, s.next, i) || i == me
      {
        if Visited(chunks, s.next, i) {
          var k :| 0 <= k < |chunks| && InChunk(chunks[k], s.next[k], i);
          assert InChunk(chunks[k], s'.next[k], i);
        }
        assert InChunk(chunks[w], s'.next[w], me);
        if Visited(chunks, s'.next, i) && i != me {
          var k :| 0 <= k < |chunks| && InChunk(chunks[k], s'.next[k], i);
          assert InChunk(chunks[k], s.next[k], i);
        }
      }
      assert !Visited(chunks, s.next, me) by {
        forall k | 0 <= k < |chunks|
          ensures !InChunk(chunks[k], s.next[k], me)
        {
          if k != w {
            OtherChunksApart(chunks, count, s, w, k);
          }
        }
      }
    }
  }

  lemma {:induction false} RunInv(chunks: seq<Chunk>, count: nat, s: State, schedule: seq<nat>)
    requires Tiles(chunks, count) && Inv(chunks, s)
    ensures Inv(chunks, Run(chunks, s, schedule))
    decreases |schedule|
  {
    if schedule != [] {
      StepInv(chunks, count, s, schedule[0]);
      RunInv(chunks, count, Step(chunks, s, schedule[0]), schedule[1..]);
    }
  }

  ghost predicate Finished(chunks: seq<Chunk>, s: State)
    requires |s.next| == |chunks|
  {
    forall k | 0 <= k < |chunks| :: s.next[k] == chunks[k].end
  }

  lemma {:induction false} TilesContain(chunks: seq<Chunk>, count: nat, i: nat, k: nat)
    requires Tiles(chunks, count) && k < |chunks| && i < chunks[k].end
    ensures exists j :: 0 <= j < |chunks| && InChunk(chunks[j], chunks[j].end, i)
  {
    if chunks[k].begin <= i {
      assert InChunk(chunks[k], chunks[k].end, i);
    } else {
      TilesContain(chunks, count, i, k - 1);
    }
  }

  lemma BelowCount(chunks: seq<Chunk>, count: nat, k: nat)
    requires Tiles(chunks, count) && k < |chunks|
    ensures chunks[k].end <= count
  {
    if k + 1 < |chunks| {
      ChunksIncrease(chunks, count, k, |chunks| - 1);
    }
  }

  lemma FinishedOnce(chunks: seq<Chunk>, count: nat, s: State)
    requires Tiles(chunks, count) && Inv(chunks, s) && Finished(chunks, s)
    ensures forall i: nat :: multiset(s.visited)[i] == if i < count then 1 else 0
  {
    forall i: nat
      ensures Visited(chunks, s.next, i) <==> i < count
    {
      if i < count {
        TilesContain(chunks, count, i, |chunks| - 1);
        var j :| 0 <= j < |chunks| && InChunk(chunks[j], chunks[j].end, i);
        assert InChunk(chunks[j], s.next[j], i);
      }
      if Visited(chunks, s.next, i) {
        var k :| 0 <= k < |chunks| && InChunk(chunks[k], s.next[k], i);
        BelowCount(chunks, count, k);
      }
    }
  }

  /** When all workers have finished, each index in [0, count) was visited exactly once, whatever the schedule. */
  lemma EveryIndexOnce(chunks: seq<Chunk>, count: nat, schedule: seq<nat>) returns (visited: seq<nat>)
    requires Tiles(chunks, count) && Finished(chunks, Run(chunks, Start(chunks), schedule))
    ensures visited == Run(chunks, Start(chunks), schedule).visited
    ensures forall i: nat :: multiset(visited)[i] == if i < count then 1 else 0
  {
    visited := Run(chunks, Start(chunks), schedule).visited;
    RunInv(chunks, count, Start(chunks), schedule);
    FinishedOnce(chunks, count, Run(chunks, Start(chunks), schedule));
  }

  /** The calls still to be made. */
  ghost function Remaining(chunks: seq<Chunk>, next: seq<nat>): int
    requires |next| == |chunks|
  {
    if chunks == [] then 0 else chunks[0].end - next[0] + Remaining(chunks[1..], next[1..])
  }

  lemma {:induction false} OneCallLess(chunks: seq<Chunk>, next: seq<nat>, w: nat)
    requires |next| == |chunks| && w < |chunks|
    ensures Remaining(chunks, next[w := next[w] + 1]) == Remaining(chunks, next) - 1
  {
    if w == 0 {
      assert next[0 := next[0] + 1][1..] == next[1..];
    } else {
      assert next[w := next[w] + 1][1..] == next[1..][w - 1 := next[w] + 1];
      OneCallLess(chunks[1..], next[1..], w - 1);
    }
  }

  lemma {:induction false} NoneLessThanZero(chunks: seq<Chunk>, next: seq<nat>)
    requires |next| == |chunks| && forall k | 0 <= k < |chunks| :: next[k] <= chunks[k].end
    ensures Remaining(chunks, next) >= 0
  {
    if chunks != [] {
      NoneLessThanZero(chunks[1..], next[1..]);
    }
  }
}

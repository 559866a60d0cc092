/**
  The fault event queue: a monitor with a queue and a set of addresses in flight,
  worked by one adder and any number of workers, with threads that wait for it to
  be idle. Each section between taking and releasing the mutex, or waiting on a
  condition, is one step.
 */
module EventQueue {
  import opened Blocks
  import Access

  datatype FaultEvent = FaultEvent(address: nat, isWpFault: bool, isWriteFault: bool)

  /** fault_event::operator<, the order of the in-flight set. */
  predicate Less(a: FaultEvent, b: FaultEvent) {
    a.address < b.address
  }

  /**
    The order is a strict weak order whose ties are equal addresses, so the in-flight
    set is keyed by address alone.
   */
  lemma OrderedByAddress(a: FaultEvent, b: FaultEvent, d: FaultEvent)
    ensures !Less(a, a) && (Less(a, b) && Less(b, d) ==> Less(a, d))
    ensures !Less(a, b) && !Less(b, a) <==> a.address == b.address
  {
  }

  // ---------- The monitor ----------

  /** `processing` is the in-flight set, by address. */
  datatype Monitor = Monitor(queue: seq<FaultEvent>, processing: map<nat, FaultEvent>,
                             waiting: int, maxWaiting: nat, idleWaiters: int)

  function NewMonitor(maxWaiting: nat): Monitor {
    Monitor([], map[], 0, maxWaiting, 0)
  }

  /** Events with address zero tell a worker to stop and are never in flight. std::set::insert keeps an old entry. */
  function Enqueued(m: Monitor, e: FaultEvent): Monitor {
    m.(queue := m.queue + [e],
       processing := if e.address == 0 || e.address in m.processing then m.processing else m.processing[e.address := e])
  }

  predicate IsFound(m: Monitor, e: FaultEvent) {
    e.address in m.processing
  }

  function Removed(m: Monitor, e: FaultEvent): Monitor {
    m.(processing := m.processing - {e.address})
  }

  function Waiting(m: Monitor): Monitor {
    m.(waiting := m.waiting + 1)
  }

  function IdleWaiting(m: Monitor): Monitor {
    m.(idleWaiters := m.idleWaiters + 1)
  }

  function IdleDone(m: Monitor): Monitor {
    m.(idleWaiters := m.idleWaiters - 1)
  }

  /** What wait_for_idle waits for: nothing queued, and every worker waiting. */
  predicate IsIdle(m: Monitor) {
    m.queue == [] && m.waiting == m.maxWaiting
  }

  /** A worker that finds the queue empty signals the idle condition, if that holds now and somebody waits for it. */
  predicate SignalsIdle(m: Monitor) {
    IsIdle(m) && m.idleWaiters != 0
  }

  /** The front of the queue goes to a worker that was counted as waiting. */
  function Taken(m: Monitor): (r: (Monitor, FaultEvent))
    requires m.queue != []
  {
    (m.(queue := m.queue[1..], waiting := m.waiting - 1), m.queue[0])
  }

  /**
    The monitor as the object it is. A dequeue that finds the queue empty waits, and
    runs `AfterWait` when it wakes; `signalled` tells whether it signalled the idle
    condition first. wait_for_idle waits likewise while the queue is not idle.
   */
  class Queue {
    const maxWaiting: nat
    var queue: seq<FaultEvent>
    var processing: map<nat, FaultEvent>
    var waitingWorkers: int
    var idleWaiters: int

    ghost function State(): Monitor
      reads this
    {
      Monitor(queue, processing, waitingWorkers, maxWaiting, idleWaiters)
    }

    constructor (maxWorkers: nat)
      ensures State() == NewMonitor(maxWorkers)
      ensures queue == [] && processing == map[] && waitingWorkers == 0 && idleWaiters == 0 && maxWaiting == maxWorkers
    {
      maxWaiting := maxWorkers;
      queue, processing, waitingWorkers, idleWaiters := [], map[], 0, 0;
    }

    method Enqueue(item: FaultEvent)
      modifies this
      ensures State() == Enqueued(old(State()), item)
      ensures queue == old(queue) + [item]
      ensures processing.Keys == old(processing).Keys + (if item.address == 0 then {} else {item.address})
      ensures forall a | a in old(processing) :: processing[a] == old(processing)[a]
      ensures waitingWorkers == old(waitingWorkers) && idleWaiters == old(idleWaiters)
    {
      queue := queue + [item];
      if item.address != 0 && item.address !in processing {
        processing := processing[item.address := item];
      }
    }

    method Found(item: FaultEvent) returns (found: bool)
      ensures found == IsFound(State(), item)
      ensures found <==> item.address in processing
    {
      found := item.address in processing;
    }

    method RemoveProcessed(item: FaultEvent)
      modifies this
      ensures State() == Removed(old(State()), item)
      ensures item.address !in processing && processing.Keys == old(processing).Keys - {item.address}
      ensures forall a | a in processing :: processing[a] == old(processing)[a]
      ensures queue == old(queue) && waitingWorkers == old(waitingWorkers) && idleWaiters == old(idleWaiters)
    {
      processing := processing - {item.address};
    }

    method Dequeue() returns (item: Option<FaultEvent>, signalled: bool)
      modifies this
      ensures item.None? <==> old(queue) == []
      ensures item.None? ==> State() == Waiting(old(State()))
      ensures item.Some? ==> (State(), item.value) == Taken(Waiting(old(State())))
      ensures signalled <==> item.None? && SignalsIdle(Waiting(old(State())))
      ensures item.Some? ==> [item.value] + queue == old(queue) && waitingWorkers == old(waitingWorkers)
      ensures item.None? ==> queue == [] && waitingWorkers == old(waitingWorkers) + 1
      ensures processing == old(processing) && idleWaiters == old(idleWaiters)
    {
      waitingWorkers := waitingWorkers + 1;
      item, signalled := AfterWait();
    }

    method AfterWait() returns (item: Option<FaultEvent>, signalled: bool)
      modifies this
      ensures item.None? <==> old(queue) == []
      ensures item.None? ==> State() == old(State())
      ensures item.Some? ==> (State(), item.value) == Taken(old(State()))
      ensures signalled <==> item.None? && SignalsIdle(old(State()))
      ensures item.Some? ==> [item.value] + queue == old(queue) && waitingWorkers == old(waitingWorkers) - 1
      ensures item.None? ==> queue == [] && waitingWorkers == old(waitingWorkers)
      ensures processing == old(processing) && idleWaiters == old(idleWaiters)
    {
      if |queue| == 0 {
        signalled := waitingWorkers == maxWaiting && idleWaiters != 0;
        return None, signalled;
      }
      waitingWorkers := waitingWorkers - 1;
      item := Some(queue[0]);
      queue := queue[1..];
      signalled := false;
    }

    method WaitForIdle() returns (idle: bool)
      modifies this
      ensures idle <==> IsIdle(old(State()))
      ensures State() == if idle then old(State()) else IdleWaiting(old(State()))
      ensures idle <==> queue == [] && waitingWorkers == maxWaiting
      ensures idleWaiters == old(idleWaiters) + if idle then 0 else 1
      ensures queue == old(queue) && processing == old(processing) && waitingWorkers == old(waitingWorkers)
    {
      idleWaiters := idleWaiters + 1;
      idle := AfterIdleWait();
    }

    method AfterIdleWait() returns (idle: bool)
      modifies this
      ensures idle <==> IsIdle(old(State()))
      ensures State() == if idle then IdleDone(old(State())) else old(State())
      ensures idle <==> queue == [] && waitingWorkers == maxWaiting
      ensures idleWaiters == old(idleWaiters) - if idle then 1 else 0
      ensures queue == old(queue) && processing == old(processing) && waitingWorkers == old(waitingWorkers)
    {
      idle := |queue| == 0 && waitingWorkers == maxWaiting;
      if idle {
        idleWaiters := idleWaiters - 1;
      }
    }
  }

  /** add_page_fault_event: a fault is routed by its block to one of the queues. */
  function QueueOf(startAddress: nat, blockSize: nat, queues: nat, address: nat): (q: nat)
    requires blockSize > 0 && queues > 0 && startAddress <= address
    ensures q < queues
  {
    (address - startAddress) / blockSize % queues
  }

  /** All addresses of a block go to one queue, and the blocks to the queues in turn. */
  lemma QueueOfBlock(startAddress: nat, blockSize: nat, queues: nat, b: nat, r: nat)
    requires blockSize > 0 && queues > 0 && r < blockSize
    ensures startAddress <= startAddress + b * blockSize + r
    ensures QueueOf(startAddress, blockSize, queues, startAddress + b * blockSize + r) == b % queues
  {
    Access.QuotientUnique(b * blockSize + r, blockSize, b);
  }

  method AddPageFaultEvent(queues: seq<Queue>, startAddress: nat, blockSize: nat, e: FaultEvent)
    requires queues != [] && blockSize > 0 && startAddress <= e.address
    modifies queues[QueueOf(startAddress, blockSize, |queues|, e.address)]
    ensures var q := queues[QueueOf(startAddress, blockSize, |queues|, e.address)];
            && q.State() == (if IsFound(old(q.State()), e) then old(q.State()) else Enqueued(old(q.State()), e))
            && q.queue == old(q.queue) + if e.address in old(q.processing) then [] else [e]
  {
    var subRegionIndex := QueueOf(startAddress, blockSize, |queues|, e.address);
    var found := queues[subRegionIndex].Found(e);
    if !found {
      queues[subRegionIndex].Enqueue(e);
    }
  }

  // ---------- Interleavings ----------

  /**
    A worker: outside the queue, waiting on the condition, signalled but not yet
    rechecking, or working on an event.
   */
  datatype Worker = Outside | Blocked | Woken | Holding(event: FaultEvent)

  /** A thread in wait_for_idle: away, waiting on the idle condition, or signalled but not yet rechecking. */
  datatype Idler = Away | Parked | Roused

  /**
    The system, with the history of what went in and what came out. `checked`: the
    adder saw this event not in flight. `abandoned`: the addresses whose worker came
    back for the next event without removing them.
   */
  datatype System = System(m: Monitor, workers: seq<Worker>, idlers: seq<Idler>, checked: Option<FaultEvent>,
                           enqueued: seq<FaultEvent>, dequeued: seq<FaultEvent>, abandoned: set<nat>)

  /**
    `wakes` and `rouses` are the worker and the idler pthread_cond_signal wakes;
    further wake-ups are spurious ones.
   */
  datatype Step =
    | Check(e: FaultEvent)
    | AddChecked(wakes: nat)
    | AddStop(wakes: nat)
    | StartDequeue(w: nat, rouses: nat)
    | Recheck(w: nat, rouses: nat)
    | SpuriousWake(w: nat)
    | RemoveProcessed(w: nat)
    | StartIdle(i: nat)
    | RecheckIdle(i: nat)
    | SpuriousRouse(i: nat)

  function Start(workers: nat, idlers: nat): System {
    System(NewMonitor(workers), seq(workers, _ => Outside), seq(idlers, _ => Away), None, [], [], {})
  }

  predicate SignalOk(s: System, wakes: nat) {
    (wakes < |s.workers| && s.workers[wakes] == Blocked) || forall w | 0 <= w < |s.workers| :: s.workers[w] != Blocked
  }

  predicate RouseOk(s: System, rouses: nat) {
    (rouses < |s.idlers| && s.idlers[rouses] == Parked) || forall i | 0 <= i < |s.idlers| :: s.idlers[i] != Parked
  }

  predicate Enabled(s: System, step: Step) {
    match step
    case Check(_) => s.checked.None?
    case AddChecked(wakes) => s.checked.Some? && SignalOk(s, wakes)
    case AddStop(wakes) => SignalOk(s, wakes)
    case StartDequeue(w, rouses) =>
      w < |s.workers| && (s.workers[w] == Outside || s.workers[w].Holding?) && RouseOk(s, rouses)
    case Recheck(w, rouses) => w < |s.workers| && s.workers[w] == Woken && RouseOk(s, rouses)
    case SpuriousWake(w) => w < |s.workers| && s.workers[w] == Blocked
    case RemoveProcessed(w) => w < |s.workers| && s.workers[w].Holding?
    case StartIdle(i) => i < |s.idlers| && s.idlers[i] == Away
    case RecheckIdle(i) => i < |s.idlers| && s.idlers[i] == Roused
    case SpuriousRouse(i) => i < |s.idlers| && s.idlers[i] == Parked
  }

  function Signalled(workers: seq<Worker>, wakes: nat): seq<Worker> {
    if wakes < |workers| && workers[wakes] == Blocked then workers[wakes := Woken] else workers
  }

  function RousedBy(idlers: seq<Idler>, rouses: nat): seq<Idler> {
    if rouses < |idlers| && idlers[rouses] == Parked then idlers[rouses := Roused] else idlers
  }

  function Add(s: System, e: FaultEvent, wakes: nat): System {
    s.(m := Enqueued(s.m, e), workers := Signalled(s.workers, wakes), enqueued := s.enqueued + [e])
  }

  /** A worker comes for the next event, and is counted as waiting. */
  function Arrive(s: System, w: nat): System
    requires w < |s.workers|
  {
    s.(m := Waiting(s.m),
       abandoned := s.abandoned + if s.workers[w].Holding? && s.workers[w].event.address != 0
                                  then {s.workers[w].event.address} else {})
  }

  /** The body of dequeue's loop: wait when the queue is empty, else take its front. */
  function TakeOrBlock(s: System, w: nat, rouses: nat): System
    requires w < |s.workers|
  {
    if s.m.queue == [] then
      s.(workers := s.workers[w := Blocked],
         idlers := if SignalsIdle(s.m) then RousedBy(s.idlers, rouses) else s.idlers)
    else
      var (m, e) := Taken(s.m);
      s.(m := m, workers := s.workers[w := Holding(e)], dequeued := s.dequeued + [e])
  }

  /** The body of wait_for_idle's loop. */
  function LeaveOrPark(s: System, i: nat): System
    requires i < |s.idlers|
  {
    if IsIdle(s.m) then s.(m := IdleDone(s.m), idlers := s.idlers[i := Away])
    else s.(idlers := s.idlers[i := Parked])
  }

  /** A worker may come back for the next event without having removed its last one. */
  function Next(s: System, step: Step): System
    requires Enabled(s, step)
  {
    match step
    case Check(e) => if IsFound(s.m, e) then s else s.(checked := Some(e))
    case AddChecked(wakes) => Add(s, s.checked.value, wakes).(checked := None)
    case AddStop(wakes) => Add(s, FaultEvent(0, false, false), wakes)
    case StartDequeue(w, rouses) => TakeOrBlock(Arrive(s, w), w, rouses)
    case Recheck(w, rouses) => TakeOrBlock(s, w, rouses)
    case SpuriousWake(w) => s.(workers := s.workers[w := Woken])
    case RemoveProcessed(w) =>
      s.(m := Removed(s.m, s.workers[w].event), workers := s.workers[w := Outside])
    case StartIdle(i) => LeaveOrPark(s.(m := IdleWaiting(s.m)), i)
    case RecheckIdle(i) => LeaveOrPark(s, i)
    case SpuriousRouse(i) => s.(idlers := s.idlers[i := Roused])
  }

  // ---------- Invariant ----------

  ghost function CountWaiting(workers: seq<Worker>): nat {
    if workers == [] then 0
    else CountWaiting(workers[1..]) + if workers[0].Blocked? || workers[0].Woken? then 1 else 0
  }

  ghost function CountWoken(workers: seq<Worker>): nat {
    if workers == [] then 0 else CountWoken(workers[1..]) + if workers[0].Woken? then 1 else 0
  }

  lemma {:induction false} CountUpdate(workers: seq<Worker>, w: nat, x: Worker)
    requires w < |workers|
    ensures CountWaiting(workers[w := x]) + (if workers[w].Blocked? || workers[w].Woken? then 1 else 0)
            == CountWaiting(workers) + (if x.Blocked? || x.Woken? then 1 else 0)
    ensures CountWoken(workers[w := x]) + (if workers[w].Woken? then 1 else 0)
            == CountWoken(workers) + (if x.Woken? then 1 else 0)
  {
    if w == 0 {
      assert workers[0 := x][1..] == workers[1..];
    } else {
      assert workers[w := x][1..] == workers[1..][w - 1 := x];
      CountUpdate(workers[1..], w - 1, x);
    }
  }

  ghost predicate SomeBlocked(workers: seq<Worker>) {
    exists w :: 0 <= w < |workers| && workers[w] == Blocked
  }

  /** First in, first out; every waiting worker counted; and no event left behind by a missed wake-up. */
  ghost predicate QueueOk(s: System) {
    && s.dequeued + s.m.queue == s.enqueued
    && s.m.waiting == CountWaiting(s.workers)
    && (SomeBlocked(s.workers) ==> |s.m.queue| <= CountWoken(s.workers))
  }

  predicate Clash(a: FaultEvent, b: FaultEvent) {
    a.address == b.address && a.address != 0
  }

  predicate InFlight(m: Monitor, e: FaultEvent) {
    e.address == 0 || e.address in m.processing
  }

  /** Every queued event is in flight, and no two of them clash. */
  ghost predicate QueuedOk(s: System) {
    && (forall i | 0 <= i < |s.m.queue| :: InFlight(s.m, s.m.queue[i]))
    && (forall i, j | 0 <= i < j < |s.m.queue| :: !Clash(s.m.queue[i], s.m.queue[j]))
  }

  predicate Holds(s: System, w: nat, e: FaultEvent) {
    w < |s.workers| && s.workers[w] == Holding(e)
  }

  /** Every event a worker has is in flight, and clashes with no other event that is queued or that a worker has. */
  ghost predicate HeldOk(s: System) {
    && (forall w, e | Holds(s, w, e) :: InFlight(s.m, e))
    && (forall w, e, i | Holds(s, w, e) && 0 <= i < |s.m.queue| :: !Clash(s.m.queue[i], e))
    && (forall v, w, e, f | Holds(s, v, e) && Holds(s, w, f) && v != w :: !Clash(e, f))
  }

  /** No fault address is queued twice or queued while a worker has it, and each is in flight until removed. */
  ghost predicate InFlightOk(s: System) {
    && QueuedOk(s) && HeldOk(s) && 0 !in s.m.processing
    && (s.checked.Some? ==> s.checked.value.address !in s.m.processing)
  }

  lemma SignalKeepsUp(s: System, e: FaultEvent, wakes: nat)
    requires QueueOk(s) && SignalOk(s, wakes)
    ensures QueueOk(Add(s, e, wakes))
  {
    var s' := Add(s, e, wakes);
    assert s.dequeued + (s.m.queue + [e]) == (s.dequeued + s.m.queue) + [e];
    if wakes < |s.workers| && s.workers[wakes] == Blocked {
      CountUpdate(s.workers, wakes, Woken);
      assert SomeBlocked(s.workers);
    } else {
      assert !SomeBlocked(s'.workers);
    }
  }

  lemma TakeKeepsUp(s: System, w: nat, rouses: nat)
    requires w < |s.workers|
    requires s.dequeued + s.m.queue == s.enqueued
    requires SomeBlocked(s.workers) ==> |s.m.queue| <= CountWoken(s.workers)
    requires s.workers[w] != Blocked
    requires s.m.waiting == CountWaiting(s.workers) + if s.workers[w] == Woken then 0 else 1
    ensures QueueOk(TakeOrBlock(s, w, rouses))
  {
    if s.m.queue == [] {
      CountUpdate(s.workers, w, Blocked);
    } else {
      var e := s.m.queue[0];
      CountUpdate(s.workers, w, Holding(e));
      assert s.dequeued + s.m.queue == (s.dequeued + [e]) + s.m.queue[1..];
      var s' := TakeOrBlock(s, w, rouses);
      if SomeBlocked(s'.workers) {
        var b :| 0 <= b < |s'.workers| && s'.workers[b] == Blocked;
        assert s.workers[b] == Blocked;
      }
    }
  }

  lemma StepKeepsQueue(s: System, step: Step)
    requires QueueOk(s) && Enabled(s, step)
    ensures QueueOk(Next(s, step))
  {
    match step
    case Check(_) =>
    case AddChecked(wakes) => SignalKeepsUp(s, s.checked.value, wakes);
    case AddStop(wakes) => SignalKeepsUp(s, FaultEvent(0, false, false), wakes);
    case StartDequeue(w, rouses) => TakeKeepsUp(Arrive(s, w), w, rouses);
    case Recheck(w, rouses) => TakeKeepsUp(s, w, rouses);
    case SpuriousWake(w) =>
      CountUpdate(s.workers, w, Woken);
      assert SomeBlocked(s.workers);
    case RemoveProcessed(w) =>
      CountUpdate(s.workers, w, Outside);
      if SomeBlocked(Next(s, step).workers) {
        var b :| 0 <= b < |s.workers| && Next(s, step).workers[b] == Blocked;
        assert s.workers[b] == Blocked;
      }
    case StartIdle(_) =>
    case RecheckIdle(_) =>
    case SpuriousRouse(_) =>
  }

  // ---------- In flight, step by step ----------

  lemma AddKeepsQueued(s: System, e: FaultEvent, wakes: nat)
    requires QueuedOk(s) && e.address !in s.m.processing && 0 !in s.m.processing
    ensures QueuedOk(Add(s, e, wakes))
  {
    var s' := Add(s, e, wakes);
    forall i, j | 0 <= i < j < |s'.m.queue|
      ensures !Clash(s'.m.queue[i], s'.m.queue[j])
    {
      assert InFlight(s.m, s.m.queue[i]);
    }
  }

  lemma AddKeepsHeld(s: System, e: FaultEvent, wakes: nat)
    requires HeldOk(s) && e.address !in s.m.processing
    ensures HeldOk(Add(s, e, wakes))
  {
    var s' := Add(s, e, wakes);
    forall w, f
      ensures Holds(s', w, f) <==> Holds(s, w, f)
    {
    }
  }

  lemma TakeKeepsQueued(s: System, w: nat, rouses: nat)
    requires QueuedOk(s) && w < |s.workers|
    ensures QueuedOk(TakeOrBlock(s, w, rouses))
  {
  }

  lemma TakeKeepsHeld(s: System, w: nat, rouses: nat)
    requires QueuedOk(s) && HeldOk(s) && w < |s.workers|
    ensures HeldOk(TakeOrBlock(s, w, rouses))
  {
    var s' := TakeOrBlock(s, w, rouses);
    forall v, f
      ensures Holds(s', v, f) ==> Holds(s, v, f) || (v == w && s.m.queue != [] && f == s.m.queue[0])
    {
    }
  }

  lemma RemoveKeepsQueued(s: System, w: nat, e: FaultEvent)
    requires QueuedOk(s) && HeldOk(s) && Holds(s, w, e)
    ensures QueuedOk(Next(s, RemoveProcessed(w)))
  {
  }

  lemma RemoveKeepsHeld(s: System, w: nat, e: FaultEvent)
    requires HeldOk(s) && Holds(s, w, e)
    ensures HeldOk(Next(s, RemoveProcessed(w)))
  {
    var s' := Next(s, RemoveProcessed(w));
    forall v, f
      ensures Holds(s', v, f) ==> Holds(s, v, f) && v != w
    {
    }
  }

  lemma SameHeld(s: System, s': System)
    requires InFlightOk(s) && s'.m.queue == s.m.queue && s'.m.processing == s.m.processing
    requires forall w, e :: Holds(s', w, e) ==> Holds(s, w, e)
    requires s'.checked.Some? ==> s'.checked.value.address !in s'.m.processing
    ensures InFlightOk(s')
  {
  }

  lemma StepKeepsInFlight(s: System, step: Step)
    requires InFlightOk(s) && Enabled(s, step)
    ensures InFlightOk(Next(s, step))
  {
    match step
    case Check(_) => SameHeld(s, Next(s, step));
    case AddChecked(wakes) =>
      var unchecked := s.(checked := None);
      SameHeld(s, unchecked);
      AddKeepsQueued(unchecked, s.checked.value, wakes);
      AddKeepsHeld(unchecked, s.checked.value, wakes);
      assert Next(s, step) == Add(unchecked, s.checked.value, wakes);
    case AddStop(wakes) =>
      AddKeepsQueued(s, FaultEvent(0, false, false), wakes);
      AddKeepsHeld(s, FaultEvent(0, false, false), wakes);
    case StartDequeue(w, rouses) =>
      TakeKeepsQueued(Arrive(s, w), w, rouses);
      SameHeld(s, Arrive(s, w));
      TakeKeepsHeld(Arrive(s, w), w, rouses);
    case Recheck(w, rouses) =>
      TakeKeepsQueued(s, w, rouses);
      TakeKeepsHeld(s, w, rouses);
    case SpuriousWake(_) => SameHeld(s, Next(s, step));
    case RemoveProcessed(w) =>
      RemoveKeepsQueued(s, w, s.workers[w].event);
      RemoveKeepsHeld(s, w, s.workers[w].event);
    case StartIdle(_) => SameHeld(s, Next(s, step));
    case RecheckIdle(_) => SameHeld(s, Next(s, step));
    case SpuriousRouse(_) => SameHeld(s, Next(s, step));
  }

  // ---------- What is in flight, exactly ----------

  ghost predicate IsQueued(s: System, a: nat) {
    exists i :: 0 <= i < |s.m.queue| && s.m.queue[i].address == a
  }

  ghost predicate IsHeld(s: System, a: nat) {
    exists w, e :: Holds(s, w, e) && e.address == a
  }

  /** Every address in flight is queued, or a worker has it, or its worker abandoned it. */
  ghost predicate Accounted(s: System) {
    forall a | a in s.m.processing :: IsQueued(s, a) || IsHeld(s, a) || a in s.abandoned
  }

  /** An abandoned address is in flight, is not queued, and no worker has it. */
  ghost predicate AbandonedOk(s: System) {
    forall a | a in s.abandoned :: a in s.m.processing && !IsQueued(s, a) && !IsHeld(s, a)
  }

  lemma AddAccounted(s: System, e: FaultEvent, wakes: nat, a: nat)
    requires Accounted(s) && a in Add(s, e, wakes).m.processing
    ensures var t := Add(s, e, wakes); IsQueued(t, a) || IsHeld(t, a) || a in t.abandoned
  {
    var t := Add(s, e, wakes);
    if a !in s.m.processing {
      assert t.m.queue[|s.m.queue|].address == a;
    } else if IsQueued(s, a) {
      var i :| 0 <= i < |s.m.queue| && s.m.queue[i].address == a;
      assert t.m.queue[i].address == a;
    } else if IsHeld(s, a) {
      var w, f :| Holds(s, w, f) && f.address == a;
      assert Holds(t, w, f);
    }
  }

  /** Worker w, which has no event or has just abandoned it, takes one or blocks. */
  lemma TakeAccounted(s: System, w: nat, rouses: nat, a: nat)
    requires w < |s.workers| && a in s.m.processing
    requires IsQueued(s, a) || a in s.abandoned || exists v, e :: v != w && Holds(s, v, e) && e.address == a
    ensures var t := TakeOrBlock(s, w, rouses); IsQueued(t, a) || IsHeld(t, a) || a in t.abandoned
  {
    var t := TakeOrBlock(s, w, rouses);
    if IsQueued(s, a) {
      var i :| 0 <= i < |s.m.queue| && s.m.queue[i].address == a;
      if i == 0 {
        assert Holds(t, w, s.m.queue[0]);
      } else {
        assert t.m.queue[i - 1].address == a;
      }
    } else if a !in s.abandoned {
      var v, e :| v != w && Holds(s, v, e) && e.address == a;
      assert Holds(t, v, e);
    }
  }

  lemma RemoveAccounted(s: System, w: nat, a: nat)
    requires Accounted(s) && w < |s.workers| && s.workers[w].Holding? && a in Next(s, RemoveProcessed(w)).m.processing
    ensures var t := Next(s, RemoveProcessed(w)); IsQueued(t, a) || IsHeld(t, a) || a in t.abandoned
  {
    var t := Next(s, RemoveProcessed(w));
    if IsQueued(s, a) {
      var i :| 0 <= i < |s.m.queue| && s.m.queue[i].address == a;
      assert t.m.queue[i].address == a;
    } else if IsHeld(s, a) {
      var v, e :| Holds(s, v, e) && e.address == a;
      assert v != w && Holds(t, v, e);
    }
  }

  lemma SameAccounted(s: System, t: System)
    requires Accounted(s) && t.m.queue == s.m.queue && t.m.processing == s.m.processing && t.abandoned == s.abandoned
    requires forall w, e :: Holds(s, w, e) ==> Holds(t, w, e)
    ensures Accounted(t)
  {
    forall a | a in t.m.processing
      ensures IsQueued(t, a) || IsHeld(t, a) || a in t.abandoned
    {
      if IsQueued(s, a) {
        var i :| 0 <= i < |s.m.queue| && s.m.queue[i].address == a;
        assert t.m.queue[i].address == a;
      } else if IsHeld(s, a) {
        var w, e :| Holds(s, w, e) && e.address == a;
        assert Holds(t, w, e);
      }
    }
  }

  lemma DequeueAccounted(s: System, w: nat, rouses: nat)
    requires Accounted(s) && InFlightOk(s) && Enabled(s, StartDequeue(w, rouses))
    ensures Accounted(Next(s, StartDequeue(w, rouses)))
  {
    var r := Arrive(s, w);
    forall a | a in Next(s, StartDequeue(w, rouses)).m.processing
      ensures var t := Next(s, StartDequeue(w, rouses)); IsQueued(t, a) || IsHeld(t, a) || a in t.abandoned
    {
      if IsQueued(s, a) {
        var i :| 0 <= i < |s.m.queue| && s.m.queue[i].address == a;
        assert r.m.queue[i].address == a;
      } else if IsHeld(s, a) {
        var v, e :| Holds(s, v, e) && e.address == a;
        assert Holds(r, v, e);
      }
      TakeAccounted(r, w, rouses, a);
    }
  }

  lemma RecheckAccounted(s: System, w: nat, rouses: nat)
    requires Accounted(s) && Enabled(s, Recheck(w, rouses))
    ensures Accounted(Next(s, Recheck(w, rouses)))
  {
    forall a | a in Next(s, Recheck(w, rouses)).m.processing
      ensures var t := Next(s, Recheck(w, rouses)); IsQueued(t, a) || IsHeld(t, a) || a in t.abandoned
    {
      TakeAccounted(s, w, rouses, a);
    }
  }

  lemma StepAccounted(s: System, step: Step)
    requires Accounted(s) && InFlightOk(s) && Enabled(s, step)
    ensures Accounted(Next(s, step))
  {
    var t := Next(s, step);
    match step
    case Check(_) => SameAccounted(s, t);
    case AddChecked(wakes) =>
      forall a | a in t.m.processing
        ensures IsQueued(t, a) || IsHeld(t, a) || a in t.abandoned
      {
        var unchecked := s.(checked := None);
        SameAccounted(s, unchecked);
        AddAccounted(unchecked, s.checked.value, wakes, a);
        assert t == Add(unchecked, s.checked.value, wakes);
      }
    case AddStop(wakes) =>
      forall a | a in t.m.processing
        ensures IsQueued(t, a) || IsHeld(t, a) || a in t.abandoned
      {
        AddAccounted(s, FaultEvent(0, false, false), wakes, a);
      }
    case StartDequeue(w, rouses) => DequeueAccounted(s, w, rouses);
    case Recheck(w, rouses) => RecheckAccounted(s, w, rouses);
    case RemoveProcessed(w) =>
      forall a | a in t.m.processing
        ensures IsQueued(t, a) || IsHeld(t, a) || a in t.abandoned
      {
        RemoveAccounted(s, w, a);
      }
    case SpuriousWake(_) => SameAccounted(s, t);
    case StartIdle(_) => SameAccounted(s, t);
    case RecheckIdle(_) => SameAccounted(s, t);
    case SpuriousRouse(_) => SameAccounted(s, t);
  }

  /** What a step can bring on the queue or to a worker, for an address that is abandoned or about to be. */
  lemma StepAbandoned(s: System, step: Step, a: nat)
    requires AbandonedOk(s) && InFlightOk(s) && Enabled(s, step) && a in Next(s, step).abandoned
    ensures var t := Next(s, step); a in t.m.processing && !IsQueued(t, a) && !IsHeld(t, a)
  {
    var t := Next(s, step);
    if a in s.abandoned {
      OldAbandoned(s, step, a);
    } else {
      var w := step.w;
      var e := s.workers[w].event;
      assert Holds(s, w, e);
      NewAbandoned(s, w, step.rouses, e);
    }
  }

  /** An event a worker has after a step it had before, or was the front of the queue. */
  lemma HeldAfter(s: System, step: Step, v: nat, f: FaultEvent)
    requires Enabled(s, step) && Holds(Next(s, step), v, f)
    ensures Holds(s, v, f) || (s.m.queue != [] && f == s.m.queue[0])
    ensures step.StartDequeue? && v == step.w ==> s.m.queue != [] && f == s.m.queue[0]
  {
  }

  lemma OldAbandoned(s: System, step: Step, a: nat)
    requires AbandonedOk(s) && InFlightOk(s) && Enabled(s, step) && a in s.abandoned
    ensures var t := Next(s, step); a in t.m.processing && !IsQueued(t, a) && !IsHeld(t, a)
  {
    var t := Next(s, step);
    assert a != 0;
    if step.RemoveProcessed? {
      assert Holds(s, step.w, s.workers[step.w].event);
    }
    forall v, f | Holds(t, v, f)
      ensures f.address != a
    {
      HeldAfter(s, step, v, f);
    }
  }

  lemma NewAbandoned(s: System, w: nat, rouses: nat, e: FaultEvent)
    requires InFlightOk(s) && Enabled(s, StartDequeue(w, rouses)) && Holds(s, w, e) && e.address != 0
    ensures var t := Next(s, StartDequeue(w, rouses));
            e.address in t.m.processing && !IsQueued(t, e.address) && !IsHeld(t, e.address)
  {
    var t := Next(s, StartDequeue(w, rouses));
    forall i | 0 <= i < |s.m.queue|
      ensures s.m.queue[i].address != e.address
    {
      assert !Clash(s.m.queue[i], e);
    }
    forall v, f | Holds(t, v, f)
      ensures f.address != e.address
    {
      HeldAfter(s, StartDequeue(w, rouses), v, f);
      assert !Clash(f, e);
    }
  }

  lemma StepAbandonedOk(s: System, step: Step)
    requires AbandonedOk(s) && InFlightOk(s) && Enabled(s, step)
    ensures AbandonedOk(Next(s, step)) && s.abandoned <= Next(s, step).abandoned
  {
    forall a | a in Next(s, step).abandoned
      ensures var t := Next(s, step); a in t.m.processing && !IsQueued(t, a) && !IsHeld(t, a)
    {
      StepAbandoned(s, step, a);
    }
  }

  // ---------- Waiting for idle ----------

  ghost function CountIdlers(idlers: seq<Idler>): nat {
    if idlers == [] then 0 else CountIdlers(idlers[1..]) + if idlers[0] == Away then 0 else 1
  }

  lemma {:induction false} CountIdlerUpdate(idlers: seq<Idler>, i: nat, x: Idler)
    requires i < |idlers|
    ensures CountIdlers(idlers[i := x]) + (if idlers[i] == Away then 0 else 1)
            == CountIdlers(idlers) + (if x == Away then 0 else 1)
  {
    if i == 0 {
      assert idlers[0 := x][1..] == idlers[1..];
    } else {
      assert idlers[i := x][1..] == idlers[1..][i - 1 := x];
      CountIdlerUpdate(idlers[1..], i - 1, x);
    }
  }

  lemma {:induction false} SomeIdler(idlers: seq<Idler>, i: nat)
    requires i < |idlers| && idlers[i] != Away
    ensures CountIdlers(idlers) > 0
  {
    if i > 0 {
      SomeIdler(idlers[1..], i - 1);
    }
  }

  lemma {:induction false} WaitingBound(workers: seq<Worker>)
    ensures CountWaiting(workers) <= |workers|
  {
    if workers != [] {
      WaitingBound(workers[1..]);
    }
  }

  /** Idlers are counted. */
  ghost predicate IdlersOk(s: System) {
    s.m.idleWaiters == CountIdlers(s.idlers) && s.m.maxWaiting == |s.workers|
  }

  lemma StepKeepsIdlers(s: System, step: Step)
    requires IdlersOk(s) && Enabled(s, step)
    ensures IdlersOk(Next(s, step))
  {
    match step
    case StartDequeue(_, rouses) =>
      if rouses < |s.idlers| {
        CountIdlerUpdate(s.idlers, rouses, Roused);
      }
    case Recheck(_, rouses) =>
      if rouses < |s.idlers| {
        CountIdlerUpdate(s.idlers, rouses, Roused);
      }
    case StartIdle(i) =>
      CountIdlerUpdate(s.idlers, i, Away);
      CountIdlerUpdate(s.idlers, i, Parked);
    case RecheckIdle(i) =>
      CountIdlerUpdate(s.idlers, i, Away);
      CountIdlerUpdate(s.idlers, i, Parked);
    case SpuriousRouse(i) => CountIdlerUpdate(s.idlers, i, Roused);
    case _ =>
  }

  /** No thread waits on the idle condition while the queue is idle. */
  ghost predicate NoneForgotten(s: System) {
    IsIdle(s.m) ==> forall i | 0 <= i < |s.idlers| :: s.idlers[i] != Parked
  }

  /** At most one thread waits for idle, or there is no worker to be idle. */
  predicate FewIdlers(s: System) {
    |s.idlers| <= 1 || |s.workers| == 0
  }

  lemma BlockRouses(s: System, w: nat, rouses: nat)
    requires IdlersOk(s) && |s.idlers| <= 1 && w < |s.workers| && RouseOk(s, rouses) && s.m.queue == []
    ensures NoneForgotten(TakeOrBlock(s, w, rouses))
  {
    if |s.idlers| == 1 && s.idlers[0] != Away {
      SomeIdler(s.idlers, 0);
    }
  }

  /** After taking an event the worker is not waiting, so the queue is not idle. */
  lemma TakeIsNotIdle(s: System, w: nat, rouses: nat)
    requires w < |s.workers| && s.m.maxWaiting == |s.workers| && s.m.queue != []
    requires QueueOk(TakeOrBlock(s, w, rouses))
    ensures !IsIdle(TakeOrBlock(s, w, rouses).m)
  {
    var s' := TakeOrBlock(s, w, rouses);
    CountUpdate(s'.workers, w, Blocked);
    WaitingBound(s'.workers[w := Blocked]);
  }

  lemma TakeForgetsNone(s: System, w: nat, rouses: nat)
    requires IdlersOk(s) && |s.idlers| <= 1 && w < |s.workers| && RouseOk(s, rouses)
    requires QueueOk(TakeOrBlock(s, w, rouses))
    ensures NoneForgotten(TakeOrBlock(s, w, rouses))
  {
    if s.m.queue == [] {
      BlockRouses(s, w, rouses);
    } else {
      TakeIsNotIdle(s, w, rouses);
    }
  }

  lemma StepForgetsNone(s: System, step: Step)
    requires QueueOk(s) && IdlersOk(s) && Enabled(s, step) && FewIdlers(s) && NoneForgotten(s)
    ensures NoneForgotten(Next(s, step))
  {
    StepKeepsQueue(s, step);
    match step
    case StartDequeue(w, rouses) => TakeForgetsNone(Arrive(s, w), w, rouses);
    case Recheck(w, rouses) => TakeForgetsNone(s, w, rouses);
    case _ =>
  }

  // ---------- Main results ----------

  ghost predicate ValidRun(s: System, steps: seq<Step>)
    decreases |steps|
  {
    steps == [] ||
    (Enabled(s, steps[0]) && ValidRun(Next(s, steps[0]), steps[1..]))
  }

  ghost function Run(s: System, steps: seq<Step>): System
    requires ValidRun(s, steps)
    decreases |steps|
  {
    if steps == [] then s else Run(Next(s, steps[0]), steps[1..])
  }

  lemma {:induction false} RunKeeps(s: System, steps: seq<Step>)
    requires ValidRun(s, steps) && QueueOk(s) && InFlightOk(s)
    ensures QueueOk(Run(s, steps)) && InFlightOk(Run(s, steps))
    decreases |steps|
  {
    if steps != [] {
      StepKeepsQueue(s, steps[0]);
      StepKeepsInFlight(s, steps[0]);
      RunKeeps(Next(s, steps[0]), steps[1..]);
    }
  }

  lemma {:induction false} RunAccounted(s: System, steps: seq<Step>)
    requires ValidRun(s, steps) && InFlightOk(s) && Accounted(s) && AbandonedOk(s)
    ensures var t := Run(s, steps); InFlightOk(t) && Accounted(t) && AbandonedOk(t) && s.abandoned <= t.abandoned
    decreases |steps|
  {
    if steps != [] {
      StepKeepsInFlight(s, steps[0]);
      StepAccounted(s, steps[0]);
      StepAbandonedOk(s, steps[0]);
      RunAccounted(Next(s, steps[0]), steps[1..]);
    }
  }

  /** Over every interleaving an address is in flight exactly when it is queued, or a worker has it or abandoned it. */
  lemma InFlightIff(workers: nat, idlers: nat, steps: seq<Step>, a: nat)
    requires ValidRun(Start(workers, idlers), steps) && a != 0
    ensures var s := Run(Start(workers, idlers), steps);
            a in s.m.processing <==> IsQueued(s, a) || IsHeld(s, a) || a in s.abandoned
  {
    RunAccounted(Start(workers, idlers), steps);
    var s := Run(Start(workers, idlers), steps);
    if IsQueued(s, a) {
      var i :| 0 <= i < |s.m.queue| && s.m.queue[i].address == a;
      assert InFlight(s.m, s.m.queue[i]);
    }
  }

  /** A worker that removes its event lets a new fault at that address through: the next look finds it not in flight. */
  lemma RemovedCanComeBack(workers: nat, idlers: nat, steps: seq<Step>, w: nat, e: FaultEvent)
    requires ValidRun(Start(workers, idlers), steps)
    requires var s := Run(Start(workers, idlers), steps);
             Enabled(s, RemoveProcessed(w)) && s.workers[w].event.address == e.address && s.checked.None?
    ensures var t := Next(Run(Start(workers, idlers), steps), RemoveProcessed(w));
            Enabled(t, Check(e)) && Next(t, Check(e)).checked == Some(e)
  {
  }

  /** One that does not remove it shuts the address out for ever: it stays in flight, and is never queued again. */
  lemma AbandonedForEver(workers: nat, idlers: nat, steps: seq<Step>, more: seq<Step>, a: nat)
    requires ValidRun(Start(workers, idlers), steps)
    requires a in Run(Start(workers, idlers), steps).abandoned && ValidRun(Run(Start(workers, idlers), steps), more)
    ensures var t := Run(Run(Start(workers, idlers), steps), more);
            a in t.m.processing && !IsQueued(t, a) && !IsHeld(t, a)
  {
    RunAccounted(Start(workers, idlers), steps);
    RunAccounted(Run(Start(workers, idlers), steps), more);
  }

  lemma {:induction false} RunForgetsNone(s: System, steps: seq<Step>)
    requires ValidRun(s, steps) && QueueOk(s) && IdlersOk(s) && FewIdlers(s) && NoneForgotten(s)
    ensures NoneForgotten(Run(s, steps)) && |Run(s, steps).idlers| == |s.idlers|
    decreases |steps|
  {
    if steps != [] {
      StepKeepsQueue(s, steps[0]);
      StepKeepsIdlers(s, steps[0]);
      StepForgetsNone(s, steps[0]);
      RunForgetsNone(Next(s, steps[0]), steps[1..]);
    }
  }

  lemma {:induction false} NobodyWaits(n: nat, idlers: nat)
    ensures CountWaiting(Start(n, idlers).workers) == 0 && !SomeBlocked(Start(n, idlers).workers)
  {
    if n > 0 {
      NobodyWaits(n - 1, idlers);
      assert Start(n, idlers).workers[1..] == Start(n - 1, idlers).workers;
    }
  }

  lemma {:induction false} NobodyIdles(n: nat, workers: nat)
    ensures CountIdlers(Start(workers, n).idlers) == 0
  {
    if n > 0 {
      NobodyIdles(n - 1, workers);
      assert Start(workers, n).idlers[1..] == Start(workers, n - 1).idlers;
    }
  }

  /**
    Over every interleaving: what came out, then what is queued, is what went in;
    while a worker is blocked, no more events are queued than workers are on
    their way to fetch them; no fault address is queued twice; each queued one is
    in flight.
   */
  lemma EveryInterleavingIsSafe(workers: nat, idlers: nat, steps: seq<Step>)
    requires ValidRun(Start(workers, idlers), steps)
    ensures var s := Run(Start(workers, idlers), steps);
            && s.dequeued + s.m.queue == s.enqueued
            && (SomeBlocked(s.workers) ==> |s.m.queue| <= CountWoken(s.workers))
            && s.m.waiting == CountWaiting(s.workers)
            && (forall i, j | 0 <= i < j < |s.m.queue| ::
                  s.m.queue[i].address == s.m.queue[j].address ==> s.m.queue[i].address == 0)
            && (forall i | 0 <= i < |s.m.queue| :: s.m.queue[i].address == 0 || IsFound(s.m, s.m.queue[i]))
  {
    NobodyWaits(workers, idlers);
    RunKeeps(Start(workers, idlers), steps);
    var s := Run(Start(workers, idlers), steps);
    forall i, j | 0 <= i < j < |s.m.queue|
      ensures s.m.queue[i].address == s.m.queue[j].address ==> s.m.queue[i].address == 0
    {
      assert !Clash(s.m.queue[i], s.m.queue[j]);
    }
  }

  /** A thread that leaves wait_for_idle leaves an empty queue and workers that all wait. */
  lemma LeavesWhenIdle(workers: nat, idlers: nat, steps: seq<Step>, i: nat, step: Step)
    requires ValidRun(Start(workers, idlers), steps) && (step == StartIdle(i) || step == RecheckIdle(i))
    requires Enabled(Run(Start(workers, idlers), steps), step)
    ensures var s := Run(Start(workers, idlers), steps);
            Next(s, step).idlers[i] == Away
            <==> s.m.queue == [] && forall w | 0 <= w < |s.workers| :: s.workers[w].Blocked? || s.workers[w].Woken?
  {
    NobodyWaits(workers, idlers);
    RunKeeps(Start(workers, idlers), steps);
    NobodyIdles(idlers, workers);
    RunCounts(Start(workers, idlers), steps);
    AllWaitIff(Run(Start(workers, idlers), steps).workers);
  }

  lemma {:induction false} RunCounts(s: System, steps: seq<Step>)
    requires ValidRun(s, steps) && IdlersOk(s)
    ensures IdlersOk(Run(s, steps))
    decreases |steps|
  {
    if steps != [] {
      StepKeepsIdlers(s, steps[0]);
      RunCounts(Next(s, steps[0]), steps[1..]);
    }
  }

  lemma {:induction false} AllWaitIff(workers: seq<Worker>)
    ensures CountWaiting(workers) == |workers|
            <==> forall w | 0 <= w < |workers| :: workers[w].Blocked? || workers[w].Woken?
  {
    WaitingBound(workers);
    if workers != [] {
      WaitingBound(workers[1..]);
      AllWaitIff(workers[1..]);
      assert forall w | 0 < w < |workers| :: workers[w] == workers[1..][w - 1];
    }
  }

  // ---------- When a thread in wait_for_idle is forgotten ----------

  lemma FewAreNeverForgotten(workers: nat, idlers: nat, steps: seq<Step>)
    requires ValidRun(Start(workers, idlers), steps) && (workers == 0 || idlers <= 1)
    ensures NoneForgotten(Run(Start(workers, idlers), steps))
  {
    NobodyWaits(workers, idlers);
    NobodyIdles(idlers, workers);
    RunForgetsNone(Start(workers, idlers), steps);
  }

  /**
    Two threads wait, and the first k workers have found the queue empty; the last of
    them signals the first thread.
   */
  function Waited(workers: nat, idlers: nat, k: nat): System
    requires k <= workers && idlers >= 2
  {
    System(Monitor([], map[], k, workers, 2),
           seq(workers, w => if w < k then Blocked else Outside),
           [if k < workers then Parked else Roused, Parked] + seq(idlers - 2, _ => Away), None, [], [], {})
  }

  /** The workers that are left come for an event, one after the other. */
  lemma {:induction false} WorkersBlock(workers: nat, idlers: nat, k: nat) returns (steps: seq<Step>)
    requires k <= workers && idlers >= 2
    ensures ValidRun(Waited(workers, idlers, k), steps)
    ensures Run(Waited(workers, idlers, k), steps) == Waited(workers, idlers, workers)
    decreases workers - k
  {
    steps := [];
    if k < workers {
      NextBlocks(workers, idlers, k);
      var more := WorkersBlock(workers, idlers, k + 1);
      steps := [StartDequeue(k, 0)] + more;
      assert steps[1..] == more;
    }
  }

  lemma NextBlocks(workers: nat, idlers: nat, k: nat)
    requires k < workers && idlers >= 2
    ensures Enabled(Waited(workers, idlers, k), StartDequeue(k, 0))
    ensures Next(Waited(workers, idlers, k), StartDequeue(k, 0)) == Waited(workers, idlers, k + 1)
  {
    var s, t := Waited(workers, idlers, k), Waited(workers, idlers, k + 1);
    assert s.workers[k := Blocked] == t.workers;
    if k + 1 == workers {
      assert s.idlers[0 := Roused] == t.idlers;
    }
  }

  lemma TwoPark(workers: nat, idlers: nat)
    requires workers > 0 && idlers >= 2
    ensures var s := Start(workers, idlers);
            && Enabled(s, StartIdle(0)) && Enabled(Next(s, StartIdle(0)), StartIdle(1))
            && Next(Next(s, StartIdle(0)), StartIdle(1)) == Waited(workers, idlers, 0)
  {
    var s, t := Start(workers, idlers), Waited(workers, idlers, 0);
    assert s.idlers[0 := Parked][1 := Parked] == t.idlers;
    assert s.workers == t.workers;
  }

  /** Nothing is queued, every worker waits, and so does idler i. */
  ghost predicate Stuck(s: System, i: nat) {
    && s.m.queue == [] && s.m.waiting == s.m.maxWaiting
    && (forall w | 0 <= w < |s.workers| :: s.workers[w] == Blocked)
    && i < |s.idlers| && s.idlers[i] == Parked
  }

  /** Neither an event is enqueued nor does a wait end on its own. */
  predicate IsQuiet(step: Step) {
    !step.AddChecked? && !step.AddStop? && !step.SpuriousWake? && !step.SpuriousRouse?
  }

  ghost predicate QuietRun(steps: seq<Step>) {
    forall k | 0 <= k < |steps| :: IsQuiet(steps[k])
  }

  lemma StepStaysStuck(s: System, step: Step, i: nat)
    requires Stuck(s, i) && Enabled(s, step) && IsQuiet(step)
    ensures Stuck(Next(s, step), i)
  {
  }

  lemma {:induction false} RunStaysStuck(s: System, steps: seq<Step>, i: nat)
    requires Stuck(s, i) && ValidRun(s, steps) && QuietRun(steps)
    ensures Stuck(Run(s, steps), i)
    decreases |steps|
  {
    if steps != [] {
      StepStaysStuck(s, steps[0], i);
      RunStaysStuck(Next(s, steps[0]), steps[1..], i);
    }
  }

  /** With workers and two threads in wait_for_idle, a run after which the second waits though the queue is idle. */
  lemma SecondIdlerGetsStuck(workers: nat, idlers: nat) returns (steps: seq<Step>)
    requires workers > 0 && idlers >= 2
    ensures ValidRun(Start(workers, idlers), steps)
    ensures IsIdle(Run(Start(workers, idlers), steps).m) && Stuck(Run(Start(workers, idlers), steps), 1)
  {
    var more := WorkersBlock(workers, idlers, 0);
    TwoPark(workers, idlers);
    var rest := [StartIdle(1)] + more;
    steps := [StartIdle(0)] + rest;
    assert rest[1..] == more && steps[1..] == rest;
    var s1 := Next(Start(workers, idlers), StartIdle(0));
    assert ValidRun(s1, rest) && Run(s1, rest) == Run(Next(s1, StartIdle(1)), more);
    assert Run(Start(workers, idlers), steps) == Run(s1, rest);
  }

  /** wait_for_idle never waits through an idle queue, in any interleaving, exactly when at most one thread calls it. */
  lemma NeverForgottenIff(workers: nat, idlers: nat)
    ensures (forall steps | ValidRun(Start(workers, idlers), steps) ::
               NoneForgotten(Run(Start(workers, idlers), steps)))
            <==> workers == 0 || idlers <= 1
  {
    if workers == 0 || idlers <= 1 {
      forall steps | ValidRun(Start(workers, idlers), steps)
        ensures NoneForgotten(Run(Start(workers, idlers), steps))
      {
        FewAreNeverForgotten(workers, idlers, steps);
      }
    } else {
      var steps := SecondIdlerGetsStuck(workers, idlers);
      assert !NoneForgotten(Run(Start(workers, idlers), steps));
    }
  }

  /** Thread i waits although the queue is idle. */
  ghost predicate ForgottenIn(s: System, i: nat) {
    IsIdle(s.m) && i < |s.idlers| && s.idlers[i] == Parked
  }

  /** The forgotten thread goes on waiting as long as no event is enqueued and no wait ends on its own. */
  lemma ForgottenUntilDisturbed(workers: nat, idlers: nat) returns (steps: seq<Step>)
    requires workers > 0 && idlers >= 2
    ensures ValidRun(Start(workers, idlers), steps)
    ensures var s := Run(Start(workers, idlers), steps);
            ForgottenIn(s, 1) && forall more | ValidRun(s, more) && QuietRun(more) :: ForgottenIn(Run(s, more), 1)
  {
    steps := SecondIdlerGetsStuck(workers, idlers);
    var s := Run(Start(workers, idlers), steps);
    forall more | ValidRun(s, more) && QuietRun(more)
      ensures ForgottenIn(Run(s, more), 1)
    {
      RunStaysStuck(s, more, 1);
    }
  }
}

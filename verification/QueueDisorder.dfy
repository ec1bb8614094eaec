/** Exactly when the queue can deliver out of order at the grain of its locks: with a slot and
    two threads. */
module QueueDisorder {
  import opened QueueSystem
  import opened QueueTickets
  import opened QueueFifo

  /** What has been loaded is not what has been stored, in order, as far as it goes. */
  predicate Disorder(q: Queue) {
    !(q.loaded <= q.stored)
  }

  /** Some run with this capacity and number of threads ends in this state. */
  ghost predicate Reaches(n: nat, threads: nat, q: Queue) {
    exists states: seq<Queue> :: RunTo(n, threads, states, q)
  }

  ghost predicate RunTo(n: nat, threads: nat, states: seq<Queue>, q: Queue) {
    && IsRun(states) && states[0].capacity == n && |states[0].pcs| == threads && states[|states| - 1] == q
  }

  lemma Extends(n: nat, threads: nat, q: Queue, t: nat, q': Queue)
    requires Reaches(n, threads, q) && Step(q, t, q')
    ensures Reaches(n, threads, q')
  {
    hide Step, Init;
    var states :| RunTo(n, threads, states, q);
    assert Moves(q, q');
    assert RunTo(n, threads, states + [q'], q');
  }

  // ---- the states of the runs ----------------------------------------------------------------

  /** Thread 0 pushes, thread 1 pops, the others are outside. */
  function Threads(threads: nat, push: Pc, pop: Pc): seq<Pc>
    requires threads >= 2
  {
    seq(threads, _ => Outside)[0 := push][1 := pop]
  }

  lemma ThreadMoves(threads: nat, push: Pc, pop: Pc, pc: Pc)
    requires threads >= 2
    ensures Threads(threads, push, pop)[0 := pc] == Threads(threads, pc, pop)
    ensures Threads(threads, push, pop)[1 := pc] == Threads(threads, push, pc)
  {
  }

  function Zeros(n: nat): seq<Elem> {
    seq(n, _ => 0)
  }

  lemma Starts(n: nat, threads: nat)
    requires threads >= 2
    ensures Reaches(n, threads, Queue(n, 0, 0, 0, Zeros(n), NOBODY, NOBODY, Threads(threads, Outside, Outside), [], []))
  {
    var q := Queue(n, 0, 0, 0, Zeros(n), NOBODY, NOBODY, Threads(threads, Outside, Outside), [], []);
    assert RunTo(n, threads, [q], q);
  }

  /** A call of pcq_enqueue up to the count. */
  lemma PushCounts(n: nat, threads: nat, q: Queue, v: Elem, pop: Pc)
    requires threads >= 2 && Reaches(n, threads, q) && q.capacity == n
    requires q.pcs == Threads(threads, Outside, pop) && q.pushOwner == NOBODY && q.size != n
    ensures Reaches(n, threads, q.(pcs := Threads(threads, PushReserved(v), pop), pushOwner := 0, size := q.size + 1))
  {
    var q1 := q.(pcs := Threads(threads, PushLock(v), pop));
    var q2 := q.(pcs := Threads(threads, PushTest(v, false), pop), pushOwner := 0);
    var q3 := q.(pcs := Threads(threads, PushReserved(v), pop), pushOwner := 0, size := q.size + 1);
    hide Reaches;
    ThreadMoves(threads, Outside, pop, PushLock(v));
    assert q1 == At(q, 0, PushLock(v));
    assert Call(q, 0, q1);
    Extends(n, threads, q, 0, q1);
    ThreadMoves(threads, PushLock(v), pop, PushTest(v, false));
    assert PushAcquire(q1, 0, q2);
    Extends(n, threads, q1, 0, q2);
    ThreadMoves(threads, PushTest(v, false), pop, PushReserved(v));
    assert PushCheck(q2, 0, q3);
    Extends(n, threads, q2, 0, q3);
  }

  /** A call of pcq_dequeue up to the count. */
  lemma PopCounts(n: nat, threads: nat, q: Queue, push: Pc)
    requires threads >= 2 && Reaches(n, threads, q) && q.capacity == n
    requires q.pcs == Threads(threads, push, Outside) && q.popOwner == NOBODY && q.size != 0
    ensures Reaches(n, threads, q.(pcs := Threads(threads, push, PopReserved), popOwner := 1, size := q.size - 1))
  {
    var q1 := q.(pcs := Threads(threads, push, PopLock));
    var q2 := q.(pcs := Threads(threads, push, PopTest(false)), popOwner := 1);
    var q3 := q.(pcs := Threads(threads, push, PopReserved), popOwner := 1, size := q.size - 1);
    hide Reaches;
    ThreadMoves(threads, push, Outside, PopLock);
    assert q1 == At(q, 1, PopLock);
    assert Call(q, 1, q1);
    Extends(n, threads, q, 1, q1);
    ThreadMoves(threads, push, PopLock, PopTest(false));
    assert PopAcquire(q1, 1, q2);
    Extends(n, threads, q1, 1, q2);
    ThreadMoves(threads, push, PopTest(false), PopReserved);
    assert PopCheck(q2, 1, q3);
    Extends(n, threads, q2, 1, q3);
  }

  lemma PopLoads(n: nat, threads: nat, q: Queue, push: Pc)
    requires threads >= 2 && Reaches(n, threads, q) && q.capacity == n
    requires q.pcs == Threads(threads, push, PopReserved) && 0 <= q.head < |q.buffer|
    ensures Reaches(n, threads, q.(pcs := Threads(threads, push, PopLoaded(q.buffer[q.head])), head := Next(q.head, n),
                                   loaded := q.loaded + [q.buffer[q.head]]))
  {
    var v := q.buffer[q.head];
    var q' := q.(pcs := Threads(threads, push, PopLoaded(v)), head := Next(q.head, n), loaded := q.loaded + [v]);
    hide Reaches;
    ThreadMoves(threads, push, PopReserved, PopLoaded(v));
    assert Load(q, 1, q');
    Extends(n, threads, q, 1, q');
  }

  lemma PushStores(n: nat, threads: nat, q: Queue, v: Elem, pop: Pc)
    requires threads >= 2 && Reaches(n, threads, q) && q.capacity == n
    requires q.pcs == Threads(threads, PushReserved(v), pop) && 0 <= q.tail < |q.buffer|
    ensures Reaches(n, threads, q.(pcs := Threads(threads, PushStored, pop), buffer := q.buffer[q.tail := v],
                                   tail := Next(q.tail, n), stored := q.stored + [v]))
  {
    var q' := q.(pcs := Threads(threads, PushStored, pop), buffer := q.buffer[q.tail := v],
                 tail := Next(q.tail, n), stored := q.stored + [v]);
    hide Reaches;
    ThreadMoves(threads, PushReserved(v), pop, PushStored);
    assert Store(q, 0, q');
    Extends(n, threads, q, 0, q');
  }

  /** The end of pcq_enqueue, with nobody popping. */
  lemma PushReturns(n: nat, threads: nat, q: Queue)
    requires threads >= 2 && Reaches(n, threads, q) && q.capacity == n
    requires q.pcs == Threads(threads, PushStored, Outside) && q.popOwner == NOBODY
    ensures Reaches(n, threads, q.(pcs := Threads(threads, Outside, Outside), pushOwner := NOBODY))
  {
    var q1 := q.(pcs := Threads(threads, PushSignal, Outside), pushOwner := NOBODY);
    var q2 := q.(pcs := Threads(threads, Outside, Outside), pushOwner := NOBODY);
    hide Reaches;
    ThreadMoves(threads, PushStored, Outside, PushSignal);
    assert PushRelease(q, 0, q1);
    Extends(n, threads, q, 0, q1);
    ThreadMoves(threads, PushSignal, Outside, Outside);
    assert SignalPopper(q1, 0, q2);
    Extends(n, threads, q1, 0, q2);
  }

  // ---- a load too early ----------------------------------------------------------------------

  /** A pusher has counted an element and stops; a popper counts it as gone, and loads what the
      slot held before. */
  lemma EarlyLoadHappens(n: nat, threads: nat)
    requires n > 0 && threads >= 2
    ensures exists q :: Reaches(n, threads, q) && Disorder(q) && |q.loaded| > |q.stored|
  {
    var q0 := Queue(n, 0, 0, 0, Zeros(n), NOBODY, NOBODY, Threads(threads, Outside, Outside), [], []);
    var q1 := q0.(pcs := Threads(threads, PushReserved(5), Outside), pushOwner := 0, size := 1);
    var q2 := q1.(pcs := Threads(threads, PushReserved(5), PopReserved), popOwner := 1, size := 0);
    var q3 := q2.(pcs := Threads(threads, PushReserved(5), PopLoaded(0)), head := Next(0, n), loaded := [0]);
    Starts(n, threads);
    hide Reaches, Threads;
    PushCounts(n, threads, q0, 5, Outside);
    PopCounts(n, threads, q1, PushReserved(5));
    PopLoads(n, threads, q2, PushReserved(5));
    assert [] + [0] == [0];
    assert Reaches(n, threads, q3) && Disorder(q3) && |q3.loaded| > |q3.stored|;
  }

  // ---- a load too late -----------------------------------------------------------------------

  /** The numbers from 1 to j. */
  function Numbers(j: nat): seq<Elem> {
    seq(j, i => i + 1)
  }

  /** The first j numbers have been pushed. */
  function Pushed(n: nat, threads: nat, j: nat): Queue
    requires j <= n && threads >= 2
  {
    Queue(n, j, 0, if j < n then j else 0, Numbers(j) + Zeros(n - j), NOBODY, NOBODY,
          Threads(threads, Outside, Outside), Numbers(j), [])
  }

  lemma Wraps(j: nat, n: nat)
    requires j < n
    ensures Next(j, n) == if j + 1 < n then j + 1 else 0
  {
    if j + 1 < n { ModIs(j + 1, n, 0, j + 1); } else { ModIs(n, n, 1, 0); }
  }

  lemma {:induction false} PushesAll(n: nat, threads: nat, j: nat)
    requires j <= n && threads >= 2
    ensures Reaches(n, threads, Pushed(n, threads, j))
  {
    if j == 0 {
      Starts(n, threads);
      assert Numbers(0) + Zeros(n) == Zeros(n);
    } else {
      PushesAll(n, threads, j - 1);
      PushesOne(n, threads, j - 1);
    }
  }

  lemma PushesOne(n: nat, threads: nat, j: nat)
    requires j < n && threads >= 2 && Reaches(n, threads, Pushed(n, threads, j))
    ensures Reaches(n, threads, Pushed(n, threads, j + 1))
  {
    var q := Pushed(n, threads, j);
    var q1 := q.(pcs := Threads(threads, PushReserved(j + 1), Outside), pushOwner := 0, size := j + 1);
    var q2 := q1.(pcs := Threads(threads, PushStored, Outside), buffer := q.buffer[j := j + 1],
                  tail := Next(j, n), stored := q.stored + [j + 1]);
    Wraps(j, n);
    assert q.buffer[j := j + 1] == Numbers(j + 1) + Zeros(n - j - 1);
    assert q.stored + [j + 1] == Numbers(j + 1);
    hide Reaches, Threads;
    PushCounts(n, threads, q, j + 1, Outside);
    PushStores(n, threads, q1, j + 1, Outside);
    PushReturns(n, threads, q2);
  }

  /** The queue is full; a popper counts one element as gone and stops; one more is stored in
      its slot. The first element is lost, and the popper returns the last. */
  lemma LateLoadHappens(n: nat, threads: nat)
    requires n > 0 && threads >= 2
    ensures exists q :: Reaches(n, threads, q) && Disorder(q) && AllDifferent(q.stored)
              && |q.stored| == n + 1 && q.loaded == [q.stored[n]] && q.stored[n] != q.stored[0]
  {
    var q := Pushed(n, threads, n);
    var q1 := q.(pcs := Threads(threads, Outside, PopReserved), popOwner := 1, size := n - 1);
    var q2 := q1.(pcs := Threads(threads, PushReserved(n + 1), PopReserved), pushOwner := 0, size := n);
    var q3 := q2.(pcs := Threads(threads, PushStored, PopReserved), buffer := q.buffer[0 := n + 1],
                  tail := Next(0, n), stored := q.stored + [n + 1]);
    var q4 := q3.(pcs := Threads(threads, PushStored, PopLoaded(n + 1)), head := Next(0, n), loaded := [n + 1]);
    PushesAll(n, threads, n);
    assert q.stored + [n + 1] == Numbers(n + 1) && [] + [n + 1] == [n + 1];
    hide Reaches, Threads;
    PopCounts(n, threads, q, Outside);
    PushCounts(n, threads, q1, n + 1, PopReserved);
    PushStores(n, threads, q2, n + 1, PopReserved);
    PopLoads(n, threads, q3, PushStored);
    assert q4.stored == Numbers(n + 1) && q4.stored[0] == 1 && q4.stored[n] == n + 1;
    assert q4.loaded[0] != q4.stored[0];
    assert Reaches(n, threads, q4) && Disorder(q4);
  }

  // ---- and otherwise not ---------------------------------------------------------------------

  /** One thread, or no slot. */
  ghost predicate Orderly(q: Queue) {
    && Inv(q) && (|q.pcs| <= 1 || q.capacity == 0) && q.loaded <= q.stored
    && (q.capacity > 0 && |q.pcs| == 1 && q.pcs[0].PopReserved? ==> q.size < q.capacity)
  }

  /** The only thread counts an element out, and loads it before anything is counted in. */
  lemma AloneSize(q: Queue, t: nat, q': Queue)
    requires Inv(q) && Step(q, t, q') && |q.pcs| <= 1
    requires q.pcs[0].PopReserved? ==> q.size < q.capacity
    ensures |q'.pcs| == |q.pcs| && q'.capacity == q.capacity
    ensures q'.pcs[0].PopReserved? ==> q'.size < q'.capacity
  {
    hide LocksOk, RingOk;
  }

  lemma NoSlotSize(q: Queue, t: nat, q': Queue)
    requires Inv(q) && Step(q, t, q') && q.capacity == 0
    ensures q'.capacity == 0 && !Load(q, t, q')
  {
    hide LocksOk, CountsOk;
  }

  /** Its loads are in order. */
  lemma AloneLoads(q: Queue, t: nat, q': Queue)
    requires Inv(q) && t < |q.pcs| <= 1 && Load(q, t, q') && q.loaded <= q.stored && q.size < q.capacity
    ensures q'.loaded <= q'.stored
  {
    LoadReturns(q, t, q');
    LoadKept(q, t, q');
    assert q.popOwner == t && PushReservations(q) == 0 && PopReservations(q) == 1;
    assert |q.stored| - |q.loaded| == q.size + 1;
    assert q'.loaded == q.loaded + [q.stored[|q.loaded|]];
  }

  lemma StaysOrderly(q: Queue, t: nat, q': Queue)
    requires Orderly(q) && Step(q, t, q')
    ensures Orderly(q')
  {
    StepKeeps(q, t, q');
    if q.capacity == 0 { NoSlotSize(q, t, q'); } else { AloneSize(q, t, q'); }
    if Load(q, t, q') {
      AloneLoads(q, t, q');
    } else if Store(q, t, q') {
      StoreKept(q, t, q');
    } else {
      StepHistory(q, t, q');
    }
  }

  /** The exact condition: some run delivers out of order if and only if there is a slot and
      there are two threads. */
  lemma DisorderIff(n: nat, threads: nat)
    ensures (exists q :: Reaches(n, threads, q) && Disorder(q)) <==> n > 0 && threads >= 2
  {
    hide Reaches;
    if n > 0 && threads >= 2 {
      EarlyLoadHappens(n, threads);
    } else {
      forall q | Reaches(n, threads, q) ensures !Disorder(q) { ReachesOrderly(n, threads, q); }
    }
  }

  lemma ReachesOrderly(n: nat, threads: nat, q: Queue)
    requires Reaches(n, threads, q) && (n == 0 || threads < 2)
    ensures Orderly(q)
  {
    var states :| RunTo(n, threads, states, q);
    RunOrderly(states, |states| - 1);
  }

  lemma {:induction false} RunOrderly(states: seq<Queue>, k: nat)
    requires IsRun(states) && k < |states| && (states[0].capacity == 0 || |states[0].pcs| < 2)
    ensures Orderly(states[k])
  {
    hide Step, Init, Orderly;
    if k == 0 {
      StartsOrderly(states[0]);
    } else {
      RunOrderly(states, k - 1);
      assert Moves(states[k - 1], states[k]);
      var t: nat :| Step(states[k - 1], t, states[k]);
      StaysOrderly(states[k - 1], t, states[k]);
    }
  }

  lemma StartsOrderly(q: Queue)
    requires Init(q) && (q.capacity == 0 || |q.pcs| < 2)
    ensures Orderly(q)
  {
    TicketAccounting([q], 0);
  }
}

/** The bounded queue of p2/producer-consumer as a transition system: any number of
    threads, each in pcq_enqueue, in pcq_dequeue or outside. A step is what one thread
    does between two points where others can interfere: the sections under
    pcq_current_size_lock, pcq_tail_lock and pcq_head_lock are one step each; the two
    condvar locks are held across steps and so have an owner.

    Ghost history: the values stored and loaded so far, in order. */
module QueueSystem {
  /** The queue passes its elements on without looking at them. */
  type Elem = int

  /** Where a thread is. The line numbers are those of producer-consumer.c. */
  datatype Pc =
    | Outside
    // pcq_enqueue
    | PushLock(v: Elem)                  // 54: wants pcq_pusher_condvar_lock
    | PushTest(v: Elem, woken: bool)     // 55/61: holds it, about to look at the size
    | PushBlock(v: Elem)                 // 60: found the queue full, about to wait
    | PushSleep(v: Elem)                 // 60: in the wait set of pcq_pusher_condvar
    | PushWoken(v: Elem)                 // 60: out of the wait set, wants the lock back
    | PushReserved(v: Elem)              // 67: has counted its element, not stored it
    | PushStored                      // 71: stored, still holds the lock
    | PushSignal                      // 73: about to signal the poppers
    // pcq_dequeue
    | PopLock                         // 85
    | PopTest(woken: bool)            // 86/91
    | PopBlock                        // 90
    | PopSleep                        // 90
    | PopWoken                        // 90
    | PopReserved                     // 97
    | PopLoaded(v: Elem)                 // 101
    | PopSignal(v: Elem)                 // 103

  datatype Queue = Queue(
    capacity: nat, size: int, head: nat, tail: nat,
    buffer: seq<Elem>,
    pushOwner: int, popOwner: int,    // owners of the condvar locks, -1 for none
    pcs: seq<Pc>,
    stored: seq<Elem>, loaded: seq<Elem>)

  const NOBODY := -1

  predicate InPushSection(pc: Pc) {
    pc.PushTest? || pc.PushBlock? || pc.PushReserved? || pc.PushStored?
  }

  predicate InPopSection(pc: Pc) {
    pc.PopTest? || pc.PopBlock? || pc.PopReserved? || pc.PopLoaded?
  }

  function Next(q: nat, n: nat): nat {
    if n == 0 then 0 else (q + 1) % n
  }

  function At(q: Queue, t: nat, pc: Pc): Queue
    requires t < |q.pcs|
  {
    q.(pcs := q.pcs[t := pc])
  }

  // ---- the steps of one thread -----------------------------------------------------

  ghost predicate Call(q: Queue, t: nat, q': Queue)
    requires t < |q.pcs|
  {
    q.pcs[t].Outside? && (q' == At(q, t, PopLock) || exists v :: q' == At(q, t, PushLock(v)))
  }

  predicate PushAcquire(q: Queue, t: nat, q': Queue)
    requires t < |q.pcs|
  {
    && q.pushOwner == NOBODY
    && ((q.pcs[t].PushLock? && q' == At(q, t, PushTest(q.pcs[t].v, false)).(pushOwner := t))
     || (q.pcs[t].PushWoken? && q' == At(q, t, PushTest(q.pcs[t].v, true)).(pushOwner := t)))
  }

  /** Lines 56 and 64, under pcq_current_size_lock. */
  predicate PushCheck(q: Queue, t: nat, q': Queue)
    requires t < |q.pcs|
  {
    && q.pcs[t].PushTest?
    && q' == if q.size == q.capacity then At(q, t, PushBlock(q.pcs[t].v))
             else At(q, t, PushReserved(q.pcs[t].v)).(size := q.size + 1)
  }

  /** cond_wait gives up the lock and joins the wait set in one step. */
  predicate PushWait(q: Queue, t: nat, q': Queue)
    requires t < |q.pcs|
  {
    q.pcs[t].PushBlock? && q' == At(q, t, PushSleep(q.pcs[t].v)).(pushOwner := NOBODY)
  }

  /** Lines 68-69, under pcq_tail_lock. */
  predicate Store(q: Queue, t: nat, q': Queue)
    requires t < |q.pcs|
  {
    && q.pcs[t].PushReserved?
    && q.tail < |q.buffer|
    && q' == At(q, t, PushStored).(buffer := q.buffer[q.tail := q.pcs[t].v],
                                   tail := Next(q.tail, q.capacity),
                                   stored := q.stored + [q.pcs[t].v])
  }

  predicate PushRelease(q: Queue, t: nat, q': Queue)
    requires t < |q.pcs|
  {
    q.pcs[t].PushStored? && q' == At(q, t, PushSignal).(pushOwner := NOBODY)
  }

  /** Lines 73-75: one sleeping popper, if there is any, leaves the wait set. */
  predicate SignalPopper(q: Queue, t: nat, q': Queue)
    requires t < |q.pcs|
  {
    && q.pcs[t].PushSignal? && q.popOwner == NOBODY
    && if exists u :: 0 <= u < |q.pcs| && q.pcs[u].PopSleep?
       then exists u :: 0 <= u < |q.pcs| && q.pcs[u].PopSleep? && q' == At(At(q, t, Outside), u, PopWoken)
       else q' == At(q, t, Outside)
  }

  predicate PopAcquire(q: Queue, t: nat, q': Queue)
    requires t < |q.pcs|
  {
    && q.popOwner == NOBODY
    && ((q.pcs[t].PopLock? && q' == At(q, t, PopTest(false)).(popOwner := t))
     || (q.pcs[t].PopWoken? && q' == At(q, t, PopTest(true)).(popOwner := t)))
  }

  /** Lines 87 and 94, under pcq_current_size_lock. */
  predicate PopCheck(q: Queue, t: nat, q': Queue)
    requires t < |q.pcs|
  {
    && q.pcs[t].PopTest?
    && q' == if q.size == 0 then At(q, t, PopBlock) else At(q, t, PopReserved).(size := q.size - 1)
  }

  predicate PopWait(q: Queue, t: nat, q': Queue)
    requires t < |q.pcs|
  {
    q.pcs[t].PopBlock? && q' == At(q, t, PopSleep).(popOwner := NOBODY)
  }

  /** Lines 98-99, under pcq_head_lock. */
  predicate Load(q: Queue, t: nat, q': Queue)
    requires t < |q.pcs|
  {
    && q.pcs[t].PopReserved?
    && q.head < |q.buffer|
    && q' == At(q, t, PopLoaded(q.buffer[q.head])).(head := Next(q.head, q.capacity),
                                                    loaded := q.loaded + [q.buffer[q.head]])
  }

  predicate PopRelease(q: Queue, t: nat, q': Queue)
    requires t < |q.pcs|
  {
    q.pcs[t].PopLoaded? && q' == At(q, t, PopSignal(q.pcs[t].v)).(popOwner := NOBODY)
  }

  /** Lines 103-105: one sleeping pusher, if there is any, leaves the wait set. */
  predicate SignalPusher(q: Queue, t: nat, q': Queue)
    requires t < |q.pcs|
  {
    && q.pcs[t].PopSignal? && q.pushOwner == NOBODY
    && if exists u :: 0 <= u < |q.pcs| && q.pcs[u].PushSleep?
       then exists u :: 0 <= u < |q.pcs| && q.pcs[u].PushSleep? && q' == At(At(q, t, Outside), u, PushWoken(q.pcs[u].v))
       else q' == At(q, t, Outside)
  }

  /** pthread_cond_wait may return without a signal. */
  predicate Spurious(q: Queue, t: nat, q': Queue)
    requires t < |q.pcs|
  {
    (q.pcs[t].PushSleep? && q' == At(q, t, PushWoken(q.pcs[t].v))) || (q.pcs[t].PopSleep? && q' == At(q, t, PopWoken))
  }

  /** A step of a thread inside a call that is not a spurious wakeup. */
  predicate Work(q: Queue, t: nat, q': Queue)
    requires t < |q.pcs|
  {
    PushAcquire(q, t, q') || PushCheck(q, t, q') || PushWait(q, t, q') || Store(q, t, q') || PushRelease(q, t, q')
    || SignalPopper(q, t, q')
    || PopAcquire(q, t, q') || PopCheck(q, t, q') || PopWait(q, t, q') || Load(q, t, q') || PopRelease(q, t, q')
    || SignalPusher(q, t, q')
  }

  ghost predicate Step(q: Queue, t: nat, q': Queue) {
    t < |q.pcs| && (Call(q, t, q') || Work(q, t, q') || Spurious(q, t, q'))
  }

  /** pcq_create, with nobody inside. The buffer is uninitialised. */
  predicate Init(q: Queue) {
    && q.size == 0 && q.head == 0 && q.tail == 0 && |q.buffer| == q.capacity
    && q.pushOwner == NOBODY && q.popOwner == NOBODY
    && (forall t :: 0 <= t < |q.pcs| ==> q.pcs[t].Outside?)
    && q.stored == [] && q.loaded == []
  }

  ghost predicate Moves(q: Queue, q': Queue) {
    exists t: nat :: Step(q, t, q')
  }

  ghost predicate IsRun(states: seq<Queue>) {
    && |states| > 0 && Init(states[0])
    && forall k :: 0 < k < |states| ==> Moves(states[k - 1], states[k])
  }
}

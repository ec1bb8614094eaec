/** The queue of p2/producer-consumer in memory, one method for each section that its
    locks protect; each is a step of the transition system. */
module PcQueue {
  import opened QueueSystem
  import opened QueueTickets

  class PcQueue {
    const capacity: nat
    const buffer: array<Elem>
    var head: nat
    var tail: nat
    var currentSize: nat

    /** The shared part of a state of the transition system is what is in memory. */
    ghost predicate Shows(q: Queue)
      reads this, buffer
    {
      && capacity == q.capacity && buffer[..] == q.buffer
      && head == q.head && tail == q.tail && currentSize == q.size
    }

    /** pcq_create: the queue of an initial state, for any number of threads. */
    constructor (capacity: nat)
      ensures this.capacity == capacity && fresh(buffer)
      ensures forall pcs: seq<Pc> :: (forall t :: 0 <= t < |pcs| ==> pcs[t].Outside?) ==>
                var q := Queue(capacity, 0, 0, 0, buffer[..], NOBODY, NOBODY, pcs, [], []);
                Init(q) && Shows(q)
    {
      this.capacity := capacity;
      buffer := new Elem[capacity];
      head, tail, currentSize := 0, 0, 0;
    }

    /** One test of the size by a pusher: full, or one more element is counted. */
    method CheckPush(ghost q: Queue, ghost t: nat) returns (full: bool, ghost q': Queue)
      requires Shows(q) && t < |q.pcs| && q.pcs[t].PushTest?
      modifies this`currentSize
      ensures PushCheck(q, t, q') && Shows(q')
      ensures full == q'.pcs[t].PushBlock? == !q'.pcs[t].PushReserved?
    {
      full := currentSize == capacity;
      if full {
        q' := At(q, t, PushBlock(q.pcs[t].v));
      } else {
        currentSize := currentSize + 1;
        q' := At(q, t, PushReserved(q.pcs[t].v)).(size := q.size + 1);
      }
    }

    /** The store of a counted element. The invariant of the system keeps it inside the
        buffer, and the division away from zero. */
    method StoreElement(v: Elem, ghost q: Queue, ghost t: nat) returns (ghost q': Queue)
      requires Shows(q) && t < |q.pcs| && q.pcs[t] == PushReserved(v)
      requires Inv(q)
      modifies this`tail, buffer
      ensures Store(q, t, q') && Shows(q')
    {
      buffer[tail] := v;
      tail := (tail + 1) % capacity;
      q' := At(q, t, PushStored).(buffer := q.buffer[q.tail := v], tail := Next(q.tail, q.capacity),
          stored := q.stored + [v]);
    }

    /** One test of the size by a popper: empty, or one element is counted out. */
    method CheckPop(ghost q: Queue, ghost t: nat) returns (empty: bool, ghost q': Queue)
      requires Shows(q) && t < |q.pcs| && q.pcs[t].PopTest?
      modifies this`currentSize
      ensures PopCheck(q, t, q') && Shows(q')
      ensures empty == q'.pcs[t].PopBlock? == !q'.pcs[t].PopReserved?
    {
      empty := currentSize == 0;
      if empty {
        q' := At(q, t, PopBlock);
      } else {
        currentSize := currentSize - 1;
        q' := At(q, t, PopReserved).(size := q.size - 1);
      }
    }

    /** The load of an element counted out. */
    method LoadElement(ghost q: Queue, ghost t: nat) returns (v: Elem, ghost q': Queue)
      requires Shows(q) && t < |q.pcs| && q.pcs[t].PopReserved?
      requires Inv(q)
      modifies this`head
      ensures Load(q, t, q') && Shows(q')
      ensures q'.pcs[t] == PopLoaded(v)
    {
      v := buffer[head];
      head := (head + 1) % capacity;
      q' := At(q, t, PopLoaded(v)).(head := Next(q.head, q.capacity), loaded := q.loaded + [v]);
    }
  }
}

/** Ticket accounting of the queue at the grain of its locks: how far stores and loads
    can drift apart, and which element each load returns. */
module QueueTickets {
  import opened QueueSystem

  // ---- remainders ------------------------------------------------------------------

  lemma {:induction false} MulGap(n: nat, x: nat, y: nat)
    requires x > y
    ensures n * x >= n * y + n
  {
    assert n * x == n * (x - 1) + n;
    if x - 1 > y { MulGap(n, x - 1, y); }
  }

  lemma ModIs(k: nat, n: nat, q: nat, r: nat)
    requires r < n && k == n * q + r
    ensures k % n == r && k / n == q
  {
    var q' := k / n;
    if q' > q { MulGap(n, q', q); }
    if q > q' { MulGap(n, q, q'); }
  }

  lemma ModNext(k: nat, n: nat)
    requires n > 0
    ensures (k + 1) % n == Next(k % n, n)
  {
    if k % n + 1 < n {
      ModIs(k + 1, n, k / n, k % n + 1);
      ModIs(k % n + 1, n, 0, k % n + 1);
    } else {
      ModIs(k + 1, n, k / n + 1, 0);
      ModIs(k % n + 1, n, 1, 0);
    }
  }

  /** Tickets one round apart use the same slot. */
  lemma ModRound(j: nat, n: nat)
    requires n > 0
    ensures (j + n) % n == j % n
  {
    ModIs(j + n, n, j / n + 1, j % n);
  }

  /** Tickets less than one round apart use different slots. */
  lemma ModApart(j: nat, k: nat, n: nat)
    requires n > 0 && j < k < j + n
    ensures j % n != k % n
  {
    if j % n == k % n {
      if k / n > j / n { MulGap(n, k / n, j / n); }
      if j / n > k / n { MulGap(n, j / n, k / n); }
    }
  }

  // ---- the invariant -----------------------------------------------------------------

  ghost predicate LocksOk(q: Queue) {
    && -1 <= q.pushOwner < |q.pcs| && -1 <= q.popOwner < |q.pcs|
    && (forall t :: 0 <= t < |q.pcs| ==> (InPushSection(q.pcs[t]) <==> q.pushOwner == t))
    && (forall t :: 0 <= t < |q.pcs| ==> (InPopSection(q.pcs[t]) <==> q.popOwner == t))
  }

  /** A pusher has counted its element and not stored it. */
  function PushReservations(q: Queue): nat {
    if 0 <= q.pushOwner < |q.pcs| && q.pcs[q.pushOwner].PushReserved? then 1 else 0
  }

  function PopReservations(q: Queue): nat {
    if 0 <= q.popOwner < |q.pcs| && q.pcs[q.popOwner].PopReserved? then 1 else 0
  }

  ghost predicate CountsOk(q: Queue) {
    && 0 <= q.size <= q.capacity
    && q.size == |q.stored| + PushReservations(q) - |q.loaded| - PopReservations(q)
    && (q.capacity == 0 ==> PushReservations(q) == 0 && PopReservations(q) == 0)
  }

  ghost predicate RingOk(q: Queue) {
    && |q.buffer| == q.capacity
    && (q.capacity > 0 ==> q.tail == |q.stored| % q.capacity && q.head == |q.loaded| % q.capacity)
    && (forall k {:trigger q.stored[k]} :: 0 <= k < |q.stored| && k + q.capacity >= |q.stored| && q.capacity > 0 ==>
          q.buffer[k % q.capacity] == q.stored[k])
  }

  ghost predicate Inv(q: Queue) {
    LocksOk(q) && CountsOk(q) && RingOk(q)
  }

  /** Steps that leave the locks alone. */
  ghost predicate SameLocks(q: Queue, q': Queue) {
    && |q'.pcs| == |q.pcs| && q'.pushOwner == q.pushOwner && q'.popOwner == q.popOwner
    && forall u :: 0 <= u < |q.pcs| ==>
         && (InPushSection(q'.pcs[u]) <==> InPushSection(q.pcs[u]))
         && (InPopSection(q'.pcs[u]) <==> InPopSection(q.pcs[u]))
  }

  lemma LocksSame(q: Queue, q': Queue)
    requires LocksOk(q) && SameLocks(q, q')
    ensures LocksOk(q')
  {
  }

  predicate MovesPushLock(q: Queue, t: nat, q': Queue)
    requires t < |q.pcs|
  {
    PushAcquire(q, t, q') || PushWait(q, t, q') || PushRelease(q, t, q')
  }

  predicate MovesPopLock(q: Queue, t: nat, q': Queue)
    requires t < |q.pcs|
  {
    PopAcquire(q, t, q') || PopWait(q, t, q') || PopRelease(q, t, q')
  }

  predicate Wakes(q: Queue, t: nat, q': Queue)
    requires t < |q.pcs|
  {
    SignalPopper(q, t, q') || SignalPusher(q, t, q') || Spurious(q, t, q')
  }

  lemma PushLockMoved(q: Queue, t: nat, q': Queue)
    requires LocksOk(q) && t < |q.pcs| && MovesPushLock(q, t, q')
    ensures LocksOk(q')
  {
  }

  lemma PopLockMoved(q: Queue, t: nat, q': Queue)
    requires LocksOk(q) && t < |q.pcs| && MovesPopLock(q, t, q')
    ensures LocksOk(q')
  {
  }

  lemma WakesSameLocks(q: Queue, t: nat, q': Queue)
    requires t < |q.pcs| && Wakes(q, t, q')
    ensures SameLocks(q, q')
  {
  }

  lemma OthersSameLocks(q: Queue, t: nat, q': Queue)
    requires t < |q.pcs|
    requires Call(q, t, q') || PushCheck(q, t, q') || Store(q, t, q') || PopCheck(q, t, q') || Load(q, t, q')
    ensures SameLocks(q, q')
  {
  }

  lemma LocksKept(q: Queue, t: nat, q': Queue)
    requires LocksOk(q) && Step(q, t, q')
    ensures LocksOk(q')
  {
    if MovesPushLock(q, t, q') {
      PushLockMoved(q, t, q');
    } else if MovesPopLock(q, t, q') {
      PopLockMoved(q, t, q');
    } else {
      if Wakes(q, t, q') { WakesSameLocks(q, t, q'); } else { OthersSameLocks(q, t, q'); }
      LocksSame(q, q');
    }
  }

  lemma StoreKept(q: Queue, t: nat, q': Queue)
    requires Inv(q) && t < |q.pcs| && Store(q, t, q')
    ensures RingOk(q') && q.capacity > 0
  {
    var n, e := q.capacity, |q.stored|;
    assert q.pushOwner == t;
    ModNext(e, n);
    forall k {:trigger q'.stored[k]} | 0 <= k < |q'.stored| && k + n >= |q'.stored|
      ensures q'.buffer[k % n] == q'.stored[k]
    {
      if k < e { ModApart(k, e, n); assert q'.stored[k] == q.stored[k]; }
    }
  }

  lemma LoadKept(q: Queue, t: nat, q': Queue)
    requires Inv(q) && t < |q.pcs| && Load(q, t, q')
    ensures RingOk(q') && q.capacity > 0
  {
    assert q.popOwner == t;
    ModNext(|q.loaded|, q.capacity);
  }

  lemma PushCountsKept(q: Queue, t: nat, q': Queue)
    requires LocksOk(q) && CountsOk(q) && t < |q.pcs|
    requires MovesPushLock(q, t, q') || PushCheck(q, t, q') || Store(q, t, q')
    ensures CountsOk(q')
  {
    assert q.popOwner != t;
  }

  lemma PopCountsKept(q: Queue, t: nat, q': Queue)
    requires LocksOk(q) && CountsOk(q) && t < |q.pcs|
    requires MovesPopLock(q, t, q') || PopCheck(q, t, q') || Load(q, t, q')
    ensures CountsOk(q')
  {
    assert q.pushOwner != t;
  }

  lemma WakeCountsKept(q: Queue, t: nat, q': Queue)
    requires LocksOk(q) && CountsOk(q) && t < |q.pcs|
    requires Wakes(q, t, q') || Call(q, t, q')
    ensures CountsOk(q')
  {
    assert forall u :: 0 <= u < |q.pcs| && (InPushSection(q.pcs[u]) || InPopSection(q.pcs[u])) ==>
        q'.pcs[u] == q.pcs[u];
  }

  lemma CountsKept(q: Queue, t: nat, q': Queue)
    requires LocksOk(q) && CountsOk(q) && Step(q, t, q')
    ensures CountsOk(q')
  {
    if Wakes(q, t, q') || Call(q, t, q') {
      WakeCountsKept(q, t, q');
    } else if MovesPushLock(q, t, q') || PushCheck(q, t, q') || Store(q, t, q') {
      PushCountsKept(q, t, q');
    } else {
      PopCountsKept(q, t, q');
    }
  }

  lemma RingKept(q: Queue, t: nat, q': Queue)
    requires Inv(q) && Step(q, t, q')
    ensures RingOk(q')
  {
    if Store(q, t, q') {
      StoreKept(q, t, q');
    } else if Load(q, t, q') {
      LoadKept(q, t, q');
    } else {
      assert q'.buffer == q.buffer && q'.stored == q.stored && q'.loaded == q.loaded
             && q'.head == q.head && q'.tail == q.tail && q'.capacity == q.capacity;
    }
  }

  /** Every step keeps the accounts. */
  lemma StepKeeps(q: Queue, t: nat, q': Queue)
    requires Inv(q) && Step(q, t, q')
    ensures Inv(q')
  {
    LocksKept(q, t, q');
    CountsKept(q, t, q');
    RingKept(q, t, q');
  }

  /** In every reachable state: the size is stores plus reserved stores minus loads and
      reserved loads; the indices count them modulo the capacity; and stores are at most
      one behind the loads and at most one more than the capacity ahead. */
  lemma {:induction false} TicketAccounting(states: seq<Queue>, k: nat)
    requires IsRun(states) && k < |states|
    ensures Inv(states[k])
    ensures -1 <= |states[k].stored| - |states[k].loaded| <= states[k].capacity + 1
  {
    if k > 0 {
      TicketAccounting(states, k - 1);
      assert Moves(states[k - 1], states[k]);
      var t: nat :| Step(states[k - 1], t, states[k]);
      StepKeeps(states[k - 1], t, states[k]);
    }
  }

  // ---- what a load returns -------------------------------------------------------------

  /** The D-th load returns the D-th stored element when that is stored and not yet
      overwritten; one store too far ahead it returns the element a whole round later;
      with nothing stored it returns what an earlier round left in the slot. */
  lemma LoadReturns(q: Queue, t: nat, q': Queue)
    requires Inv(q) && t < |q.pcs| && Load(q, t, q')
    ensures var e, d, n := |q.stored|, |q.loaded|, q.capacity;
            && 0 <= e - d <= n + 1 && |q'.loaded| == d + 1
            && (1 <= e - d <= n ==> q'.loaded[d] == q.stored[d])
            && (e - d == n + 1 ==> q'.loaded[d] == q.stored[d + n])
            && (e == d ==> q'.loaded[d] == if d >= n then q.stored[d - n] else q.buffer[d])
  {
    var e, d, n := |q.stored|, |q.loaded|, q.capacity;
    assert q.popOwner == t;
    LoadKept(q, t, q');
    if 1 <= e - d <= n {
      assert q.buffer[d % n] == q.stored[d];
    } else if e - d == n + 1 {
      ModRound(d, n);
      assert q.buffer[(d + n) % n] == q.stored[d + n];
    } else if d >= n {
      ModRound(d - n, n);
      assert q.buffer[(d - n) % n] == q.stored[d - n];
    } else {
      ModIs(d, n, 0, d);
    }
  }

  ghost predicate AllDifferent(s: seq<Elem>) {
    forall i, j :: 0 <= i < |s| && 0 <= j < |s| && s[i] == s[j] ==> i == j
  }

  /** The last of the first e tickets that uses this slot, or -1. */
  function LastTicket(e: nat, slot: int, n: nat): (k: int)
    requires n > 0
    ensures -1 <= k < e
    ensures k >= 0 ==> k % n == slot
    ensures forall j {:trigger j % n} :: k < j < e ==> j % n != slot
  {
    if e == 0 then -1 else if (e - 1) % n == slot then e - 1 else LastTicket(e - 1, slot, n)
  }

  /** A load takes the element of the last ticket that was stored into its slot. That is the
      one that is next in order exactly when the stores are neither behind nor more than a
      round ahead. With all elements different, so is the value. */
  lemma LoadInOrderIff(q: Queue, t: nat, q': Queue)
    requires Inv(q) && t < |q.pcs| && Load(q, t, q')
    ensures q.capacity > 0 && |q'.loaded| == |q.loaded| + 1
    ensures var e, d, k := |q.stored|, |q.loaded|, LastTicket(|q.stored|, q.head, q.capacity);
            && (k >= 0 ==> q'.loaded[d] == q.stored[k])
            && (k == d <==> 1 <= e - d <= q.capacity)
            && (AllDifferent(q.stored) ==> (d < e && q'.loaded[d] == q.stored[d] <==> 1 <= e - d <= q.capacity))
  {
    LoadReturns(q, t, q');
    assert q.popOwner == t;
    LastInRound(|q.stored|, |q.loaded|, q.capacity);
  }

  /** Where the last ticket for the slot of ticket d is, by how far the stores have got. */
  lemma LastInRound(e: nat, d: nat, n: nat)
    requires n > 0 && d <= e <= d + n + 1
    ensures var k := LastTicket(e, d % n, n);
            k == if e == d then (if d >= n then d - n else -1) else if e <= d + n then d else d + n
  {
    var k := LastTicket(e, d % n, n);
    ModRound(d, n);
    if d >= n { ModRound(d - n, n); }
    if k >= 0 && k < d {
      if k > d - n { ModApart(k, d, n); }
    }
    if d < k < d + n { ModApart(d, k, n); }
    assert d < e ==> k >= d;
    assert d + n < e ==> k >= d + n;
  }
}

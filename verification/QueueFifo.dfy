/** Order of delivery: full FIFO when counting an element and moving it are one step. */
module QueueFifo {
  import opened QueueSystem
  import opened QueueTickets

  /** Nobody has counted an element without moving it. */
  predicate Settled(q: Queue) {
    forall t :: 0 <= t < |q.pcs| ==> !q.pcs[t].PushReserved? && !q.pcs[t].PopReserved?
  }

  /** A pusher counts and stores, or a popper counts and loads, undisturbed. */
  ghost predicate Transfer(q: Queue, q': Queue) {
    exists t: nat, m: Queue :: t < |q.pcs| && TransferVia(q, t, m, q')
  }

  predicate TransferVia(q: Queue, t: nat, m: Queue, q': Queue)
    requires t < |q.pcs|
  {
    |m.pcs| == |q.pcs| && ((PushCheck(q, t, m) && Store(m, t, q')) || (PopCheck(q, t, m) && Load(m, t, q')))
  }

  /** A run in which an element that is counted is moved at once. */
  ghost predicate IsSettledRun(states: seq<Queue>) {
    && |states| > 0 && Init(states[0])
    && (forall k :: 0 <= k < |states| ==> Settled(states[k]))
    && (forall k :: 0 < k < |states| ==> Moves(states[k - 1], states[k]) || Transfer(states[k - 1], states[k]))
  }

  /** The loads so far are the stores so far, in order, but for those still queued. */
  ghost predicate InOrder(q: Queue) {
    && Inv(q) && Settled(q)
    && |q.loaded| <= |q.stored| && q.loaded == q.stored[..|q.loaded|]
    && q.size == |q.stored| - |q.loaded|
  }

  lemma SettledStep(q: Queue, t: nat, q': Queue)
    requires InOrder(q) && Step(q, t, q') && Settled(q')
    ensures InOrder(q')
  {
    StepKeeps(q, t, q');
    assert !Store(q, t, q') && !Load(q, t, q');
    StepHistory(q, t, q');
  }

  /** Only stores and loads add to the history. */
  lemma StepHistory(q: Queue, t: nat, q': Queue)
    requires Step(q, t, q') && !Store(q, t, q') && !Load(q, t, q')
    ensures q'.stored == q.stored && q'.loaded == q.loaded
  {
  }

  lemma TransferInOrder(q: Queue, t: nat, m: Queue, q': Queue)
    requires InOrder(q) && t < |q.pcs| && TransferVia(q, t, m, q') && Settled(q')
    ensures InOrder(q')
  {
    if PushCheck(q, t, m) && Store(m, t, q') {
      StepKeeps(q, t, m);
      StepKeeps(m, t, q');
    } else {
      StepKeeps(q, t, m);
      StepKeeps(m, t, q');
      assert m.popOwner == t && PushReservations(m) == 0;
      LoadReturns(m, t, q');
      assert q.stored[..|q.loaded| + 1] == q.stored[..|q.loaded|] + [q.stored[|q.loaded|]];
    }
  }

  /** FIFO: in such a run what has been loaded is a prefix of what has been stored, and
      the size is the number of elements in between. */
  lemma {:induction false} SettledRunsAreFifo(states: seq<Queue>, k: nat)
    requires IsSettledRun(states) && k < |states|
    ensures InOrder(states[k])
  {
    if k > 0 {
      SettledRunsAreFifo(states, k - 1);
      var q, q' := states[k - 1], states[k];
      if Moves(q, q') {
        var t: nat :| Step(q, t, q');
        SettledStep(q, t, q');
      } else {
        var t: nat, m: Queue :| t < |q.pcs| && TransferVia(q, t, m, q');
        TransferInOrder(q, t, m, q');
      }
    }
  }

  // ---- a store too far ahead -----------------------------------------------------------

  /** Stores a whole round and one ahead: until the next load nothing more is stored. */
  lemma AheadWaits(q: Queue, t: nat, q': Queue)
    requires Inv(q) && Step(q, t, q') && |q.stored| - |q.loaded| == q.capacity + 1 && |q'.loaded| == |q.loaded|
    ensures q'.stored == q.stored && q'.loaded == q.loaded && q'.capacity == q.capacity && Inv(q')
  {
    StepKeeps(q, t, q');
    if Store(q, t, q') {
      assert false;
    } else if !Load(q, t, q') {
      StepHistory(q, t, q');
    }
  }

  /** Once a store has gone a whole round ahead of a stopped popper, the
      next load, whenever it comes, takes the ticket of a round later, and the element that
      was next in order is never loaded. */
  lemma {:induction false} LateLoadSkips(states: seq<Queue>, u: nat, q': Queue)
    requires |states| > 0 && Inv(states[0]) && |states[0].stored| - |states[0].loaded| == states[0].capacity + 1
    requires forall k :: 0 < k < |states| ==>
              Moves(states[k - 1], states[k]) && |states[k].loaded| == |states[0].loaded|
    requires u < |states[|states| - 1].pcs| && Load(states[|states| - 1], u, q')
    ensures var q, d, n := states[0], |states[0].loaded|, states[0].capacity;
            && q'.loaded == q.loaded + [q.stored[d + n]] && q'.stored == q.stored
            && n > 0 && LastTicket(|q.stored|, states[|states| - 1].head, n) == d + n
  {
    var last := |states| - 1;
    AheadStays(states, last);
    LoadReturns(states[last], u, q');
    LoadInOrderIff(states[last], u, q');
    LoadKept(states[last], u, q');
    LastInRound(|states[0].stored|, |states[0].loaded|, states[0].capacity);
    assert states[last].popOwner == u;
  }

  lemma {:induction false} AheadStays(states: seq<Queue>, k: nat)
    requires k < |states| && Inv(states[0]) && |states[0].stored| - |states[0].loaded| == states[0].capacity + 1
    requires forall j :: 0 < j < |states| ==>
              Moves(states[j - 1], states[j]) && |states[j].loaded| == |states[0].loaded|
    ensures Inv(states[k]) && states[k].stored == states[0].stored && states[k].loaded == states[0].loaded
    ensures states[k].capacity == states[0].capacity
  {
    if k > 0 {
      AheadStays(states, k - 1);
      assert Moves(states[k - 1], states[k]);
      var t: nat :| Step(states[k - 1], t, states[k]);
      AheadWaits(states[k - 1], t, states[k]);
    }
  }
}

/** What a call does with its element: pcq_enqueue stores the one it was given, once, before it
    returns, and pcq_dequeue loads one, once, and returns that. */
module QueueCalls {
  import opened QueueSystem

  /** In pcq_enqueue with this element, which is not stored yet. */
  predicate Pushing(pc: Pc, v: Elem) {
    || pc == PushLock(v) || pc == PushTest(v, false) || pc == PushTest(v, true) || pc == PushBlock(v)
    || pc == PushSleep(v) || pc == PushWoken(v) || pc == PushReserved(v)
  }

  predicate Pushed(pc: Pc) {
    pc == PushStored || pc == PushSignal
  }

  /** In pcq_dequeue, with nothing loaded yet. */
  predicate Popping(pc: Pc) {
    pc.PopLock? || pc.PopTest? || pc.PopBlock? || pc.PopSleep? || pc.PopWoken? || pc.PopReserved?
  }

  predicate Popped(pc: Pc, v: Elem) {
    pc == PopLoaded(v) || pc == PopSignal(v)
  }

  /** What thread t stores, or loads, in a step from q to q'. */
  function StoresOf(q: Queue, t: nat, q': Queue): seq<Elem> {
    if t < |q.pcs| && t < |q'.pcs| && q.pcs[t].PushReserved? && !q'.pcs[t].PushReserved? && |q.stored| <= |q'.stored|
    then q'.stored[|q.stored|..] else []
  }

  function LoadsOf(q: Queue, t: nat, q': Queue): seq<Elem> {
    if t < |q.pcs| && t < |q'.pcs| && q.pcs[t].PopReserved? && !q'.pcs[t].PopReserved? && |q.loaded| <= |q'.loaded|
    then q'.loaded[|q.loaded|..] else []
  }

  function StoredBy(states: seq<Queue>, t: nat): seq<Elem> {
    if |states| <= 1 then []
    else StoredBy(states[..|states| - 1], t) + StoresOf(states[|states| - 2], t, states[|states| - 1])
  }

  function LoadedBy(states: seq<Queue>, t: nat): seq<Elem> {
    if |states| <= 1 then []
    else LoadedBy(states[..|states| - 1], t) + LoadsOf(states[|states| - 2], t, states[|states| - 1])
  }

  /** A stretch of steps, in which thread t is inside a call until the last state. */
  ghost predicate Stretch(states: seq<Queue>, t: nat) {
    && |states| > 0
    && (forall k :: 0 < k < |states| ==> Moves(states[k - 1], states[k]))
    && (forall k :: 0 <= k < |states| ==> t < |states[k].pcs|)
    && forall k :: 0 <= k < |states| - 1 ==> !states[k].pcs[t].Outside?
  }

  /** One step, whoever takes it, seen from thread t inside pcq_enqueue. */
  ghost predicate PushCarries(q: Queue, q': Queue, t: nat)
    requires t < |q.pcs| == |q'.pcs|
  {
    && (forall v :: Pushing(q.pcs[t], v) ==>
          || (Pushing(q'.pcs[t], v) && StoresOf(q, t, q') == [])
          || (Pushed(q'.pcs[t]) && StoresOf(q, t, q') == [v] && q'.stored == q.stored + [v]))
    && (Pushed(q.pcs[t]) ==> (Pushed(q'.pcs[t]) || q'.pcs[t].Outside?) && StoresOf(q, t, q') == [])
  }

  /** And inside pcq_dequeue. */
  ghost predicate PopCarries(q: Queue, q': Queue, t: nat)
    requires t < |q.pcs| == |q'.pcs|
  {
    && (Popping(q.pcs[t]) ==>
          || (Popping(q'.pcs[t]) && LoadsOf(q, t, q') == [])
          || exists v :: Popped(q'.pcs[t], v) && LoadsOf(q, t, q') == [v] && q'.loaded == q.loaded + [v])
    && forall v :: Popped(q.pcs[t], v) ==>
         (Popped(q'.pcs[t], v) || (q.pcs[t] == PopSignal(v) && q'.pcs[t].Outside?)) && LoadsOf(q, t, q') == []
  }

  lemma OwnPush(q: Queue, q': Queue, t: nat)
    requires Step(q, t, q')
    ensures |q'.pcs| == |q.pcs| && PushCarries(q, q', t)
  {
  }

  lemma OwnPop(q: Queue, q': Queue, t: nat)
    requires Step(q, t, q')
    ensures |q'.pcs| == |q.pcs| && PopCarries(q, q', t)
  {
    if Load(q, t, q') { assert Popped(q'.pcs[t], q'.pcs[t].v) && LoadsOf(q, t, q') == [q'.pcs[t].v]; }
  }

  /** Another thread's step only wakes. */
  lemma OtherStays(q: Queue, u: nat, q': Queue, t: nat)
    requires Step(q, u, q') && t < |q.pcs| && t != u
    ensures |q'.pcs| == |q.pcs|
    ensures || q'.pcs[t] == q.pcs[t]
            || (q.pcs[t].PushSleep? && q'.pcs[t] == PushWoken(q.pcs[t].v))
            || (q.pcs[t].PopSleep? && q'.pcs[t].PopWoken?)
  {
  }

  lemma StepCarries(q: Queue, u: nat, q': Queue, t: nat)
    requires Step(q, u, q') && t < |q.pcs|
    ensures |q'.pcs| == |q.pcs| && PushCarries(q, q', t) && PopCarries(q, q', t)
  {
    hide Step;
    if u == t {
      OwnPush(q, q', t);
      OwnPop(q, q', t);
    } else {
      OtherStays(q, u, q', t);
    }
  }

  /** From the call of pcq_enqueue with v to its return. */
  lemma {:induction false} PushStoresItsElement(states: seq<Queue>, t: nat, v: Elem)
    requires Stretch(states, t) && states[0].pcs[t] == PushLock(v)
    ensures var pc := states[|states| - 1].pcs[t];
            || (Pushing(pc, v) && StoredBy(states, t) == [])
            || ((Pushed(pc) || pc.Outside?) && StoredBy(states, t) == [v])
  {
    var n := |states| - 1;
    if n > 0 {
      PushStoresItsElement(states[..n], t, v);
      assert Moves(states[n - 1], states[n]);
      var u: nat :| Step(states[n - 1], u, states[n]);
      StepCarries(states[n - 1], u, states[n], t);
      hide Step;
      assert states[..n][n - 1] == states[n - 1];
    }
  }

  /** Inside pcq_dequeue: nothing loaded, or one element, which it is about to return. */
  ghost predicate PopSoFar(pc: Pc, loads: seq<Elem>) {
    (Popping(pc) && loads == []) || exists v :: Popped(pc, v) && loads == [v]
  }

  lemma PopStep(q: Queue, q': Queue, t: nat, loads: seq<Elem>)
    requires t < |q.pcs| == |q'.pcs| && PopCarries(q, q', t) && PopSoFar(q.pcs[t], loads)
    ensures !q'.pcs[t].Outside? ==> PopSoFar(q'.pcs[t], loads + LoadsOf(q, t, q'))
    ensures q'.pcs[t].Outside? ==> exists v :: q.pcs[t] == PopSignal(v) && loads + LoadsOf(q, t, q') == [v]
  {
  }

  lemma {:induction false} PopLoads(states: seq<Queue>, t: nat)
    requires Stretch(states, t) && states[0].pcs[t] == PopLock && !states[|states| - 1].pcs[t].Outside?
    ensures PopSoFar(states[|states| - 1].pcs[t], LoadedBy(states, t))
  {
    hide PopSoFar, PopCarries, LoadsOf, Step;
    var n := |states| - 1;
    if n > 0 {
      PopLoads(states[..n], t);
      var u: nat :| Moves(states[n - 1], states[n]) && Step(states[n - 1], u, states[n]);
      StepCarries(states[n - 1], u, states[n], t);
      PopStep(states[n - 1], states[n], t, LoadedBy(states[..n], t));
    } else {
      PopsNothing();
    }
  }

  lemma PopsNothing()
    ensures PopSoFar(PopLock, [])
  {
  }

  /** From the call of pcq_dequeue to its return: one element is loaded, and returned. */
  lemma PopReturnsItsElement(states: seq<Queue>, t: nat)
    requires Stretch(states, t) && states[0].pcs[t] == PopLock && states[|states| - 1].pcs[t].Outside?
    ensures |states| > 1
    ensures exists v :: states[|states| - 2].pcs[t] == PopSignal(v) && LoadedBy(states, t) == [v]
  {
    hide PopSoFar, PopCarries, LoadsOf, Step;
    var n := |states| - 1;
    PopLoads(states[..n], t);
    var u: nat :| Moves(states[n - 1], states[n]) && Step(states[n - 1], u, states[n]);
    StepCarries(states[n - 1], u, states[n], t);
    PopStep(states[n - 1], states[n], t, LoadedBy(states[..n], t));
  }

  /** Nothing else is stored or loaded: every step adds to the history what one thread stores, or
      loads. */
  lemma HistoryOfCalls(q: Queue, q': Queue)
    requires Moves(q, q')
    ensures q'.stored == q.stored ||
            exists t: nat :: StoresOf(q, t, q') != [] && q'.stored == q.stored + StoresOf(q, t, q')
    ensures q'.loaded == q.loaded ||
            exists t: nat :: LoadsOf(q, t, q') != [] && q'.loaded == q.loaded + LoadsOf(q, t, q')
  {
    var t: nat :| Step(q, t, q');
    if Store(q, t, q') { assert StoresOf(q, t, q') == [q.pcs[t].v]; }
    if Load(q, t, q') { assert LoadsOf(q, t, q') == [q.buffer[q.head]]; }
  }
}

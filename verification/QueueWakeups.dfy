/** No wakeup of the queue is lost: whoever sleeps is owed a signal whenever there is
    something to wake up for, and the threads inside come to rest only when those who
    sleep have to. */
module QueueWakeups {
  import opened Counting
  import opened QueueSystem
  import opened QueueTickets

  /** A popper between its decrement and its signal, or a woken pusher that has not
      looked at the size again. */
  predicate HelpsPushers(pc: Pc) {
    pc.PopReserved? || pc.PopLoaded? || pc.PopSignal? || pc.PushWoken? || (pc.PushTest? && pc.woken)
  }

  predicate HelpsPoppers(pc: Pc) {
    pc.PushReserved? || pc.PushStored? || pc.PushSignal? || pc.PopWoken? || (pc.PopTest? && pc.woken)
  }

  /** Waiting or about to wait. */
  predicate PushWaits(pc: Pc) {
    pc.PushBlock? || pc.PushSleep?
  }

  predicate PopWaits(pc: Pc) {
    pc.PopBlock? || pc.PopSleep?
  }

  function ForPushers(): Pc -> bool {
    (pc: Pc) => HelpsPushers(pc)
  }

  function ForPoppers(): Pc -> bool {
    (pc: Pc) => HelpsPoppers(pc)
  }

  ghost predicate PushersWait(pcs: seq<Pc>) {
    exists u :: 0 <= u < |pcs| && PushWaits(pcs[u])
  }

  ghost predicate PoppersWait(pcs: seq<Pc>) {
    exists u :: 0 <= u < |pcs| && PopWaits(pcs[u])
  }

  /** Free slots are at most the pops about to be signalled plus the wakeups under way. */
  ghost predicate PushersOwed(q: Queue) {
    PushersWait(q.pcs) ==> q.capacity - q.size <= Count(q.pcs, ForPushers())
  }

  ghost predicate PoppersOwed(q: Queue) {
    PoppersWait(q.pcs) ==> q.size <= Count(q.pcs, ForPoppers())
  }

  ghost predicate NoLostWakeup(q: Queue) {
    Inv(q) && PushersOwed(q) && PoppersOwed(q)
  }

  /** How one thread's move changes the two counts and the waiters. */
  lemma OneMoved(pcs: seq<Pc>, t: nat, pc: Pc)
    requires t < |pcs|
    ensures Count(pcs[t := pc], ForPushers())
              == Count(pcs, ForPushers()) - Bit(HelpsPushers(pcs[t])) + Bit(HelpsPushers(pc))
    ensures Count(pcs[t := pc], ForPoppers())
              == Count(pcs, ForPoppers()) - Bit(HelpsPoppers(pcs[t])) + Bit(HelpsPoppers(pc))
    ensures PushersWait(pcs[t := pc]) ==> PushWaits(pc) || PushersWait(pcs)
    ensures PoppersWait(pcs[t := pc]) ==> PopWaits(pc) || PoppersWait(pcs)
  {
    CountUpdate(pcs, t, pc, ForPushers());
    CountUpdate(pcs, t, pc, ForPoppers());
    var pcs' := pcs[t := pc];
    if u :| 0 <= u < |pcs| && PushWaits(pcs'[u]) {
      assert u == t || pcs[u] == pcs'[u];
    }
    if u :| 0 <= u < |pcs| && PopWaits(pcs'[u]) {
      assert u == t || pcs[u] == pcs'[u];
    }
  }

  /** Steps of one thread that wake nobody. */
  predicate Alone(q: Queue, t: nat, q': Queue)
    requires t < |q.pcs|
  {
    MovesPushLock(q, t, q') || MovesPopLock(q, t, q') || PushCheck(q, t, q') || PopCheck(q, t, q')
    || Store(q, t, q') || Load(q, t, q') || Spurious(q, t, q')
  }

  /** The thread of a step never takes more help away than it takes slots, or elements. */
  predicate KeepsHelp(q: Queue, t: nat, q': Queue)
    requires t < |q.pcs| && |q'.pcs| == |q.pcs|
  {
    && q'.pcs == q.pcs[t := q'.pcs[t]] && q'.capacity == q.capacity
    && (PushWaits(q'.pcs[t]) && !PushWaits(q.pcs[t]) ==> q'.size == q.capacity)
    && (PopWaits(q'.pcs[t]) && !PopWaits(q.pcs[t]) ==> q'.size == 0)
    && (q'.size == q.capacity || Bit(HelpsPushers(q'.pcs[t])) - Bit(HelpsPushers(q.pcs[t])) >= q.size - q'.size)
    && (q'.size == 0 || Bit(HelpsPoppers(q'.pcs[t])) - Bit(HelpsPoppers(q.pcs[t])) >= q'.size - q.size)
  }

  lemma LockMoves(q: Queue, t: nat, q': Queue)
    requires t < |q.pcs| && (MovesPushLock(q, t, q') || MovesPopLock(q, t, q'))
    ensures |q'.pcs| == |q.pcs| && KeepsHelp(q, t, q')
  {
  }

  lemma CheckMoves(q: Queue, t: nat, q': Queue)
    requires t < |q.pcs| && (PushCheck(q, t, q') || PopCheck(q, t, q') || Spurious(q, t, q') || Call(q, t, q'))
    ensures |q'.pcs| == |q.pcs| && KeepsHelp(q, t, q')
  {
  }

  lemma AloneMoves(q: Queue, t: nat, q': Queue)
    requires t < |q.pcs| && (Alone(q, t, q') || Call(q, t, q'))
    ensures |q'.pcs| == |q.pcs| && KeepsHelp(q, t, q')
  {
    hide MovesPushLock, MovesPopLock, PushCheck, PopCheck, Spurious, Call;
    if MovesPushLock(q, t, q') || MovesPopLock(q, t, q') {
      LockMoves(q, t, q');
    } else if PushCheck(q, t, q') || PopCheck(q, t, q') || Spurious(q, t, q') || Call(q, t, q') {
      CheckMoves(q, t, q');
    }
  }

  lemma AloneOwed(q: Queue, t: nat, q': Queue)
    requires NoLostWakeup(q) && t < |q.pcs| && (Alone(q, t, q') || Call(q, t, q'))
    ensures PushersOwed(q') && PoppersOwed(q')
  {
    AloneMoves(q, t, q');
    hide Inv, Alone, Call, HelpsPushers, HelpsPoppers;
    OneMoved(q.pcs, t, q'.pcs[t]);
  }

  /** The shape of a signal: the signaller leaves, and a sleeper, if any, is woken. */
  lemma SignalPopperMoves(q: Queue, t: nat, q': Queue) returns (u: int)
    requires t < |q.pcs| && SignalPopper(q, t, q')
    ensures q'.size == q.size && q'.capacity == q.capacity
    ensures u != -1 ==> 0 <= u < |q.pcs| && u != t && q.pcs[u].PopSleep? && q'.pcs == q.pcs[t := Outside][u := PopWoken]
    ensures u == -1 ==> q'.pcs == q.pcs[t := Outside] && forall v :: 0 <= v < |q.pcs| ==> !q.pcs[v].PopSleep?
  {
    if exists v :: 0 <= v < |q.pcs| && q.pcs[v].PopSleep? {
      u :| 0 <= u < |q.pcs| && q.pcs[u].PopSleep? && q' == At(At(q, t, Outside), u, PopWoken);
    } else {
      u := -1;
    }
  }

  lemma SignalPusherMoves(q: Queue, t: nat, q': Queue) returns (u: int)
    requires t < |q.pcs| && SignalPusher(q, t, q')
    ensures q'.size == q.size && q'.capacity == q.capacity
    ensures u != -1 ==>
              && 0 <= u < |q.pcs| && u != t && q.pcs[u].PushSleep?
              && q'.pcs == q.pcs[t := Outside][u := PushWoken(q.pcs[u].v)]
    ensures u == -1 ==> q'.pcs == q.pcs[t := Outside] && forall v :: 0 <= v < |q.pcs| ==> !q.pcs[v].PushSleep?
  {
    if exists v :: 0 <= v < |q.pcs| && q.pcs[v].PushSleep? {
      u :| 0 <= u < |q.pcs| && q.pcs[u].PushSleep? && q' == At(At(q, t, Outside), u, PushWoken(q.pcs[u].v));
    } else {
      u := -1;
    }
  }

  /** While a lock is free, nobody is about to wait under it. */
  lemma FreeLock(q: Queue)
    requires LocksOk(q)
    ensures q.pushOwner == NOBODY ==> forall v :: 0 <= v < |q.pcs| ==> !q.pcs[v].PushBlock?
    ensures q.popOwner == NOBODY ==> forall v :: 0 <= v < |q.pcs| ==> !q.pcs[v].PopBlock?
  {
  }

  lemma SignalPopperOwed(q: Queue, t: nat, q': Queue)
    requires NoLostWakeup(q) && t < |q.pcs| && SignalPopper(q, t, q')
    ensures PushersOwed(q') && PoppersOwed(q')
  {
    FreeLock(q);
    var u := SignalPopperMoves(q, t, q');
    assert q.pcs[t].PushSignal? && q.popOwner == NOBODY;
    hide Inv, SignalPopper;
    OneMoved(q.pcs, t, Outside);
    if u != -1 { OneMoved(q.pcs[t := Outside], u, PopWoken); }
  }

  lemma SignalPusherOwed(q: Queue, t: nat, q': Queue)
    requires NoLostWakeup(q) && t < |q.pcs| && SignalPusher(q, t, q')
    ensures PushersOwed(q') && PoppersOwed(q')
  {
    FreeLock(q);
    var u := SignalPusherMoves(q, t, q');
    assert q.pcs[t].PopSignal? && q.pushOwner == NOBODY;
    hide Inv, SignalPusher;
    OneMoved(q.pcs, t, Outside);
    if u != -1 { OneMoved(q.pcs[t := Outside], u, PushWoken(q.pcs[u].v)); }
  }

  lemma StepOwed(q: Queue, t: nat, q': Queue)
    requires NoLostWakeup(q) && Step(q, t, q')
    ensures NoLostWakeup(q')
  {
    StepKeeps(q, t, q');
    if SignalPopper(q, t, q') {
      SignalPopperOwed(q, t, q');
    } else if SignalPusher(q, t, q') {
      SignalPusherOwed(q, t, q');
    } else {
      AloneOwed(q, t, q');
    }
  }

  /** In every reachable state, a sleeping or blocking pusher on a queue with free slots
      is owed as many wakeups as there are free slots; and likewise for poppers. */
  lemma {:induction false} WakeupsNeverLost(states: seq<Queue>, k: nat)
    requires IsRun(states) && k < |states|
    ensures NoLostWakeup(states[k])
  {
    if k > 0 {
      WakeupsNeverLost(states, k - 1);
      assert Moves(states[k - 1], states[k]);
      var t: nat :| Step(states[k - 1], t, states[k]);
      StepOwed(states[k - 1], t, states[k]);
    }
  }

  // ---- coming to rest --------------------------------------------------------------

  predicate Asleep(pc: Pc) {
    pc.PushSleep? || pc.PopSleep?
  }

  ghost predicate CanWork(q: Queue, t: nat) {
    t < |q.pcs| && exists q' :: Work(q, t, q')
  }

  /** The owner of a condvar lock can always go on. */
  lemma OwnerWorks(q: Queue, t: nat)
    requires Inv(q) && t < |q.pcs| && (InPushSection(q.pcs[t]) || InPopSection(q.pcs[t]))
    ensures CanWork(q, t)
  {
    var q' := OwnerNext(q, t);
    assert Work(q, t, q');
  }

  lemma OwnerNext(q: Queue, t: nat) returns (q': Queue)
    requires Inv(q) && t < |q.pcs| && (InPushSection(q.pcs[t]) || InPopSection(q.pcs[t]))
    ensures Work(q, t, q')
  {
    match q.pcs[t]
    case PushTest(v, woken) =>
      q' := if q.size == q.capacity then At(q, t, PushBlock(v)) else At(q, t, PushReserved(v)).(size := q.size + 1);
    case PushBlock(v) => q' := At(q, t, PushSleep(v)).(pushOwner := NOBODY);
    case PushReserved(v) =>
      assert q.pushOwner == t && q.capacity > 0;
      q' := At(q, t, PushStored).(buffer := q.buffer[q.tail := v], tail := Next(q.tail, q.capacity),
          stored := q.stored + [v]);
    case PushStored => q' := At(q, t, PushSignal).(pushOwner := NOBODY);
    case PopTest(woken) =>
      q' := if q.size == 0 then At(q, t, PopBlock) else At(q, t, PopReserved).(size := q.size - 1);
    case PopBlock => q' := At(q, t, PopSleep).(popOwner := NOBODY);
    case PopReserved =>
      assert q.popOwner == t && q.capacity > 0;
      var v := q.buffer[q.head];
      q' := At(q, t, PopLoaded(v)).(head := Next(q.head, q.capacity), loaded := q.loaded + [v]);
    case PopLoaded(v) => q' := At(q, t, PopSignal(v)).(popOwner := NOBODY);
  }

  /** When nobody owns a condvar lock, every thread inside that is awake can go on. */
  lemma AwakeWorks(q: Queue, t: nat)
    requires t < |q.pcs| && q.pushOwner == NOBODY && q.popOwner == NOBODY
    requires !q.pcs[t].Outside? && !Asleep(q.pcs[t]) && !InPushSection(q.pcs[t]) && !InPopSection(q.pcs[t])
    ensures CanWork(q, t)
  {
    var q' := AwakeNext(q, t);
    assert Work(q, t, q');
  }

  lemma AwakeNext(q: Queue, t: nat) returns (q': Queue)
    requires t < |q.pcs| && q.pushOwner == NOBODY && q.popOwner == NOBODY
    requires !q.pcs[t].Outside? && !Asleep(q.pcs[t]) && !InPushSection(q.pcs[t]) && !InPopSection(q.pcs[t])
    ensures Work(q, t, q')
  {
    match q.pcs[t]
    case PushLock(v) => q' := At(q, t, PushTest(v, false)).(pushOwner := t);
    case PushWoken(v) => q' := At(q, t, PushTest(v, true)).(pushOwner := t);
    case PopLock => q' := At(q, t, PopTest(false)).(popOwner := t);
    case PopWoken => q' := At(q, t, PopTest(true)).(popOwner := t);
    case PushSignal =>
      q' := At(q, t, Outside);
      if u :| 0 <= u < |q.pcs| && q.pcs[u].PopSleep? { q' := At(q', u, PopWoken); }
    case PopSignal(v) =>
      q' := At(q, t, Outside);
      if u :| 0 <= u < |q.pcs| && q.pcs[u].PushSleep? { q' := At(q', u, PushWoken(q.pcs[u].v)); }
  }

  /** No deadlock: when no thread inside can go on, all of them sleep, pushers only on a
      full queue and poppers only on an empty one. */
  lemma AtRest(q: Queue)
    requires NoLostWakeup(q) && forall t: nat :: !CanWork(q, t)
    ensures forall t :: 0 <= t < |q.pcs| ==> q.pcs[t].Outside? || Asleep(q.pcs[t])
    ensures (exists t :: 0 <= t < |q.pcs| && q.pcs[t].PushSleep?) ==> q.size == q.capacity
    ensures (exists t :: 0 <= t < |q.pcs| && q.pcs[t].PopSleep?) ==> q.size == 0
  {
    forall t: nat | t < |q.pcs| ensures q.pcs[t].Outside? || Asleep(q.pcs[t]) {
      NobodyOwns(q);
      if !(q.pcs[t].Outside? || Asleep(q.pcs[t])) {
        AwakeWorks(q, t);
      }
    }
    CountZero(q.pcs, ForPushers());
    CountZero(q.pcs, ForPoppers());
    if u :| 0 <= u < |q.pcs| && q.pcs[u].PushSleep? { assert PushWaits(q.pcs[u]); }
    if u :| 0 <= u < |q.pcs| && q.pcs[u].PopSleep? { assert PopWaits(q.pcs[u]); }
  }

  lemma NobodyOwns(q: Queue)
    requires Inv(q) && forall t: nat :: !CanWork(q, t)
    ensures q.pushOwner == NOBODY && q.popOwner == NOBODY
    ensures forall t :: 0 <= t < |q.pcs| ==> !InPushSection(q.pcs[t]) && !InPopSection(q.pcs[t])
  {
    if q.pushOwner != NOBODY { OwnerWorks(q, q.pushOwner); }
    if q.popOwner != NOBODY { OwnerWorks(q, q.popOwner); }
  }

  /** How far a thread is from leaving its call, with what a wakeup costs set aside. */
  function Rank(pc: Pc): nat {
    match pc
    case Outside => 0
    case PushLock(_) => 8
    case PushTest(_, _) => 7
    case PushBlock(_) => 6
    case PushSleep(_) => 5
    case PushWoken(_) => 8
    case PushReserved(_) => 6
    case PushStored => 5
    case PushSignal => 4
    case PopLock => 8
    case PopTest(_) => 7
    case PopBlock => 6
    case PopSleep => 5
    case PopWoken => 8
    case PopReserved => 6
    case PopLoaded(_) => 5
    case PopSignal(_) => 4
  }

  function Ranks(): Pc -> nat {
    (pc: Pc) => Rank(pc)
  }

  lemma AloneRank(q: Queue, t: nat, q': Queue)
    requires t < |q.pcs| && Alone(q, t, q') && !Spurious(q, t, q')
    ensures |q'.pcs| == |q.pcs| && Rank(q'.pcs[t]) < Rank(q.pcs[t])
  {
  }

  lemma AloneEnds(q: Queue, t: nat, q': Queue)
    requires t < |q.pcs| && Alone(q, t, q') && !Spurious(q, t, q')
    ensures Sum(q'.pcs, Ranks()) < Sum(q.pcs, Ranks())
  {
    AloneMoves(q, t, q');
    AloneRank(q, t, q');
    hide Alone, Spurious;
    SumUpdate(q.pcs, t, q'.pcs[t], Ranks());
  }

  lemma SignalPopperEnds(q: Queue, t: nat, q': Queue)
    requires t < |q.pcs| && SignalPopper(q, t, q')
    ensures Sum(q'.pcs, Ranks()) < Sum(q.pcs, Ranks())
  {
    var u := SignalPopperMoves(q, t, q');
    assert q.pcs[t].PushSignal?;
    hide SignalPopper;
    SumUpdate(q.pcs, t, Outside, Ranks());
    if u != -1 { SumUpdate(q.pcs[t := Outside], u, PopWoken, Ranks()); }
  }

  lemma SignalPusherEnds(q: Queue, t: nat, q': Queue)
    requires t < |q.pcs| && SignalPusher(q, t, q')
    ensures Sum(q'.pcs, Ranks()) < Sum(q.pcs, Ranks())
  {
    var u := SignalPusherMoves(q, t, q');
    assert q.pcs[t].PopSignal?;
    hide SignalPusher;
    SumUpdate(q.pcs, t, Outside, Ranks());
    if u != -1 { SumUpdate(q.pcs[t := Outside], u, PushWoken(q.pcs[u].v), Ranks()); }
  }

  /** Work comes to an end: each step lowers the total rank, even one that wakes a
      sleeper. */
  lemma WorkEnds(q: Queue, t: nat, q': Queue)
    requires t < |q.pcs| && Work(q, t, q')
    ensures Sum(q'.pcs, Ranks()) < Sum(q.pcs, Ranks())
  {
    if SignalPopper(q, t, q') {
      SignalPopperEnds(q, t, q');
    } else if SignalPusher(q, t, q') {
      SignalPusherEnds(q, t, q');
    } else {
      hide SignalPopper, SignalPusher;
      AloneEnds(q, t, q');
    }
  }

  ghost predicate Works(q: Queue, q': Queue) {
    exists t: nat :: t < |q.pcs| && Work(q, t, q')
  }

  /** Without new calls and spurious wakeups the threads come to rest: any stretch of
      work is at most as long as the total rank it starts with. */
  lemma {:induction false} WorkIsBounded(states: seq<Queue>, k: nat)
    requires |states| > 0 && forall j :: 0 < j < |states| ==> Works(states[j - 1], states[j])
    requires k < |states|
    ensures Sum(states[k].pcs, Ranks()) + k <= Sum(states[0].pcs, Ranks())
  {
    if k > 0 {
      WorkIsBounded(states, k - 1);
      assert Works(states[k - 1], states[k]);
      var t: nat :| t < |states[k - 1].pcs| && Work(states[k - 1], t, states[k]);
      WorkEnds(states[k - 1], t, states[k]);
    }
  }
}

/** Locks, counters and the status of boxes, in every reachable state of the broker. */
module BrokerControl {
  import opened Counting
  import opened TfsTypes
  import opened BrokerFs
  import opened BrokerSystem

  /** The worker is between the lock of its box's mutex and the unlock or wait. */
  predicate Holds(w: Worker) {
    || (w.Sub? && (w.spc == SRead || w.spc == SWait || w.spc == SExit))
    || (w.Rem? && (w.rpc == RPubTest || w.rpc == RSubTest))
  }

  /** box_remove is past its broadcast. */
  predicate PastBroadcast(pc: RemPc) {
    pc == RSubLock || pc == RSubTest || pc == RSubSleep || pc == RSubWoken
  }

  /** What a worker's program counter says of its box. */
  predicate Fits(t: int, w: Worker, x: Box) {
    && HasBox(w)
    && x.taken == TAKEN
    && (Holds(w) <==> x.mutex == t)
    && (w.Sub? ==> (w.spc == SWait ==> !x.closed) && (w.spc == SExit ==> x.closed) && (w.spc == SSleep ==> !x.swept))
    && (w.Rem? ==> (w.rpc == RLock <==> !x.closed) && (PastBroadcast(w.rpc) <==> x.swept)
                   && (w.rpc == RBcast || PastBroadcast(w.rpc) ==> x.nPubs == 0))
  }

  function SubsOf(b: nat): Worker -> bool {
    (w: Worker) => w.Sub? && w.box == b
  }

  function PubsOf(b: nat): Worker -> bool {
    (w: Worker) => w.Pub? && w.box == b
  }

  /** The counters are the numbers of registered sessions. */
  ghost predicate CountsOk(s: Broker, b: nat)
    requires b < |s.boxes|
  {
    && s.boxes[b].nSubs == Count(s.workers, SubsOf(b))
    && s.boxes[b].nPubs == Count(s.workers, PubsOf(b)) <= 1
  }

  /** A remover of this box that has closed it. */
  predicate ClosedBy(s: Broker, b: nat, t: int) {
    0 <= t < |s.workers| && s.workers[t].Rem? && s.workers[t].box == b && s.workers[t].rpc != RLock
  }

  /** A held mutex is held by a worker at the box. */
  ghost predicate MutexOk(s: Broker, b: nat)
    requires b < |s.boxes|
  {
    var m := s.boxes[b].mutex;
    m == NOBODY || (0 <= m < |s.workers| && Holds(s.workers[m]) && s.workers[m].box == b)
  }

  /** A closed box has a remover, and a publisher that is left has been poked. */
  ghost predicate StatusOk(s: Broker, b: nat)
    requires b < |s.boxes|
  {
    var x := s.boxes[b];
    x.taken == TAKEN ==>
      && (x.closed ==> ClosedBy(s, b, s.table))
      && (x.swept || x.poked ==> x.closed)
      && (x.closed && x.nPubs > 0 ==> x.poked)
  }

  ghost predicate BoxOk(s: Broker, b: nat)
    requires b < |s.boxes|
  {
    CountsOk(s, b) && MutexOk(s, b) && StatusOk(s, b)
  }

  ghost predicate TableOk(s: Broker) {
    && -1 <= s.table < |s.workers|
    && forall t :: 0 <= t < |s.workers| ==> (s.workers[t].Rem? <==> s.table == t)
  }

  ghost predicate WorkerOk(s: Broker, t: nat)
    requires t < |s.workers|
  {
    HasBox(s.workers[t]) ==> s.workers[t].box < |s.boxes| && Fits(t, s.workers[t], s.boxes[s.workers[t].box])
  }

  ghost predicate ControlOk(s: Broker) {
    && TableOk(s)
    && (forall t: nat :: t < |s.workers| ==> WorkerOk(s, t))
    && (forall b: nat :: b < |s.boxes| ==> BoxOk(s, b))
  }

  // ---- one step, seen from the worker that takes it and from another one -----------------

  /** The worker stays with its box, in the same role, or is done. */
  lemma OwnFits(c: Config, t: nat, w: Worker, x: Box, fs: Fs, e: Effect)
    requires Fits(t, w, x) && LocalStep(c, t, w, x, fs, e) && !e.w.Crashed?
    requires (x.swept ==> x.closed) && x.nPubs >= 0
    ensures !e.w.Idle? ==> e.w.Sub? == w.Sub? && e.w.Pub? == w.Pub? && e.w.Rem? == w.Rem?
    ensures !e.w.Idle? ==> e.w.box == w.box && Fits(t, e.w, e.box)
    ensures e.w.Idle? ==> e.box.mutex != t
  {
  }

  lemma SubBox(c: Config, t: nat, w: Worker, x: Box, fs: Fs, e: Effect)
    requires w.Sub? && Fits(t, w, x) && SubStep(c, t, w, x, fs, e) && !e.w.Crashed?
    ensures e.box == x.(nSubs := e.box.nSubs, mutex := e.box.mutex) && !e.w.Pub? && !e.w.Rem?
    ensures e.box.nSubs == x.nSubs + Bit(e.w.Sub?) - 1
    ensures e.box.mutex == x.mutex || (x.mutex == NOBODY && e.box.mutex == t) || (x.mutex == t && e.box.mutex == NOBODY)
  {
    hide Open, ToRead, ReadData, Advance, Close;
  }

  lemma PubBox(c: Config, t: nat, w: Worker, x: Box, fs: Fs, e: Effect)
    requires w.Pub? && PubStep(c, t, w, x, fs, e) && !e.w.Crashed?
    ensures e.box == x.(nPubs := e.box.nPubs, boxSize := e.box.boxSize, published := e.box.published)
    ensures e.box.nPubs == x.nPubs + Bit(e.w.Pub?) - 1 && !e.w.Sub? && !e.w.Rem?
  {
    hide Open, ToWrite, WriteData, Close;
  }

  /** How the box changes, whatever the step. */
  lemma BoxMoves(c: Config, t: nat, w: Worker, x: Box, fs: Fs, e: Effect)
    requires Fits(t, w, x) && LocalStep(c, t, w, x, fs, e) && !e.w.Crashed?
    ensures e.box.nSubs == x.nSubs + Bit(e.w.Sub?) - Bit(w.Sub?)
    ensures e.box.nPubs == x.nPubs + Bit(e.w.Pub?) - Bit(w.Pub?)
    ensures e.box.mutex == x.mutex || (x.mutex == NOBODY && e.box.mutex == t) || (x.mutex == t && e.box.mutex == NOBODY)
    ensures e.box.taken == TAKEN || (x.nSubs <= 0 && x.nPubs == 0 && w.Rem? && e.w.Idle?)
    ensures e.box.closed == x.closed || (w.Rem? && w.rpc == RLock && x.mutex == NOBODY && e.box.closed)
    ensures e.box.swept == x.swept || (w.Rem? && !e.w.Idle? && e.box.swept && (x.nSubs > 0 ==> e.wake == All))
    ensures e.box.poked == x.poked || (w.Rem? && w.rpc == RLock)
    ensures w.Rem? && w.rpc == RLock ==> e.box.poked == (x.nPubs > 0) && e.w.Rem? && e.w.rpc != RLock
    ensures e.w.Rem? && w.Rem? && w.rpc != RLock ==> e.w.rpc != RLock
    ensures w.Rem? && e.w.Idle? ==> e.box.taken == FREE
  {
    if w.Sub? {
      hide SubStep, Fits;
      SubBox(c, t, w, x, fs, e);
    } else if w.Pub? {
      hide PubStep;
      PubBox(c, t, w, x, fs, e);
    }
  }

  /** Another worker with the same box, possibly woken, still fits. */
  lemma OthersFit(c: Config, t: nat, w: Worker, x: Box, fs: Fs, e: Effect, u: nat, v: Worker, v': Worker)
    requires Fits(t, w, x) && LocalStep(c, t, w, x, fs, e) && !e.w.Crashed?
    requires u != t && Fits(u, v, x) && v.box == w.box && !(v.Rem? && w.Rem?)
    requires (v.Sub? ==> x.nSubs > 0) && (v.Pub? || w.Pub? ==> x.nPubs > 0)
    requires v' == v || v' == Woken(v)
    requires e.wake == All && SleepsOn(v, w.box) ==> v' == Woken(v)
    ensures v'.box == v.box && Fits(u, v', e.box)
  {
    BoxMoves(c, t, w, x, fs, e);
  }

  /** Waking changes nothing but the program counters of sleepers. */
  lemma AwokenEach(ws: seq<Worker>, b: nat, wake: Wake, ws': seq<Worker>)
    requires Awoken(ws, b, wake, ws')
    ensures |ws'| == |ws|
    ensures forall u :: 0 <= u < |ws| ==> ws'[u] == ws[u] || (SleepsOn(ws[u], b) && ws'[u] == Woken(ws[u]))
    ensures wake == All ==> forall u :: 0 <= u < |ws| && SleepsOn(ws[u], b) ==> ws'[u] == Woken(ws[u])
  {
  }

  /** Same role and box for everybody. */
  ghost predicate SameRoles(ws: seq<Worker>, ws': seq<Worker>) {
    && |ws'| == |ws|
    && forall u :: 0 <= u < |ws| ==>
         && ws'[u].Sub? == ws[u].Sub? && ws'[u].Pub? == ws[u].Pub? && ws'[u].Rem? == ws[u].Rem?
         && (HasBox(ws[u]) ==> ws'[u].box == ws[u].box)
  }

  lemma AwokenRoles(ws: seq<Worker>, b: nat, wake: Wake, ws': seq<Worker>)
    requires Awoken(ws, b, wake, ws')
    ensures SameRoles(ws, ws')
  {
    AwokenEach(ws, b, wake, ws');
  }

  lemma RolesCount(ws: seq<Worker>, ws': seq<Worker>, b: nat)
    requires SameRoles(ws, ws')
    ensures Count(ws', SubsOf(b)) == Count(ws, SubsOf(b)) && Count(ws', PubsOf(b)) == Count(ws, PubsOf(b))
  {
    CountAgree(ws, ws', SubsOf(b));
    CountAgree(ws, ws', PubsOf(b));
  }

  /** A worker with a box is one of those counted. */
  lemma RegisteredCounts(s: Broker, u: nat)
    requires u < |s.workers| && HasBox(s.workers[u]) && s.workers[u].box < |s.boxes| && CountsOk(s, s.workers[u].box)
    ensures s.workers[u].Sub? ==> s.boxes[s.workers[u].box].nSubs > 0
    ensures s.workers[u].Pub? ==> s.boxes[s.workers[u].box].nPubs > 0
  {
    if s.workers[u].Sub? { CountMember(s.workers, u, SubsOf(s.workers[u].box)); }
    if s.workers[u].Pub? { CountMember(s.workers, u, PubsOf(s.workers[u].box)); }
  }

  // ---- a step of a worker with a box ---------------------------------------------------

  lemma MoveCounts(c: Config, s: Broker, t: nat, e: Effect, ws': seq<Worker>, s': Broker, b: nat)
    requires ControlOk(s) && MoveBy(c, s, t, e, ws', s') && !e.w.Crashed? && b < |s.boxes|
    ensures CountsOk(s', b)
  {
    var w := s.workers[t];
    assert WorkerOk(s, t) && BoxOk(s, b) && BoxOk(s, w.box);
    OwnFits(c, t, w, s.boxes[w.box], s.fs, e);
    BoxMoves(c, t, w, s.boxes[w.box], s.fs, e);
    hide LocalStep, Fits;
    AwokenRoles(s.workers[t := e.w], w.box, e.wake, ws');
    hide Awoken, SameRoles;
    CountUpdate(s.workers, t, e.w, SubsOf(b));
    CountUpdate(s.workers, t, e.w, PubsOf(b));
    RolesCount(s.workers[t := e.w], ws', b);
  }

  lemma MoveTable(c: Config, s: Broker, t: nat, e: Effect, ws': seq<Worker>, s': Broker)
    requires ControlOk(s) && MoveBy(c, s, t, e, ws', s') && !e.w.Crashed?
    ensures TableOk(s')
  {
    var w := s.workers[t];
    assert WorkerOk(s, t) && BoxOk(s, w.box);
    OwnFits(c, t, w, s.boxes[w.box], s.fs, e);
    hide LocalStep, Fits;
    AwokenEach(s.workers[t := e.w], w.box, e.wake, ws');
  }

  lemma MoveWorker(c: Config, s: Broker, t: nat, e: Effect, ws': seq<Worker>, s': Broker, u: nat)
    requires ControlOk(s) && MoveBy(c, s, t, e, ws', s') && !e.w.Crashed? && u < |s.workers|
    ensures WorkerOk(s', u)
  {
    var w, v := s.workers[t], s.workers[u];
    assert WorkerOk(s, t) && WorkerOk(s, u) && BoxOk(s, w.box);
    assert s.workers[t].Rem? && s.workers[u].Rem? ==> t == u;
    AwokenEach(s.workers[t := e.w], w.box, e.wake, ws');
    OwnFits(c, t, w, s.boxes[w.box], s.fs, e);
    if u != t && HasBox(v) && v.box == w.box {
      assert BoxOk(s, v.box);
      RegisteredCounts(s, u);
      RegisteredCounts(s, t);
      OthersFit(c, t, w, s.boxes[w.box], s.fs, e, u, v, ws'[u]);
    } else if u == t && SleepsOn(e.w, w.box) {
      WokenFits(t, e.w, e.box);
    }
  }

  lemma WokenFits(t: int, w: Worker, x: Box)
    requires Fits(t, w, x)
    ensures Fits(t, Woken(w), x)
  {
  }

  lemma MoveMutex(c: Config, s: Broker, t: nat, e: Effect, ws': seq<Worker>, s': Broker, b: nat)
    requires ControlOk(s) && MoveBy(c, s, t, e, ws', s') && !e.w.Crashed? && b < |s.boxes|
    ensures MutexOk(s', b)
  {
    var w := s.workers[t];
    assert WorkerOk(s, t) && BoxOk(s, b) && BoxOk(s, w.box);
    AwokenEach(s.workers[t := e.w], w.box, e.wake, ws');
    OwnFits(c, t, w, s.boxes[w.box], s.fs, e);
    BoxMoves(c, t, w, s.boxes[w.box], s.fs, e);
    hide LocalStep, CountsOk, ClosedBy;
  }

  /** Elsewhere the box stays, and so does its remover. */
  lemma StatusElsewhere(c: Config, s: Broker, t: nat, e: Effect, ws': seq<Worker>, s': Broker, b: nat)
    requires ControlOk(s) && MoveBy(c, s, t, e, ws', s') && !e.w.Crashed? && b < |s.boxes| && b != s.workers[t].box
    ensures StatusOk(s', b)
  {
    var w := s.workers[t];
    assert WorkerOk(s, t) && StatusOk(s, b) by { assert BoxOk(s, b); }
    OwnFits(c, t, w, s.boxes[w.box], s.fs, e) by { assert BoxOk(s, w.box); }
    AwokenEach(s.workers[t := e.w], w.box, e.wake, ws');
    assert w.Rem? <==> s.table == t;
    hide LocalStep, Awoken, Fits, ControlOk;
  }

  lemma StatusHere(c: Config, s: Broker, t: nat, e: Effect, ws': seq<Worker>, s': Broker)
    requires ControlOk(s) && MoveBy(c, s, t, e, ws', s') && !e.w.Crashed?
    ensures StatusOk(s', s.workers[t].box)
  {
    var w := s.workers[t];
    assert WorkerOk(s, t) && StatusOk(s, w.box) by { assert BoxOk(s, w.box); }
    BoxMoves(c, t, w, s.boxes[w.box], s.fs, e);
    AwokenEach(s.workers[t := e.w], w.box, e.wake, ws');
    OwnFits(c, t, w, s.boxes[w.box], s.fs, e) by { assert BoxOk(s, w.box); }
    assert w.Rem? <==> s.table == t;
    hide LocalStep, Awoken, Fits, ControlOk;
  }

  lemma MoveStatus(c: Config, s: Broker, t: nat, e: Effect, ws': seq<Worker>, s': Broker, b: nat)
    requires ControlOk(s) && MoveBy(c, s, t, e, ws', s') && !e.w.Crashed? && b < |s.boxes|
    ensures StatusOk(s', b)
  {
    hide LocalStep, Awoken, ControlOk, StatusOk;
    if b == s.workers[t].box { StatusHere(c, s, t, e, ws', s'); } else { StatusElsewhere(c, s, t, e, ws', s', b); }
  }

  /** Every step of a worker with a box keeps the control state in order. */
  lemma MoveControl(c: Config, s: Broker, t: nat, e: Effect, ws': seq<Worker>, s': Broker)
    requires ControlOk(s) && MoveBy(c, s, t, e, ws', s') && !e.w.Crashed?
    ensures ControlOk(s')
  {
    MoveTable(c, s, t, e, ws', s');
    assert |s'.workers| == |s.workers| && |s'.boxes| == |s.boxes|;
    forall u: nat | u < |s'.workers| ensures WorkerOk(s', u) { MoveWorker(c, s, t, e, ws', s', u); }
    forall b: nat | b < |s'.boxes| ensures BoxOk(s', b) {
      MoveCounts(c, s, t, e, ws', s', b);
      MoveMutex(c, s, t, e, ws', s', b);
      MoveStatus(c, s, t, e, ws', s', b);
    }
  }

  // ---- entering and waking ------------------------------------------------------------

  lemma AddSubControl(s: Broker, t: nat, b: nat, name: Name, s': Broker)
    requires ControlOk(s) && AddSub(s, t, b, name, s')
    ensures ControlOk(s')
  {
    OthersUnmoved(s, t, b, s');
    forall d: nat | d < |s'.boxes| ensures BoxOk(s', d) {
      assert BoxOk(s, d);
      CountUpdate(s.workers, t, s'.workers[t], SubsOf(d));
      CountUpdate(s.workers, t, s'.workers[t], PubsOf(d));
    }
  }

  lemma AddPubControl(s: Broker, t: nat, b: nat, name: Name, s': Broker)
    requires ControlOk(s) && AddPub(s, t, b, name, s')
    ensures ControlOk(s')
  {
    OthersUnmoved(s, t, b, s');
    forall d: nat | d < |s'.boxes| ensures BoxOk(s', d) {
      assert BoxOk(s, d);
      CountUpdate(s.workers, t, s'.workers[t], SubsOf(d));
      CountUpdate(s.workers, t, s'.workers[t], PubsOf(d));
    }
  }

  lemma StartRemoveControl(s: Broker, t: nat, b: nat, name: Name, s': Broker)
    requires ControlOk(s) && StartRemove(s, t, b, name, s')
    ensures ControlOk(s')
  {
    assert BoxOk(s, b);
    OthersUnmoved(s, t, b, s');
    forall d: nat | d < |s'.boxes| ensures BoxOk(s', d) {
      assert BoxOk(s, d);
      CountUpdate(s.workers, t, s'.workers[t], SubsOf(d));
      CountUpdate(s.workers, t, s'.workers[t], PubsOf(d));
    }
  }

  /** While the table lock is free: one idle worker enters, one box changes its counters. */
  lemma OthersUnmoved(s: Broker, t: nat, b: nat, s': Broker)
    requires ControlOk(s) && t < |s.workers| && s.workers[t].Idle? && b < |s.boxes| && s.table == NOBODY
    requires |s'.workers| == |s.workers| && s'.workers == s.workers[t := s'.workers[t]]
    requires |s'.boxes| == |s.boxes| && s'.boxes == s.boxes[b := s'.boxes[b]]
    requires s'.boxes[b] == s.boxes[b].(nSubs := s'.boxes[b].nSubs, nPubs := s'.boxes[b].nPubs)
    requires WorkerOk(s', t)
    ensures forall u: nat :: u < |s'.workers| ==> WorkerOk(s', u)
  {
    forall u: nat | u < |s'.workers| ensures WorkerOk(s', u) {
      assert WorkerOk(s, u);
    }
  }

  /** Nobody is at a free slot. */
  lemma FreeSlotUnused(s: Broker, b: nat)
    requires ControlOk(s) && b < |s.boxes| && s.boxes[b].taken == FREE
    ensures Count(s.workers, SubsOf(b)) == 0 && Count(s.workers, PubsOf(b)) == 0
    ensures forall u: nat :: u < |s.workers| && HasBox(s.workers[u]) ==> s.workers[u].box != b
  {
    forall u: nat | u < |s.workers| && HasBox(s.workers[u]) ensures s.workers[u].box != b {
      assert WorkerOk(s, u);
    }
    CountZero(s.workers, SubsOf(b));
    CountZero(s.workers, PubsOf(b));
  }

  lemma CreateControl(c: Config, s: Broker, t: nat, b: nat, name: Name, newId: nat, room: bool, s': Broker)
    requires ControlOk(s) && Create(c, s, t, b, name, newId, room, s')
    ensures ControlOk(s')
  {
    FreeSlotUnused(s, b);
    assert s'.workers == s.workers && s'.table == s.table && |s'.boxes| == |s.boxes|;
    forall u: nat | u < |s'.workers| ensures WorkerOk(s', u) { assert WorkerOk(s, u); }
    forall d: nat | d < |s'.boxes| ensures BoxOk(s', d) { assert BoxOk(s, d); }
  }

  lemma SpuriousControl(s: Broker, t: nat, s': Broker)
    requires ControlOk(s) && Spurious(s, t, s')
    ensures ControlOk(s')
  {
    var v := Woken(s.workers[t]);
    forall u: nat | u < |s'.workers| ensures WorkerOk(s', u) { assert WorkerOk(s, u); }
    forall d: nat | d < |s'.boxes| ensures BoxOk(s', d) {
      assert BoxOk(s, d);
      CountUpdate(s.workers, t, v, SubsOf(d));
      CountUpdate(s.workers, t, v, PubsOf(d));
    }
  }

  lemma EnterControl(c: Config, s: Broker, t: nat, s': Broker)
    requires ControlOk(s) && Enter(c, s, t, s')
    ensures ControlOk(s')
  {
    if b, name :| AddSub(s, t, b, name, s') {
      AddSubControl(s, t, b, name, s');
    } else if b, name :| AddPub(s, t, b, name, s') {
      AddPubControl(s, t, b, name, s');
    } else if b, name :| StartRemove(s, t, b, name, s') {
      StartRemoveControl(s, t, b, name, s');
    } else {
      var b, name, newId, room :| Create(c, s, t, b, name, newId, room, s');
      CreateControl(c, s, t, b, name, newId, room, s');
    }
  }

  lemma InitControl(s: Broker)
    requires Init(s)
    ensures ControlOk(s)
  {
    forall b: nat | b < |s.boxes| ensures BoxOk(s, b) {
      assert EmptySlot(s.boxes[b]);
      CountZero(s.workers, SubsOf(b));
      CountZero(s.workers, PubsOf(b));
    }
  }
}

/** The broker as a transition system: any number of boxes and of workers, each in a
    subscriber session, in a publisher session, removing a box, or idle. A step is what
    one worker does between two points where others can interfere. The table lock is
    held by a remover across steps, a box's mutex by whoever is between its lock and
    its unlock or wait; sleepers are in the wait set of their box's condvar. */
module BrokerSystem {
  import opened TfsTypes
  import opened BrokerFs

  const NOBODY := -1

  /** handle_register_subscriber (p2/mbroker/mbroker.c:89-156). */
  datatype SubPc =
    | SOpen      // 102: registered, about to open the file
    | SOpenFail  // 104: open failed, about to deregister
    | STop       // 115: about to lock the box
    | SRead      // 117: holds the mutex, about to read
    | SWait      // 120: holds the mutex, about to wait
    | SSleep     // 120: in the wait set
    | SWoken     // 120: out of the wait set, wants the mutex
    | SExit      // 125: holds the mutex, saw the box closed
    | SSend      // 141: about to send what it read
    | SBreak     // 145: read failed, about to close
    | SLeave     // 148: about to deregister

  /** handle_register_publisher (p2/mbroker/mbroker.c:171-258). */
  datatype PubPc =
    | POpen      // 186
    | POpenFail  // 188
    | PTop       // 204: waiting for a code from the client
    | PCheck     // 207: about to lock the box and look at its status
    | PMsg       // 230: waiting for a message from the client
    | PWrite     // 237: about to write the message
    | PBcast     // 241: about to lock the box and broadcast
    | PBreak     // 247: about to close
    | PLeave     // 250: about to deregister

  /** box_remove (p2/mbroker/data.c:108-183); a remover holds the table lock. */
  datatype RemPc =
    | RLock      // 123
    | RPubTest   // 140: holds the mutex
    | RPubSleep  // 144
    | RPubWoken  // 144
    | RBcast     // 156
    | RSubLock   // 163
    | RSubTest   // 166: holds the mutex
    | RSubSleep  // 170
    | RSubWoken  // 170

  /** What the publisher's pipe delivers: end of file, a publish code, another code. */
  datatype Event = Hangup | Publish | Garbage

  datatype Worker =
    | Idle
    | Sub(spc: SubPc, box: nat, h: int, data: seq<byte>, sent: seq<seq<byte>>)
    | Pub(ppc: PubPc, box: nat, h: int, ev: Event, msg: seq<byte>)
    | Rem(rpc: RemPc, box: nat)
    | Crashed    // a failed assertion or a wrapped subtraction

  /** A slot of server_boxes. Of its history: the inode of its file, the messages
      published to it since it was created, whether box_remove has written to the
      publisher's pipe, and whether it has passed its broadcast. */
  datatype Box = Box(taken: AllocState, name: Name, nSubs: int, nPubs: int, boxSize: nat, closed: bool, mutex: int,
                     inode: int, published: seq<seq<byte>>, poked: bool, swept: bool)

  datatype Broker = Broker(boxes: seq<Box>, table: int, amount: int, workers: seq<Worker>, fs: Fs)

  datatype Wake = None | One | All

  /** The effect of a step on the worker, its box and the files, and whom it wakes. */
  datatype Effect = Effect(w: Worker, box: Box, fs: Fs, wake: Wake)

  // ---- steps of a worker with a box ---------------------------------------------------

  predicate SubStep(c: Config, t: int, w: Worker, x: Box, fs: Fs, e: Effect)
    requires w.Sub?
  {
    match w.spc
    case SOpen =>
      var (fs1, h) := Open(c, fs, x.name, false);
      e == Effect(if h == FAILED then w.(spc := SOpenFail) else w.(spc := STop, h := h), x, fs1, None)
    case SOpenFail => x.mutex == NOBODY && e == Effect(Idle, x.(nSubs := x.nSubs - 1), fs, None)
    case STop => x.mutex == NOBODY && e == Effect(w.(spc := SRead), x.(mutex := t), fs, None)
    case SRead => (
      match ToRead(c, fs, w.h)
      case NoHandle =>
        if x.closed then e == Effect(w.(spc := SExit), x, fs, None)
        else e == Effect(w.(spc := SBreak), x.(mutex := NOBODY), fs, None)
      case Underflow => e == Effect(Crashed, x, fs, None)
      case Some(n) =>
        if x.closed then e == Effect(w.(spc := SExit), x, Advance(fs, w.h, n), None)
        else if n == 0 then e == Effect(w.(spc := SWait), x, fs, None)
        else e == Effect(w.(spc := SSend, data := ReadData(fs, w.h, n)), x.(mutex := NOBODY),
                         Advance(fs, w.h, n), None))
    case SWait => e == Effect(w.(spc := SSleep), x.(mutex := NOBODY), fs, None)
    case SSleep => false
    case SWoken => x.mutex == NOBODY && e == Effect(w.(spc := SRead), x.(mutex := t), fs, None)
    case SExit => e == Effect(Idle, x.(nSubs := x.nSubs - 1, mutex := NOBODY), Close(fs, w.h), One)
    case SSend => e == Effect(w.(spc := STop, data := [], sent := w.sent + [w.data]), x, fs, None)
    case SBreak => e == Effect(w.(spc := SLeave), x, Close(fs, w.h), None)
    case SLeave => x.mutex == NOBODY && e == Effect(Idle, x.(nSubs := x.nSubs - 1), fs, All)
  }

  predicate PubStep(c: Config, t: int, w: Worker, x: Box, fs: Fs, e: Effect)
    requires w.Pub?
  {
    match w.ppc
    case POpen =>
      var (fs1, h) := Open(c, fs, x.name, true);
      e == Effect(if h == FAILED then w.(ppc := POpenFail) else w.(ppc := PTop, h := h), x, fs1, None)
    case POpenFail => x.mutex == NOBODY && e == Effect(Idle, x.(nPubs := x.nPubs - 1), fs, None)
    case PTop => e.w.Pub? && e == Effect(w.(ppc := PCheck, ev := e.w.ev), x, fs, None)
    case PCheck =>
      x.mutex == NOBODY &&
      if x.closed then e == Effect(Idle, x.(nPubs := x.nPubs - 1), Close(fs, w.h), One)
      else e == Effect(w.(ppc := if w.ev == Publish then PMsg else PBreak), x, fs, None)
    case PMsg =>
      || e == Effect(w.(ppc := PBreak), x, fs, None)
      || (e.w.Pub? && |e.w.msg| == c.msgLength && e == Effect(w.(ppc := PWrite, msg := e.w.msg), x, fs, None))
    case PWrite => (
      match ToWrite(c, fs, w.h)
      case NoHandle => e == Effect(w.(ppc := PBreak), x, fs, None)
      case Underflow => e == Effect(Crashed, x, fs, None)
      case Some(n) =>
        // an empty file needs a block, and there may be none
        || (n > 0 && Content(fs, fs.handles[w.h].inumber) == [] && e == Effect(w.(ppc := PBreak), x, fs, None))
        || (n <= |w.msg| && e == Effect(w.(ppc := if n < c.msgLength then PBreak else PBcast),
                                        x.(published := x.published + [w.msg]),
                                        WriteData(fs, w.h, w.msg[..n]), None)))
    case PBcast => x.mutex == NOBODY && e == Effect(w.(ppc := PTop), x.(boxSize := x.boxSize + c.msgLength), fs, All)
    case PBreak => e == Effect(w.(ppc := PLeave), x, Close(fs, w.h), None)
    case PLeave => x.mutex == NOBODY && e == Effect(Idle, x.(nPubs := x.nPubs - 1), fs, All)
  }

  predicate RemStep(t: int, w: Worker, x: Box, fs: Fs, e: Effect)
    requires w.Rem?
  {
    match w.rpc
    case RLock =>
      x.mutex == NOBODY &&
      if x.closed then e == Effect(Crashed, x, fs, None)
      else e == Effect(w.(rpc := RPubTest), x.(closed := true, mutex := t, poked := x.nPubs > 0), fs, None)
    case RPubTest =>
      e == Effect(w.(rpc := if x.nPubs > 0 then RPubSleep else RBcast), x.(mutex := NOBODY), fs, None)
    case RPubSleep => false
    case RPubWoken => x.mutex == NOBODY && e == Effect(w.(rpc := RPubTest), x.(mutex := t), fs, None)
    case RBcast =>
      x.mutex == NOBODY && e == Effect(w.(rpc := RSubLock), x.(swept := true), fs, if x.nSubs > 0 then All else None)
    case RSubLock => x.mutex == NOBODY && e == Effect(w.(rpc := RSubTest), x.(mutex := t), fs, None)
    case RSubTest =>
      if x.nSubs > 0 then e == Effect(w.(rpc := RSubSleep), x.(mutex := NOBODY), fs, None)
      else e == Effect(Idle, x.(taken := FREE, mutex := NOBODY), Unlink(fs, x.name), None)
    case RSubSleep => false
    case RSubWoken => x.mutex == NOBODY && e == Effect(w.(rpc := RSubTest), x.(mutex := t), fs, None)
  }

  predicate HasBox(w: Worker) {
    w.Sub? || w.Pub? || w.Rem?
  }

  predicate LocalStep(c: Config, t: int, w: Worker, x: Box, fs: Fs, e: Effect) {
    || (w.Sub? && SubStep(c, t, w, x, fs, e))
    || (w.Pub? && PubStep(c, t, w, x, fs, e))
    || (w.Rem? && RemStep(t, w, x, fs, e))
  }

  // ---- waking ----------------------------------------------------------------------------

  predicate SleepsOn(w: Worker, b: nat) {
    (w.Sub? && w.spc == SSleep && w.box == b) || (w.Rem? && (w.rpc == RPubSleep || w.rpc == RSubSleep) && w.box == b)
  }

  function Woken(w: Worker): Worker {
    if w.Sub? && w.spc == SSleep then w.(spc := SWoken)
    else if w.Rem? && w.rpc == RPubSleep then w.(rpc := RPubWoken)
    else if w.Rem? && w.rpc == RSubSleep then w.(rpc := RSubWoken)
    else w
  }

  /** cond_signal wakes one sleeper, if there is any; cond_broadcast wakes all. */
  predicate Awoken(ws: seq<Worker>, b: nat, wake: Wake, ws': seq<Worker>) {
    && |ws'| == |ws|
    && match wake
       case None => ws' == ws
       case All => forall u :: 0 <= u < |ws| ==> ws'[u] == if SleepsOn(ws[u], b) then Woken(ws[u]) else ws[u]
       case One =>
         || (ws' == ws && forall u :: 0 <= u < |ws| ==> !SleepsOn(ws[u], b))
         || exists u :: 0 <= u < |ws| && SleepsOn(ws[u], b) && ws' == ws[u := Woken(ws[u])]
  }

  // ---- steps of the whole broker --------------------------------------------------------------

  function Applied(s: Broker, t: nat, e: Effect, ws': seq<Worker>): Broker
    requires t < |s.workers| && HasBox(s.workers[t]) && s.workers[t].box < |s.boxes|
  {
    var leaves := s.workers[t].Rem? && e.w.Idle?;
    s.(boxes := s.boxes[s.workers[t].box := e.box],
       table := if leaves then NOBODY else s.table,
       amount := if leaves then s.amount - 1 else s.amount,
       workers := ws', fs := e.fs)
  }

  /** A step of a worker that has a box. */
  predicate MoveBy(c: Config, s: Broker, t: nat, e: Effect, ws': seq<Worker>, s': Broker) {
    && t < |s.workers| && HasBox(s.workers[t]) && s.workers[t].box < |s.boxes|
    && LocalStep(c, t, s.workers[t], s.boxes[s.workers[t].box], s.fs, e)
    && Awoken(s.workers[t := e.w], s.workers[t].box, e.wake, ws')
    && s' == Applied(s, t, e, ws')
  }

  ghost predicate Move(c: Config, s: Broker, t: nat, s': Broker) {
    exists e, ws' :: MoveBy(c, s, t, e, ws', s')
  }

  predicate IsBox(s: Broker, b: nat, name: Name) {
    b < |s.boxes| && s.boxes[b].taken == TAKEN && s.boxes[b].name == name
  }

  /** box_add_sub, up to its return (p2/mbroker/data.c:257-269). */
  predicate AddSub(s: Broker, t: nat, b: nat, name: Name, s': Broker) {
    && t < |s.workers| && s.workers[t].Idle? && s.table == NOBODY
    && IsBox(s, b, name) && s.boxes[b].mutex == NOBODY
    && s' == s.(boxes := s.boxes[b := s.boxes[b].(nSubs := s.boxes[b].nSubs + 1)],
                workers := s.workers[t := Sub(SOpen, b, FAILED, [], [])])
  }

  /** box_add_pub when the box has no publisher yet (p2/mbroker/data.c:238-255). */
  predicate AddPub(s: Broker, t: nat, b: nat, name: Name, s': Broker) {
    && t < |s.workers| && s.workers[t].Idle? && s.table == NOBODY
    && IsBox(s, b, name) && s.boxes[b].mutex == NOBODY && s.boxes[b].nPubs <= 0
    && s' == s.(boxes := s.boxes[b := s.boxes[b].(nPubs := s.boxes[b].nPubs + 1)],
                workers := s.workers[t := Pub(POpen, b, FAILED, Hangup, [])])
  }

  /** box_remove finds the box and keeps the table lock (p2/mbroker/data.c:113-120). */
  predicate StartRemove(s: Broker, t: nat, b: nat, name: Name, s': Broker) {
    && t < |s.workers| && s.workers[t].Idle? && s.table == NOBODY
    && IsBox(s, b, name)
    && s' == s.(table := t, workers := s.workers[t := Rem(RLock, b)])
  }

  function NewBox(name: Name, inode: int): Box {
    Box(TAKEN, name, 0, 0, 0, false, NOBODY, inode, [], false, false)
  }

  /** box_create when the name is new and there is a free slot b (p2/mbroker/data.c:60-106):
      the slot is initialised, the file opened and closed, and the slot taken if that
      went well. */
  predicate Create(c: Config, s: Broker, t: nat, b: nat, name: Name, newId: nat, room: bool, s': Broker) {
    && t < |s.workers| && s.workers[t].Idle? && s.table == NOBODY
    && b < |s.boxes| && s.boxes[b].taken == FREE && s.boxes[b].mutex == NOBODY
    && (forall d: nat :: d < |s.boxes| ==> !IsBox(s, d, name))
    && newId !in s.fs.files
    && var (fs1, i) := MakeEmpty(s.fs, name, newId, room);
       if i == FAILED then s' == s.(boxes := s.boxes[b := NewBox(name, i).(taken := FREE)])
       else if AddHandle(c, fs1, i, 0).1 == FAILED then
         s' == s.(boxes := s.boxes[b := NewBox(name, i).(taken := FREE)], fs := fs1)
       else s' == s.(boxes := s.boxes[b := NewBox(name, i)], amount := s.amount + 1, fs := fs1)
  }

  /** A sleeper may wake up without a signal. */
  predicate Spurious(s: Broker, t: nat, s': Broker) {
    && t < |s.workers| && HasBox(s.workers[t]) && SleepsOn(s.workers[t], s.workers[t].box)
    && s' == s.(workers := s.workers[t := Woken(s.workers[t])])
  }

  ghost predicate Enter(c: Config, s: Broker, t: nat, s': Broker) {
    || (exists b, name :: AddSub(s, t, b, name, s'))
    || (exists b, name :: AddPub(s, t, b, name, s'))
    || (exists b, name :: StartRemove(s, t, b, name, s'))
    || (exists b, name, newId, room :: Create(c, s, t, b, name, newId, room, s'))
  }

  ghost predicate Next(c: Config, s: Broker, s': Broker) {
    exists t: nat :: Move(c, s, t, s') || Enter(c, s, t, s') || Spurious(s, t, s')
  }

  predicate EmptySlot(x: Box) {
    x.taken == FREE && x.mutex == NOBODY && x.nSubs == 0 && x.nPubs == 0
  }

  /** data_init: every slot free, every worker idle, no files. */
  ghost predicate Init(s: Broker) {
    && (forall b :: 0 <= b < |s.boxes| ==> EmptySlot(s.boxes[b]))
    && s.table == NOBODY && s.amount == 0
    && (forall t :: 0 <= t < |s.workers| ==> s.workers[t].Idle?)
    && s.fs == Fs(map[], map[], map[])
  }

  ghost predicate IsRun(c: Config, states: seq<Broker>) {
    && |states| > 0 && Init(states[0])
    && forall k :: 0 < k < |states| ==> Next(c, states[k - 1], states[k])
  }
}

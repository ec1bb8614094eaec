/** Removal of a box terminates: once the box is closed, every step of its remover and
    of its sessions lowers a measure, and until the slot is free one of them can step. */
module BrokerRemoval {
  import opened Counting
  import opened TfsTypes
  import opened BrokerFs
  import opened BrokerSystem
  import opened BrokerControl
  import opened BrokerFiles
  import opened BrokerBaton

  /** How many steps a session at a closed box is from its end. */
  function SubRank(pc: SubPc): nat {
    match pc
    case SOpen => 4
    case SOpenFail => 1
    case STop => 3
    case SRead => 2
    case SWait => 5
    case SSleep => 4
    case SWoken => 3
    case SExit => 1
    case SSend => 4
    case SBreak => 2
    case SLeave => 1
  }

  function PubRank(pc: PubPc): nat {
    match pc
    case POpen => 3
    case POpenFail => 1
    case PTop => 2
    case PCheck => 1
    case PMsg => 5
    case PWrite => 4
    case PBcast => 3
    case PBreak => 2
    case PLeave => 1
  }

  function RemRank(pc: RemPc): nat {
    match pc
    case RLock => 7
    case RPubWoken => 6
    case RPubTest => 5
    case RPubSleep => 4
    case RBcast => 3
    case RSubLock => 2
    case RSubWoken => 2
    case RSubTest => 1
    case RSubSleep => 0
  }

  function SessionRank(b: nat): Worker -> nat {
    (w: Worker) => if w.Sub? && w.box == b then SubRank(w.spc) else if w.Pub? && w.box == b then PubRank(w.ppc) else 0
  }

  function RemoverRank(ws: seq<Worker>, r: int): nat {
    if 0 <= r < |ws| && ws[r].Rem? then RemRank(ws[r].rpc) else 0
  }

  function Measure(s: Broker, b: nat): nat {
    10 * Sum(s.workers, SessionRank(b)) + RemoverRank(s.workers, s.table)
  }

  predicate Closing(s: Broker, b: nat) {
    b < |s.boxes| && s.boxes[b].taken == TAKEN && s.boxes[b].closed
  }

  // ---- every step counts ---------------------------------------------------------------

  lemma SubRankLowers(c: Config, t: nat, w: Worker, x: Box, fs: Fs, e: Effect)
    requires w.Sub? && Fits(t, w, x) && Keeps(c, w, x, fs) && SubStep(c, t, w, x, fs, e) && x.closed
    ensures e.box.closed && !e.w.Rem? && SessionRank(w.box)(e.w) < SessionRank(w.box)(w)
  {
  }

  lemma PubRankLowers(c: Config, t: nat, w: Worker, x: Box, fs: Fs, e: Effect)
    requires w.Pub? && PubStep(c, t, w, x, fs, e) && x.closed
    ensures e.box.closed && !e.w.Rem? && SessionRank(w.box)(e.w) < SessionRank(w.box)(w)
  {
    hide WriteData, Open, ToWrite;
  }

  lemma RemRankLowers(t: nat, w: Worker, x: Box, fs: Fs, e: Effect)
    requires w.Rem? && Fits(t, w, x) && RemStep(t, w, x, fs, e) && x.closed
    ensures e.box.closed && (e.w.Idle? || (e.w.Rem? && RemRank(e.w.rpc) < RemRank(w.rpc)))
    ensures e.wake == None || !SleepsOn(e.w, w.box)
  {
  }

  lemma OwnRank(c: Config, t: nat, w: Worker, x: Box, fs: Fs, e: Effect)
    requires Fits(t, w, x) && Keeps(c, w, x, fs) && LocalStep(c, t, w, x, fs, e) && x.closed
    ensures e.box.closed
    ensures w.Rem? ==> e.w.Idle? || (e.w.Rem? && RemRank(e.w.rpc) < RemRank(w.rpc))
    ensures w.Rem? ==> e.wake == None || !SleepsOn(e.w, w.box)
    ensures !w.Rem? ==> !e.w.Rem? && SessionRank(w.box)(e.w) < SessionRank(w.box)(w)
  {
    hide SubStep, PubStep, RemStep, Fits, Keeps, SubRank, PubRank, RemRank, SleepsOn;
    if w.Sub? {
      SubRankLowers(c, t, w, x, fs, e);
    } else if w.Pub? {
      PubRankLowers(c, t, w, x, fs, e);
    } else {
      RemRankLowers(t, w, x, fs, e);
    }
  }

  /** Waking sleepers brings sessions nearer to their ends, and the remover two steps
      further from its own. */
  lemma WakingRanks(ws: seq<Worker>, b: nat, wake: Wake, ws': seq<Worker>, d: nat, r: int)
    requires Awoken(ws, b, wake, ws')
    ensures Sum(ws', SessionRank(d)) <= Sum(ws, SessionRank(d))
    ensures RemoverRank(ws', r) <= RemoverRank(ws, r) + 2
    ensures wake == None || (0 <= r < |ws| && !SleepsOn(ws[r], b)) ==> RemoverRank(ws', r) == RemoverRank(ws, r)
  {
    AwokenEach(ws, b, wake, ws');
    forall u | 0 <= u < |ws| ensures SessionRank(d)(ws'[u]) <= SessionRank(d)(ws[u]) { }
    SumLower(ws, ws', SessionRank(d));
  }

  /** A session's step pays for the remover it may wake. */
  lemma StepLowers(ws: seq<Worker>, t: nat, w': Worker, b: nat, wake: Wake, ws': seq<Worker>, r: int)
    requires t < |ws| && Awoken(ws[t := w'], b, wake, ws')
    requires t == r ==>
               && ws[t].Rem? && w'.Rem? && RemRank(w'.rpc) < RemRank(ws[t].rpc)
               && (wake == None || !SleepsOn(w', b))
    requires t != r ==> SessionRank(b)(w') < SessionRank(b)(ws[t])
    ensures 10 * Sum(ws', SessionRank(b)) + RemoverRank(ws', r) < 10 * Sum(ws, SessionRank(b)) + RemoverRank(ws, r)
  {
    WakingRanks(ws[t := w'], b, wake, ws', b, r);
    SumUpdate(ws, t, w', SessionRank(b));
  }

  lemma MoveLowers(c: Config, s: Broker, t: nat, e: Effect, ws': seq<Worker>, s': Broker, b: nat)
    requires ControlOk(s) && FilesOk(c, s) && MoveBy(c, s, t, e, ws', s')
    requires Closing(s, b) && s.workers[t].box == b
    ensures |s'.boxes| == |s.boxes|
    ensures s'.boxes[b].taken == TAKEN ==> Closing(s', b) && Measure(s', b) < Measure(s, b)
  {
    hide BoxesStored, DirOk, HandlesApart, HandlesOwned, MutexOk;
    var w := s.workers[t];
    assert WorkerOk(s, t) && WorkerFiles(c, s, t) && BoxOk(s, b);
    OwnRank(c, t, w, s.boxes[b], s.fs, e);
    OwnFits(c, t, w, s.boxes[b], s.fs, e) by { MoveOwn(c, s, t, e, ws', s'); }
    BoxMoves(c, t, w, s.boxes[b], s.fs, e) by { MoveOwn(c, s, t, e, ws', s'); }
    assert w.Rem? <==> s.table == t;
    hide LocalStep, Keeps, Fits, Stored, FilesMove, ControlOk, FilesOk, Awoken;
    if s'.boxes[b].taken == TAKEN {
      assert w.Rem? ==> !e.w.Idle?;
      StepLowers(s.workers, t, e.w, b, e.wake, ws', s.table);
    }
  }

  /** Elsewhere nothing changes. */
  lemma OtherMoveKeeps(c: Config, s: Broker, t: nat, e: Effect, ws': seq<Worker>, s': Broker, b: nat)
    requires ControlOk(s) && FilesOk(c, s) && MoveBy(c, s, t, e, ws', s')
    requires Closing(s, b) && s.workers[t].box != b
    ensures Closing(s', b) && Measure(s', b) == Measure(s, b)
  {
    assert BoxOk(s, b) && WorkerOk(s, t);
    OwnFits(c, t, s.workers[t], s.boxes[s.workers[t].box], s.fs, e) by {
      assert BoxOk(s, s.workers[t].box);
      MoveOwn(c, s, t, e, ws', s');
    }
    AwokenEach(s.workers[t := e.w], s.workers[t].box, e.wake, ws');
    hide LocalStep, Keeps, Fits, Stored, FilesMove, ControlOk, FilesOk, Awoken;
    SameSum(s.workers, ws', SessionRank(b));
  }

  // ---- somebody can step ----------------------------------------------------------------

  /** There is always somebody to wake, or nobody to. */
  lemma AwokenExists(ws: seq<Worker>, b: nat, wake: Wake) returns (ws': seq<Worker>)
    ensures Awoken(ws, b, wake, ws')
  {
    match wake
    case None => ws' := ws;
    case All => ws' := seq(|ws|, u requires 0 <= u < |ws| => if SleepsOn(ws[u], b) then Woken(ws[u]) else ws[u]);
    case One =>
      ws' := ws;
      if u :| 0 <= u < |ws| && SleepsOn(ws[u], b) { ws' := ws[u := Woken(ws[u])]; }
  }

  /** A subscriber that is not asleep can step once the mutex is free or its own. */
  lemma SubCan(c: Config, t: nat, w: Worker, x: Box, fs: Fs) returns (e: Effect)
    requires w.Sub? && w.spc != SSleep && (x.mutex == NOBODY || Holds(w))
    ensures SubStep(c, t, w, x, fs, e)
  {
    match w.spc
    case SOpen =>
      var (fs1, h) := Open(c, fs, x.name, false);
      e := Effect(if h == FAILED then w.(spc := SOpenFail) else w.(spc := STop, h := h), x, fs1, None);
    case SOpenFail => e := Effect(Idle, x.(nSubs := x.nSubs - 1), fs, None);
    case STop => e := Effect(w.(spc := SRead), x.(mutex := t), fs, None);
    case SRead =>
      match ToRead(c, fs, w.h) {
        case NoHandle =>
          e := if x.closed then Effect(w.(spc := SExit), x, fs, None)
               else Effect(w.(spc := SBreak), x.(mutex := NOBODY), fs, None);
        case Underflow => e := Effect(Crashed, x, fs, None);
        case Some(n) =>
          e := if x.closed then Effect(w.(spc := SExit), x, Advance(fs, w.h, n), None)
               else if n == 0 then Effect(w.(spc := SWait), x, fs, None)
               else Effect(w.(spc := SSend, data := ReadData(fs, w.h, n)), x.(mutex := NOBODY),
                   Advance(fs, w.h, n), None);
      }
    case SWait => e := Effect(w.(spc := SSleep), x.(mutex := NOBODY), fs, None);
    case SWoken => e := Effect(w.(spc := SRead), x.(mutex := t), fs, None);
    case SExit => e := Effect(Idle, x.(nSubs := x.nSubs - 1, mutex := NOBODY), Close(fs, w.h), One);
    case SSend => e := Effect(w.(spc := STop, data := [], sent := w.sent + [w.data]), x, fs, None);
    case SBreak => e := Effect(w.(spc := SLeave), x, Close(fs, w.h), None);
    case SLeave => e := Effect(Idle, x.(nSubs := x.nSubs - 1), fs, All);
  }

  /** A publisher can step once the mutex is free; when it reads, as if it found what it
      waits for. */
  lemma PubCan(c: Config, t: nat, w: Worker, x: Box, fs: Fs) returns (e: Effect)
    requires w.Pub? && x.mutex == NOBODY && (w.ppc == PWrite ==> |w.msg| == c.msgLength)
    ensures PubStep(c, t, w, x, fs, e)
    ensures w.ppc == PTop ==> e.w.Pub? && e.w.ev == Publish
    ensures w.ppc == PMsg ==> e.w.Pub? && e.w.ppc == PWrite
  {
    match w.ppc
    case POpen =>
      var (fs1, h) := Open(c, fs, x.name, true);
      e := Effect(if h == FAILED then w.(ppc := POpenFail) else w.(ppc := PTop, h := h), x, fs1, None);
    case POpenFail => e := Effect(Idle, x.(nPubs := x.nPubs - 1), fs, None);
    case PTop => e := Effect(w.(ppc := PCheck, ev := Publish), x, fs, None);
    case PCheck =>
      e := if x.closed then Effect(Idle, x.(nPubs := x.nPubs - 1), Close(fs, w.h), One)
           else Effect(w.(ppc := if w.ev == Publish then PMsg else PBreak), x, fs, None);
    case PMsg => e := Effect(w.(ppc := PWrite, msg := seq(c.msgLength, _ => 0)), x, fs, None);
    case PWrite =>
      match ToWrite(c, fs, w.h) {
        case NoHandle => e := Effect(w.(ppc := PBreak), x, fs, None);
        case Underflow => e := Effect(Crashed, x, fs, None);
        case Some(n) =>
          e := Effect(w.(ppc := if n < c.msgLength then PBreak else PBcast), x.(published := x.published + [w.msg]),
                      WriteData(fs, w.h, w.msg[..n]), None);
      }
    case PBcast => e := Effect(w.(ppc := PTop), x.(boxSize := x.boxSize + c.msgLength), fs, All);
    case PBreak => e := Effect(w.(ppc := PLeave), x, Close(fs, w.h), None);
    case PLeave => e := Effect(Idle, x.(nPubs := x.nPubs - 1), fs, All);
  }

  lemma RemCan(t: nat, w: Worker, x: Box, fs: Fs) returns (e: Effect)
    requires w.Rem? && w.rpc != RLock && w.rpc != RPubSleep && w.rpc != RSubSleep && (x.mutex == NOBODY || Holds(w))
    ensures RemStep(t, w, x, fs, e)
  {
    match w.rpc
    case RPubTest => e := Effect(w.(rpc := if x.nPubs > 0 then RPubSleep else RBcast), x.(mutex := NOBODY), fs, None);
    case RPubWoken => e := Effect(w.(rpc := RPubTest), x.(mutex := t), fs, None);
    case RBcast => e := Effect(w.(rpc := RSubLock), x.(swept := true), fs, if x.nSubs > 0 then All else None);
    case RSubLock => e := Effect(w.(rpc := RSubTest), x.(mutex := t), fs, None);
    case RSubTest =>
      e := if x.nSubs > 0 then Effect(w.(rpc := RSubSleep), x.(mutex := NOBODY), fs, None)
           else Effect(Idle, x.(taken := FREE, mutex := NOBODY), Unlink(fs, x.name), None);
    case RSubWoken => e := Effect(w.(rpc := RSubTest), x.(mutex := t), fs, None);
  }

  /** A publisher that waits for a code is taken to get the one that the remover writes
      (BrokerHearing and BrokerMissed do without, and say exactly when it can miss it). A message
      is taken to come with its code, and a write to a subscriber's pipe to return. */
  predicate Unblocked(w: Worker, x: Box) {
    w.Pub? && w.ppc == PTop ==> x.poked
  }

  /** Some worker at the box can step without a code from a client. */
  ghost predicate CanProceed(c: Config, s: Broker, b: nat)
    requires b < |s.boxes|
  {
    exists t: nat, s' :: t < |s.workers| && HasBox(s.workers[t]) && s.workers[t].box == b
                         && Unblocked(s.workers[t], s.boxes[b]) && Move(c, s, t, s')
  }

  lemma StepsAt(c: Config, s: Broker, t: nat, b: nat, e: Effect)
    requires t < |s.workers| && b < |s.boxes| && HasBox(s.workers[t]) && s.workers[t].box == b
    requires LocalStep(c, t, s.workers[t], s.boxes[b], s.fs, e) && Unblocked(s.workers[t], s.boxes[b])
    ensures CanProceed(c, s, b)
  {
    var ws' := AwokenExists(s.workers[t := e.w], b, e.wake);
    hide LocalStep, Awoken;
    var s' := Applied(s, t, e, ws');
    assert MoveBy(c, s, t, e, ws', s');
    assert Move(c, s, t, s');
  }

  /** Who is next: the holder of the mutex if there is one, or else the remover, the
      publisher it waits for, a subscriber on its way to signal, or a subscriber
      it waits for. */
  lemma WhoIsNext(c: Config, s: Broker, b: nat) returns (t: nat)
    requires ControlOk(s) && FilesOk(c, s) && Closing(s, b) && BatonOk(s, b)
    ensures t < |s.workers| && HasBox(s.workers[t]) && s.workers[t].box == b
    ensures s.boxes[b].mutex == NOBODY || Holds(s.workers[t])
    ensures s.workers[t].Rem? ==> s.workers[t].rpc != RPubSleep && s.workers[t].rpc != RSubSleep
    ensures s.workers[t].Sub? ==> s.workers[t].spc != SSleep
    ensures Unblocked(s.workers[t], s.boxes[b])
  {
    hide BoxesStored, DirOk, HandlesApart, HandlesOwned, WorkerFiles;
    assert BoxOk(s, b);
    var r := s.table;
    assert WorkerOk(s, r);
    if s.boxes[b].mutex != NOBODY {
      t := s.boxes[b].mutex;
    } else if SleepsForPubs(s.workers[r], b) {
      if s.boxes[b].nPubs > 0 {
        t := CountWitness(s.workers, PubsOf(b));
      } else {
        t :| t < |s.workers| && OnTheWay(s.workers[t], b);
      }
    } else if SleepsForSubs(s.workers[r], b) {
      t := CountWitness(s.workers, SubsOf(b));
      assert WorkerOk(s, t);
    } else {
      t := r;
    }
  }

  /** Its step. */
  lemma NextCan(c: Config, s: Broker, t: nat, b: nat) returns (e: Effect)
    requires ControlOk(s) && FilesOk(c, s) && Closing(s, b)
    requires t < |s.workers| && HasBox(s.workers[t]) && s.workers[t].box == b
    requires s.boxes[b].mutex == NOBODY || Holds(s.workers[t])
    requires s.workers[t].Rem? ==> s.workers[t].rpc != RPubSleep && s.workers[t].rpc != RSubSleep
    requires s.workers[t].Sub? ==> s.workers[t].spc != SSleep
    ensures LocalStep(c, t, s.workers[t], s.boxes[b], s.fs, e)
    ensures s.workers[t].Pub? && s.workers[t].ppc == PTop ==> e.w.Pub? && e.w.ev == Publish
    ensures s.workers[t].Pub? && s.workers[t].ppc == PMsg ==> e.w.Pub? && e.w.ppc == PWrite
  {
    var w, x := s.workers[t], s.boxes[b];
    assert WorkerOk(s, t) && WorkerFiles(c, s, t);
    hide ControlOk, FilesOk, SubStep, PubStep, RemStep;
    if w.Sub? {
      e := SubCan(c, t, w, x, s.fs);
    } else if w.Pub? {
      e := PubCan(c, t, w, x, s.fs);
    } else {
      e := RemCan(t, w, x, s.fs);
    }
  }

  lemma NeverStuck(c: Config, s: Broker, b: nat)
    requires ControlOk(s) && FilesOk(c, s) && Closing(s, b) && BatonOk(s, b)
    ensures CanProceed(c, s, b)
  {
    var t := WhoIsNext(c, s, b);
    hide ControlOk, FilesOk, BatonOk;
    var e := NextCan(c, s, t, b);
    StepsAt(c, s, t, b, e);
  }
}

/** Waiters of different kinds share one condition variable per box. No wakeup that
    a remover or a subscriber needs is lost. */
module BrokerBaton {
  import opened TfsTypes
  import opened BrokerFs
  import opened BrokerSystem
  import opened BrokerControl
  import opened BrokerFiles

  /** A subscriber out of the wait set that will see the box closed and signal again. */
  predicate OnTheWay(w: Worker, b: nat) {
    w.Sub? && w.box == b && (w.spc == SWoken || w.spc == SRead || w.spc == SExit)
  }

  predicate SleepsForPubs(w: Worker, b: nat) {
    w.Rem? && w.rpc == RPubSleep && w.box == b
  }

  predicate SleepsForSubs(w: Worker, b: nat) {
    w.Rem? && w.rpc == RSubSleep && w.box == b
  }

  ghost predicate HasBaton(ws: seq<Worker>, b: nat) {
    exists u :: 0 <= u < |ws| && OnTheWay(ws[u], b)
  }

  /** Nobody but r sleeps at the box. */
  ghost predicate OnlySleeper(ws: seq<Worker>, b: nat, r: nat) {
    forall u :: 0 <= u < |ws| && u != r ==> !SleepsOn(ws[u], b)
  }

  /** A remover asleep for the publisher: the publisher is still there, or somebody else
      carries the signal on. A remover asleep for subscribers: there are some. */
  ghost predicate BatonOk(s: Broker, b: nat)
    requires b < |s.boxes|
  {
    forall r :: 0 <= r < |s.workers| ==>
      && (SleepsForPubs(s.workers[r], b) ==> s.boxes[b].nPubs > 0 || HasBaton(s.workers, b))
      && (SleepsForSubs(s.workers[r], b) ==> s.boxes[b].nSubs > 0)
  }

  /** The signal of a step that needs to wake somebody. */
  lemma OwnBaton(c: Config, t: nat, w: Worker, x: Box, fs: Fs, e: Effect, b: nat)
    requires HasBox(w) && w.box == b && Fits(t, w, x) && Keeps(c, w, x, fs) && LocalStep(c, t, w, x, fs, e)
    requires Opened(w)
    ensures OnTheWay(w, b) && x.closed ==> OnTheWay(e.w, b) || e.wake == One
    ensures e.box.nPubs != x.nPubs || e.box.nSubs != x.nSubs ==> e.wake != None
    ensures SleepsForPubs(e.w, b) ==> x.nPubs > 0 && e.box.nPubs == x.nPubs
    ensures SleepsForSubs(e.w, b) ==> x.nSubs > 0 && e.box.nSubs == x.nSubs
    ensures e.w.Rem? ==> w.Rem?
    ensures e.box.swept == x.swept || w.Rem?
  {
  }

  /** Waking with a sleeper there: it is woken, or another one. */
  lemma Wakes(ws: seq<Worker>, b: nat, wake: Wake, ws': seq<Worker>, r: nat)
    requires Awoken(ws, b, wake, ws') && wake != None && r < |ws| && SleepsOn(ws[r], b)
    ensures ws'[r] != Woken(ws[r]) ==>
              exists u :: 0 <= u < |ws| && u != r && SleepsOn(ws[u], b) && ws' == ws[u := Woken(ws[u])]
  {
    if wake == One {
      var u :| 0 <= u < |ws| && SleepsOn(ws[u], b) && ws' == ws[u := Woken(ws[u])];
      if u != r { assert SleepsOn(ws[u], b) && ws' == ws[u := Woken(ws[u])]; }
    }
  }

  lemma MoveBaton(c: Config, s: Broker, t: nat, e: Effect, ws': seq<Worker>, s': Broker, b: nat)
    requires AllOpened(s)
    requires ControlOk(s) && FilesOk(c, s) && MoveBy(c, s, t, e, ws', s') && b < |s.boxes| && BatonOk(s, b)
    ensures BatonOk(s', b)
  {
    forall r: nat | r < |s'.workers| && (SleepsForPubs(ws'[r], b) || SleepsForSubs(ws'[r], b))
      ensures SleepsForPubs(ws'[r], b) ==> s'.boxes[b].nPubs > 0 || HasBaton(ws', b)
      ensures SleepsForSubs(ws'[r], b) ==> s'.boxes[b].nSubs > 0
    {
      MoveBatonOf(c, s, t, e, ws', s', b, r);
    }
  }

  lemma MoveBatonOf(c: Config, s: Broker, t: nat, e: Effect, ws': seq<Worker>, s': Broker, b: nat, r: nat)
    requires AllOpened(s)
    requires ControlOk(s) && FilesOk(c, s) && MoveBy(c, s, t, e, ws', s') && b < |s.boxes| && BatonOk(s, b)
    requires r < |s'.workers| && (SleepsForPubs(ws'[r], b) || SleepsForSubs(ws'[r], b))
    ensures SleepsForPubs(ws'[r], b) ==> s'.boxes[b].nPubs > 0 || HasBaton(ws', b)
    ensures SleepsForSubs(ws'[r], b) ==> s'.boxes[b].nSubs > 0
  {
    if s.workers[t].box == b {
      BatonHere(c, s, t, e, ws', s', b, r);
    } else {
      BatonElsewhere(c, s, t, e, ws', s', b, r);
    }
  }

  lemma BatonElsewhere(c: Config, s: Broker, t: nat, e: Effect, ws': seq<Worker>, s': Broker, b: nat, r: nat)
    requires ControlOk(s) && FilesOk(c, s) && MoveBy(c, s, t, e, ws', s') && b < |s.boxes| && BatonOk(s, b)
    requires s.workers[t].box != b
    requires r < |s'.workers| && (SleepsForPubs(ws'[r], b) || SleepsForSubs(ws'[r], b))
    ensures SleepsForPubs(ws'[r], b) ==> s'.boxes[b].nPubs > 0 || HasBaton(ws', b)
    ensures SleepsForSubs(ws'[r], b) ==> s'.boxes[b].nSubs > 0
  {
    AwokenEach(s.workers[t := e.w], s.workers[t].box, e.wake, ws');
    MoveOwn(c, s, t, e, ws', s');
    hide LocalStep, Keeps, FilesMove, Stored, Awoken, ControlOk, FilesOk;
    assert ws'[r] == s.workers[r];
    if HasBaton(s.workers, b) {
      var u :| 0 <= u < |s.workers| && OnTheWay(s.workers[u], b);
      assert OnTheWay(ws'[u], b);
    }
  }

  lemma BatonHere(c: Config, s: Broker, t: nat, e: Effect, ws': seq<Worker>, s': Broker, b: nat, r: nat)
    requires AllOpened(s)
    requires ControlOk(s) && FilesOk(c, s) && MoveBy(c, s, t, e, ws', s') && b < |s.boxes| && BatonOk(s, b)
    requires s.workers[t].box == b
    requires r < |s'.workers| && (SleepsForPubs(ws'[r], b) || SleepsForSubs(ws'[r], b))
    ensures SleepsForPubs(ws'[r], b) ==> s'.boxes[b].nPubs > 0 || HasBaton(ws', b)
    ensures SleepsForSubs(ws'[r], b) ==> s'.boxes[b].nSubs > 0
  {
    var w := s.workers[t];
    var x := s.boxes[b];
    assert WorkerFiles(c, s, t) && WorkerOk(s, t) && WorkerOk(s, r) && BoxOk(s, b);
    OwnBaton(c, t, w, x, s.fs, e, b);
    OwnFits(c, t, w, x, s.fs, e) by { assert !e.w.Crashed? by { MoveOwn(c, s, t, e, ws', s'); } }
    AwokenEach(s.workers[t := e.w], b, e.wake, ws');
    NoOtherSleeper(s, t, e, b, r);
    hide LocalStep, Keeps, Stored, Awoken, Fits, FilesOk;
    BatonPassed(s.workers, t, x, e, ws', b, r);
  }

  /** After the broadcast of box_remove no subscriber sleeps. */
  lemma NoOtherSleeper(s: Broker, t: nat, e: Effect, b: nat, r: nat)
    requires ControlOk(s) && t < |s.workers| && r < |s.workers| && b < |s.boxes|
    requires HasBox(s.workers[t]) && s.workers[t].box == b && Fits(t, s.workers[t], s.boxes[b])
    requires !e.w.Idle? ==> HasBox(e.w) && e.w.box == b && e.w.Rem? == s.workers[t].Rem? && Fits(t, e.w, e.box)
    requires e.box.swept == s.boxes[b].swept || s.workers[t].Rem?
    ensures SleepsForSubs(s.workers[r], b) && r != t ==> OnlySleeper(s.workers[t := e.w], b, r)
    ensures SleepsForPubs(s.workers[r], b) || SleepsForSubs(s.workers[r], b) ==> s.boxes[b].closed
  {
    assert WorkerOk(s, r);
    if SleepsForSubs(s.workers[r], b) && r != t {
      var ws1 := s.workers[t := e.w];
      forall u: nat | u < |ws1| && u != r ensures !SleepsOn(ws1[u], b) {
        assert WorkerOk(s, u);
        assert s.workers[u].Rem? ==> s.table == u;
      }
    }
  }

  /** A step at the box: whoever was to pass the signal on still is, or has done so. */
  lemma BatonPassed(ws: seq<Worker>, t: nat, x: Box, e: Effect, ws': seq<Worker>, b: nat, r: nat)
    requires t < |ws| && r < |ws| && Awoken(ws[t := e.w], b, e.wake, ws')
    requires SleepsForPubs(ws'[r], b) || SleepsForSubs(ws'[r], b)
    requires forall u :: 0 <= u < |ws| && ws[u].Rem? && ws[r].Rem? ==> u == r
    requires r != t ==> ws[r] == ws'[r] && x.closed
    requires OnTheWay(ws[t], b) && x.closed ==> OnTheWay(e.w, b) || e.wake == One
    requires e.box.nPubs != x.nPubs || e.box.nSubs != x.nSubs ==> e.wake != None
    requires SleepsForPubs(e.w, b) ==> x.nPubs > 0 && e.box.nPubs == x.nPubs
    requires SleepsForSubs(e.w, b) ==> x.nSubs > 0 && e.box.nSubs == x.nSubs
    requires e.w.Rem? ==> ws[t].Rem?
    requires SleepsForPubs(ws[r], b) ==> x.nPubs > 0 || HasBaton(ws, b)
    requires SleepsForSubs(ws[r], b) ==> x.nSubs > 0
    requires SleepsForSubs(ws[r], b) && r != t ==> OnlySleeper(ws[t := e.w], b, r)
    ensures SleepsForPubs(ws'[r], b) ==> e.box.nPubs > 0 || HasBaton(ws', b)
    ensures SleepsForSubs(ws'[r], b) ==> e.box.nSubs > 0
  {
    var ws1 := ws[t := e.w];
    AwokenEach(ws1, b, e.wake, ws');
    if r != t {
      if e.wake != None {
        Wakes(ws1, b, e.wake, ws', r);
        var u :| 0 <= u < |ws1| && u != r && SleepsOn(ws1[u], b) && ws' == ws1[u := Woken(ws1[u])];
        assert OnTheWay(ws'[u], b);
      } else if HasBaton(ws, b) {
        var u :| 0 <= u < |ws| && OnTheWay(ws[u], b);
        assert OnTheWay(ws'[u], b);
      }
    }
  }

  // ---- no missed message -----------------------------------------------------------------

  /** A subscriber that waits, or is about to, with something left to read. */
  predicate MissesOut(w: Worker, b: nat, fs: Fs) {
    && w.Sub? && w.box == b && (w.spc == SWait || w.spc == SSleep)
    && w.h in fs.handles && fs.handles[w.h].offset < |Content(fs, fs.handles[w.h].inumber)|
  }

  /** A publisher that is about to broadcast. */
  predicate Announces(w: Worker, b: nat) {
    w.Pub? && w.box == b && (w.ppc == PBcast || w.ppc == PBreak || w.ppc == PLeave)
  }

  ghost predicate HasNews(ws: seq<Worker>, b: nat) {
    exists u :: 0 <= u < |ws| && Announces(ws[u], b)
  }

  ghost predicate NewsOk(s: Broker, b: nat) {
    forall r :: 0 <= r < |s.workers| && MissesOut(s.workers[r], b, s.fs) ==> HasNews(s.workers, b)
  }

  lemma OwnNews(c: Config, t: nat, w: Worker, x: Box, fs: Fs, e: Effect, b: nat)
    requires HasBox(w) && w.box == b && Fits(t, w, x) && Keeps(c, w, x, fs) && LocalStep(c, t, w, x, fs, e)
    requires c.msgLength > 0
    ensures Announces(w, b) ==> Announces(e.w, b) || (e.wake == All && x.mutex == NOBODY)
    ensures Content(e.fs, x.inode) == Content(fs, x.inode) || Announces(e.w, b) || e.box.taken == FREE
    ensures MissesOut(e.w, b, e.fs) ==> MissesOut(w, b, fs) && !Announces(w, b)
  {
  }

  lemma MoveNews(c: Config, s: Broker, t: nat, e: Effect, ws': seq<Worker>, s': Broker, b: nat)
    requires ControlOk(s) && FilesOk(c, s) && MoveBy(c, s, t, e, ws', s') && b < |s.boxes| && NewsOk(s, b)
    ensures NewsOk(s', b)
  {
    forall r: nat | r < |s'.workers| && MissesOut(ws'[r], b, s'.fs) ensures HasNews(ws', b) {
      MissedBefore(c, s, t, e, ws', s', b, r);
      if HasNews(s.workers, b) {
        var u :| 0 <= u < |s.workers| && Announces(s.workers[u], b);
        NewsStays(c, s, t, e, ws', s', b, r, u);
      }
    }
  }

  /** What another subscriber misses after a step that leaves its file alone, it missed before. */
  lemma NothingNew(c: Config, w: Worker, x: Box, fs: Fs, e: Effect, v: Worker, y: Box, b: nat)
    requires FilesMove(w, x, fs, e) && Keeps(c, v, y, fs) && Stored(c, y, fs)
    requires Owns(w) && Owns(v) ==> w.h != v.h
    requires y.inode == x.inode ==> Content(e.fs, x.inode) == Content(fs, x.inode)
    requires MissesOut(v, b, e.fs)
    ensures MissesOut(v, b, fs)
  {
  }

  /** A subscriber that misses something after a step either did before, or the step
      was a write. */
  lemma MissedBefore(c: Config, s: Broker, t: nat, e: Effect, ws': seq<Worker>, s': Broker, b: nat, r: nat)
    requires ControlOk(s) && FilesOk(c, s) && MoveBy(c, s, t, e, ws', s') && b < |s.boxes| && NewsOk(s, b)
    requires r < |ws'| && MissesOut(ws'[r], b, s'.fs)
    ensures HasNews(ws', b) || HasNews(s.workers, b)
  {
    hide TableOk, BoxOk, DirOk, BoxesStored, HandlesApart, HandlesOwned;
    var w := s.workers[t];
    var x := s.boxes[w.box];
    assert WorkerFiles(c, s, t) && WorkerOk(s, t);
    OwnNews(c, t, w, x, s.fs, e, w.box);
    AwokenEach(s.workers[t := e.w], w.box, e.wake, ws');
    MoveOwn(c, s, t, e, ws', s');
    hide LocalStep, Awoken, Fits, Stored, FilesMove, Keeps;
    if Announces(e.w, b) {
      assert Announces(ws'[t], b);
    } else if r != t {
      assert ws'[r] == s.workers[r];
      OthersMissed(c, s, t, e, ws', s', b, r);
    }
  }

  lemma OthersMissed(c: Config, s: Broker, t: nat, e: Effect, ws': seq<Worker>, s': Broker, b: nat, r: nat)
    requires ControlOk(s) && FilesOk(c, s) && MoveBy(c, s, t, e, ws', s') && b < |s.boxes|
    requires r < |s.workers| && r != t && MissesOut(s.workers[r], b, s'.fs)
    requires s.workers[t].box == b && e.box.taken != FREE ==>
               Content(e.fs, s.boxes[b].inode) == Content(s.fs, s.boxes[b].inode)
    ensures MissesOut(s.workers[r], b, s.fs)
  {
    assert WorkerOk(s, r) && WorkerFiles(c, s, r) && WorkerOk(s, t);
    MoveOwn(c, s, t, e, ws', s');
    Apart(c, s, t, e, ws', s', r);
    hide LocalStep, Awoken, Fits, Stored, FilesMove, Keeps;
    NothingNew(c, s.workers[t], s.boxes[s.workers[t].box], s.fs, e, s.workers[r], s.boxes[b], b);
  }

  lemma NewsStays(c: Config, s: Broker, t: nat, e: Effect, ws': seq<Worker>, s': Broker, b: nat, r: nat, u: nat)
    requires ControlOk(s) && FilesOk(c, s) && MoveBy(c, s, t, e, ws', s') && b < |s.boxes|
    requires r < |ws'| && MissesOut(ws'[r], b, s'.fs)
    requires u < |s.workers| && Announces(s.workers[u], b)
    ensures HasNews(ws', b)
  {
    var w := s.workers[t];
    assert WorkerFiles(c, s, t) && WorkerOk(s, t) && WorkerOk(s, r);
    OwnNews(c, t, w, s.boxes[w.box], s.fs, e, w.box);
    AwokenEach(s.workers[t := e.w], w.box, e.wake, ws');
    hide LocalStep, Awoken, ControlOk, FilesOk, Stored, Keeps;
    if u == t && !Announces(e.w, b) {
      assert false;
    }
    assert Announces(ws'[u], b);
  }

  // ---- entering and waking ------------------------------------------------------------

  /** A worker enters; the files stay. */
  lemma EnteredNews(s: Broker, t: nat, w': Worker, s': Broker, b: nat)
    requires t < |s.workers| && s.workers[t].Idle? && s'.fs == s.fs && s'.workers == s.workers[t := w'] && NewsOk(s, b)
    requires !(w'.Sub? && (w'.spc == SWait || w'.spc == SSleep))
    ensures NewsOk(s', b)
  {
    if HasNews(s.workers, b) {
      var u :| 0 <= u < |s.workers| && Announces(s.workers[u], b);
      assert Announces(s'.workers[u], b);
    }
  }

  lemma CreateNews(c: Config, s: Broker, t: nat, d: nat, name: Name, newId: nat, room: bool, s': Broker, b: nat)
    requires ControlOk(s) && FilesOk(c, s) && Create(c, s, t, d, name, newId, room, s') && b < |s.boxes| && NewsOk(s, b)
    ensures NewsOk(s', b)
  {
    CreateFiles(c, s, t, d, name, newId, room, s');
    assert s'.workers == s.workers;
    forall r: nat | r < |s'.workers| && MissesOut(s'.workers[r], b, s'.fs) ensures HasNews(s'.workers, b) {
      assert WorkerFiles(c, s, r) && WorkerOk(s, r);
      assert MissesOut(s.workers[r], b, s.fs);
    }
  }

  lemma EnterBaton(c: Config, s: Broker, t: nat, s': Broker, b: nat)
    requires ControlOk(s) && FilesOk(c, s) && Enter(c, s, t, s') && b < |s.boxes| && NewsOk(s, b)
    ensures |s'.boxes| == |s.boxes| && BatonOk(s', b) && NewsOk(s', b)
  {
    hide FilesOk, NewsOk;
    if d, name :| AddSub(s, t, d, name, s') {
      EnteredNews(s, t, s'.workers[t], s', b);
    } else if d, name :| AddPub(s, t, d, name, s') {
      EnteredNews(s, t, s'.workers[t], s', b);
    } else if d, name :| StartRemove(s, t, d, name, s') {
      EnteredNews(s, t, s'.workers[t], s', b);
    } else {
      var d, name, newId, room :| Create(c, s, t, d, name, newId, room, s');
      CreateNews(c, s, t, d, name, newId, room, s', b);
    }
  }

  lemma SpuriousBaton(s: Broker, t: nat, s': Broker, b: nat)
    requires Spurious(s, t, s') && b < |s.boxes| && BatonOk(s, b)
    ensures BatonOk(s', b)
  {
    if HasBaton(s.workers, b) {
      var u :| 0 <= u < |s.workers| && OnTheWay(s.workers[u], b);
      assert OnTheWay(s'.workers[u], b);
    }
  }

  lemma SpuriousNews(s: Broker, t: nat, s': Broker, b: nat)
    requires Spurious(s, t, s') && b < |s.boxes| && NewsOk(s, b)
    ensures NewsOk(s', b)
  {
    if HasNews(s.workers, b) {
      var u :| 0 <= u < |s.workers| && Announces(s.workers[u], b);
      assert Announces(s'.workers[u], b);
    }
  }
}

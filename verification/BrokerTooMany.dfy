/** Exactly when a removal can get stuck, given that the remover's code reaches the
    publisher: when there are more workers than handles, and there is a handle and a slot
    at all. A subscriber whose open fails leaves without a signal; if it is the last one,
    the remover that waits for it sleeps forever. */
module BrokerTooMany {
  import opened TfsTypes
  import opened BrokerFs
  import opened BrokerSystem
  import opened BrokerRemoval
  import opened BrokerRuns
  import opened BrokerReach

  /** Nobody can step or enter; only a spurious wakeup could help. */
  ghost predicate Deadlocked(c: Config, s: Broker) {
    forall t: nat, s' :: !Move(c, s, t, s') && !Enter(c, s, t, s')
  }

  // ---- the table of open files fills up ---------------------------------------------------

  lemma Begins(c: Config, n: nat, k: nat)
    requires k > 0 && n > 0 && c.maxOpen > 0
    ensures Reachable(c, n, k, State(k, Slot(0, 0, NOBODY, false, false), Files(0, 0), Crowd(n, Idle, 0, n, Idle)))
  {
    var ws := Crowd(n, Idle, 0, n, Idle);
    var s := State(k, EMPTY, Fs(map[], map[], map[]), ws);
    var s' := State(k, Slot(0, 0, NOBODY, false, false), Files(0, 0), ws);
    assert RunTo(c, n, k, [s], s);
    NextHandle(0, c.maxOpen);
    assert s'.boxes == s.boxes[0 := s'.boxes[0]];
    assert Create(c, s, 0, 0, NAME, 1, true, s');
    assert Enter(c, s, 0, s');
    Extends(c, n, k, s, s');
  }

  lemma WriterEnters(c: Config, n: nat, k: nat)
    requires k > 0 && n > 0 && c.maxOpen > 0
    ensures Reachable(c, n, k,
              State(k, Slot(0, 1, NOBODY, false, false), Files(0, 1), Crowd(n, Writer(PTop), 0, n, Idle)))
  {
    var ws0, ws1, ws2 := Crowd(n, Idle, 0, n, Idle), Crowd(n, Writer(POpen), 0, n, Idle),
        Crowd(n, Writer(PTop), 0, n, Idle);
    var x0, x := Slot(0, 0, NOBODY, false, false), Slot(0, 1, NOBODY, false, false);
    var s0, s1 := State(k, x0, Files(0, 0), ws0), State(k, x, Files(0, 0), ws1);
    Begins(c, n, k);
    assert ws1 == ws0[0 := Writer(POpen)] && s1.boxes == s0.boxes[0 := x];
    assert AddPub(s0, 0, 0, NAME, s1);
    assert Enter(c, s0, 0, s1);
    Extends(c, n, k, s0, s1);
    NextHandle(0, c.maxOpen);
    assert Files(0, 1).handles == Files(0, 0).handles[0 := OpenFile(1, 0)];
    assert ws2 == ws1[0 := Writer(PTop)];
    QuietStep(c, n, k, ws1, 0, x, Files(0, 0), Effect(Writer(PTop), x, Files(0, 1), None));
  }

  /** A subscriber registers. */
  lemma ReaderEnters(c: Config, n: nat, k: nat, ws: seq<Worker>, t: nat, nSubs: nat, fs: Fs)
    requires k > 0 && |ws| == n && 0 < t < n && ws[t].Idle? && Remover(ws) == NOBODY
    requires Reachable(c, n, k, State(k, Slot(nSubs, 1, NOBODY, false, false), fs, ws))
    ensures Reachable(c, n, k, State(k, Slot(nSubs + 1, 1, NOBODY, false, false), fs, ws[t := Reader(SOpen, FAILED)]))
  {
    var s := State(k, Slot(nSubs, 1, NOBODY, false, false), fs, ws);
    var s' := State(k, Slot(nSubs + 1, 1, NOBODY, false, false), fs, ws[t := Reader(SOpen, FAILED)]);
    assert s'.boxes == s.boxes[0 := s'.boxes[0]];
    assert AddSub(s, t, 0, NAME, s');
    assert Enter(c, s, t, s');
    Extends(c, n, k, s, s');
  }

  /** One more subscriber, one more handle. */
  lemma ReaderOpens(c: Config, n: nat, k: nat, j: nat)
    requires k > 0 && j + 1 < c.maxOpen < n
    requires Reachable(c, n, k,
              State(k, Slot(j, 1, NOBODY, false, false), Files(0, j + 1), Crowd(n, Writer(PTop), j, n, Idle)))
    ensures Reachable(c, n, k,
              State(k, Slot(j + 1, 1, NOBODY, false, false), Files(0, j + 2), Crowd(n, Writer(PTop), j + 1, n, Idle)))
  {
    var ws := Crowd(n, Writer(PTop), j, n, Idle);
    var ws1 := ws[j + 1 := Reader(SOpen, FAILED)];
    var x := Slot(j + 1, 1, NOBODY, false, false);
    ReaderEnters(c, n, k, ws, j + 1, j, Files(0, j + 1));
    NextHandle(j + 1, c.maxOpen);
    assert Files(0, j + 2).handles == Files(0, j + 1).handles[j + 1 := OpenFile(1, 0)];
    QuietStep(c, n, k, ws1, j + 1, x, Files(0, j + 1), Effect(Reader(STop, j + 1), x, Files(0, j + 2), None));
    assert ws1[j + 1 := Reader(STop, j + 1)] == Crowd(n, Writer(PTop), j + 1, n, Idle);
  }

  lemma {:induction false} FillsUp(c: Config, n: nat, k: nat, j: nat)
    requires k > 0 && j < c.maxOpen < n
    ensures Reachable(c, n, k,
              State(k, Slot(j, 1, NOBODY, false, false), Files(0, j + 1), Crowd(n, Writer(PTop), j, n, Idle)))
  {
    if j == 0 {
      WriterEnters(c, n, k);
    } else {
      FillsUp(c, n, k, j - 1);
      ReaderOpens(c, n, k, j - 1);
    }
  }

  /** The table is full, and one more subscriber finds no handle. */
  lemma ReaderFails(c: Config, n: nat, k: nat)
    requires k > 0 && 0 < c.maxOpen < n
    ensures var m := c.maxOpen;
            Reachable(c, n, k, State(k, Slot(m, 1, NOBODY, false, false), Files(0, m),
                                     Crowd(n, Writer(PTop), m - 1, m, Reader(SOpenFail, FAILED))))
  {
    var m := c.maxOpen;
    var ws := Crowd(n, Writer(PTop), m - 1, n, Idle);
    var ws1, ws2 := ws[m := Reader(SOpen, FAILED)], Crowd(n, Writer(PTop), m - 1, m, Reader(SOpenFail, FAILED));
    var x := Slot(m, 1, NOBODY, false, false);
    FillsUp(c, n, k, m - 1);
    ReaderEnters(c, n, k, ws, m, m - 1, Files(0, m));
    NextHandle(m, m);
    QuietStep(c, n, k, ws1, m, x, Files(0, m), Effect(Reader(SOpenFail, FAILED), x, Files(0, m), None));
    assert ws2 == ws1[m := Reader(SOpenFail, FAILED)];
  }

  // ---- the publisher leaves and removes the box ----------------------------------------------

  function Late(n: nat, first: Worker, j: nat, m: nat): seq<Worker> {
    Crowd(n, first, j, m, Reader(SOpenFail, FAILED))
  }

  lemma WriterHangsUp(c: Config, n: nat, k: nat)
    requires k > 0 && 0 < c.maxOpen < n
    ensures var m := c.maxOpen;
            Reachable(c, n, k, State(k, Slot(m, 1, NOBODY, false, false), Files(0, m),
                Late(n, Writer(PBreak), m - 1, m)))
  {
    var m := c.maxOpen;
    var x := Slot(m, 1, NOBODY, false, false);
    var ws0, ws1 := Late(n, Writer(PTop), m - 1, m), Late(n, Writer(PCheck), m - 1, m);
    ReaderFails(c, n, k);
    assert ws1 == ws0[0 := Writer(PCheck)] && Late(n, Writer(PBreak), m - 1, m) == ws1[0 := Writer(PBreak)];
    hide Reachable;
    QuietStep(c, n, k, ws0, 0, x, Files(0, m), Effect(Writer(PCheck), x, Files(0, m), None));
    QuietStep(c, n, k, ws1, 0, x, Files(0, m), Effect(Writer(PBreak), x, Files(0, m), None));
  }

  lemma WriterCloses(c: Config, n: nat, k: nat)
    requires k > 0 && 0 < c.maxOpen < n
    ensures var m := c.maxOpen;
            Reachable(c, n, k, State(k, Slot(m, 1, NOBODY, false, false), Files(1, m),
                Late(n, Writer(PLeave), m - 1, m)))
  {
    var m := c.maxOpen;
    var x := Slot(m, 1, NOBODY, false, false);
    var ws := Late(n, Writer(PBreak), m - 1, m);
    WriterHangsUp(c, n, k);
    assert Late(n, Writer(PLeave), m - 1, m) == ws[0 := Writer(PLeave)];
    assert Close(Files(0, m), 0) == Files(1, m);
    hide Reachable;
    QuietStep(c, n, k, ws, 0, x, Files(0, m), Effect(Writer(PLeave), x, Files(1, m), None));
  }

  lemma WriterLeaves(c: Config, n: nat, k: nat)
    requires k > 0 && 0 < c.maxOpen < n
    ensures var m := c.maxOpen;
            Reachable(c, n, k, State(k, Slot(m, 0, NOBODY, false, false), Files(1, m), Late(n, Idle, m - 1, m)))
  {
    var m := c.maxOpen;
    var x := Slot(m, 1, NOBODY, false, false);
    var ws := Late(n, Writer(PLeave), m - 1, m);
    WriterCloses(c, n, k);
    assert Late(n, Idle, m - 1, m) == ws[0 := Idle];
    hide Reachable;
    QuietStep(c, n, k, ws, 0, x, Files(1, m), Effect(Idle, x.(nPubs := 0), Files(1, m), All));
  }

  lemma RemoverEnters(c: Config, n: nat, k: nat)
    requires k > 0 && 0 < c.maxOpen < n
    ensures var m := c.maxOpen;
            Reachable(c, n, k, State(k, Slot(m, 0, NOBODY, false, false), Files(1, m),
                Late(n, Rem(RLock, 0), m - 1, m)))
  {
    var m := c.maxOpen;
    var x := Slot(m, 0, NOBODY, false, false);
    var ws0, ws1 := Late(n, Idle, m - 1, m), Late(n, Rem(RLock, 0), m - 1, m);
    WriterLeaves(c, n, k);
    var s0, s1 := State(k, x, Files(1, m), ws0), State(k, x, Files(1, m), ws1);
    assert ws1 == ws0[0 := Rem(RLock, 0)];
    assert StartRemove(s0, 0, 0, NAME, s1);
    assert Enter(c, s0, 0, s1);
    Extends(c, n, k, s0, s1);
  }

  /** Subscribers 1 to j are still there. */
  ghost predicate Leaving(c: Config, n: nat, k: nat, j: nat)
    requires k > 0 && j < c.maxOpen < n
  {
    Reachable(c, n, k, State(k, Slot(j + 1, 0, NOBODY, true, true), Files(1, j + 1),
        Late(n, Rem(RSubLock, 0), j, c.maxOpen)))
  }

  lemma RemoverCloses(c: Config, n: nat, k: nat)
    requires k > 0 && 0 < c.maxOpen < n
    ensures Leaving(c, n, k, c.maxOpen - 1)
  {
    var m := c.maxOpen;
    var fs := Files(1, m);
    var x, y, z := Slot(m, 0, NOBODY, false, false), Slot(m, 0, 0, true, false), Slot(m, 0, NOBODY, true, false);
    var ws0, ws1 := Late(n, Rem(RLock, 0), m - 1, m), Late(n, Rem(RPubTest, 0), m - 1, m);
    var ws2, ws3 := Late(n, Rem(RBcast, 0), m - 1, m), Late(n, Rem(RSubLock, 0), m - 1, m);
    RemoverEnters(c, n, k);
    assert ws1 == ws0[0 := Rem(RPubTest, 0)] && ws2 == ws1[0 := Rem(RBcast, 0)] && ws3 == ws2[0 := Rem(RSubLock, 0)];
    hide Reachable;
    QuietStep(c, n, k, ws0, 0, x, fs, Effect(Rem(RPubTest, 0), y, fs, None));
    QuietStep(c, n, k, ws1, 0, y, fs, Effect(Rem(RBcast, 0), z, fs, None));
    QuietStep(c, n, k, ws2, 0, z, fs, Effect(Rem(RSubLock, 0), Slot(m, 0, NOBODY, true, true), fs, All));
  }

  /** A subscriber with a handle sees the box closed. */
  lemma ReaderSees(c: Config, n: nat, k: nat, j: nat)
    requires k > 0 && 0 < j < c.maxOpen < n && Leaving(c, n, k, j)
    ensures var ws := Late(n, Rem(RSubLock, 0), j, c.maxOpen);
            Reachable(c, n, k, State(k, Slot(j + 1, 0, j, true, true), Files(1, j + 1), ws[j := Reader(SExit, j)]))
  {
    var fs := Files(1, j + 1);
    var x, y := Slot(j + 1, 0, NOBODY, true, true), Slot(j + 1, 0, j, true, true);
    var ws := Late(n, Rem(RSubLock, 0), j, c.maxOpen);
    var ws1 := ws[j := Reader(SRead, j)];
    assert ws1[j := Reader(SExit, j)] == ws[j := Reader(SExit, j)];
    assert j in fs.handles && Advance(fs, j, 0) == fs;
    hide Reachable;
    QuietStep(c, n, k, ws, j, x, fs, Effect(Reader(SRead, j), y, fs, None));
    QuietStep(c, n, k, ws1, j, y, fs, Effect(Reader(SExit, j), y, fs, None));
  }

  lemma ReaderLeaves(c: Config, n: nat, k: nat, j: nat)
    requires k > 0 && 0 < j < c.maxOpen < n && Leaving(c, n, k, j)
    ensures Leaving(c, n, k, j - 1)
  {
    var fs := Files(1, j + 1);
    var ws := Late(n, Rem(RSubLock, 0), j, c.maxOpen)[j := Reader(SExit, j)];
    ReaderSees(c, n, k, j);
    assert ws[j := Idle] == Late(n, Rem(RSubLock, 0), j - 1, c.maxOpen);
    assert Close(fs, j) == Files(1, j);
    hide Reachable;
    QuietStep(c, n, k, ws, j, Slot(j + 1, 0, j, true, true), fs,
        Effect(Idle, Slot(j, 0, NOBODY, true, true), Files(1, j), One));
  }

  lemma {:induction false} ReadersLeave(c: Config, n: nat, k: nat, j: nat)
    requires k > 0 && j < c.maxOpen < n
    ensures Leaving(c, n, k, j)
    decreases c.maxOpen - j
  {
    hide Leaving;
    if j == c.maxOpen - 1 {
      RemoverCloses(c, n, k);
    } else {
      ReadersLeave(c, n, k, j + 1);
      ReaderLeaves(c, n, k, j + 1);
    }
  }

  function Stranded(c: Config, n: nat, k: nat): Broker
    requires k > 0 && n > 0
  {
    State(k, Slot(0, 0, NOBODY, true, true), Files(1, 1), Crowd(n, Rem(RSubSleep, 0), 0, n, Idle))
  }

  /** The remover falls asleep, and the last subscriber leaves without a signal. */
  lemma LastOneLeaves(c: Config, n: nat, k: nat)
    requires k > 0 && 0 < c.maxOpen < n
    ensures Reachable(c, n, k, Stranded(c, n, k))
  {
    var m := c.maxOpen;
    var fs := Files(1, 1);
    var x, y := Slot(1, 0, NOBODY, true, true), Slot(1, 0, 0, true, true);
    var ws, ws1 := Late(n, Rem(RSubLock, 0), 0, m), Late(n, Rem(RSubTest, 0), 0, m);
    var ws2 := Late(n, Rem(RSubSleep, 0), 0, m);
    ReadersLeave(c, n, k, 0);
    assert ws1 == ws[0 := Rem(RSubTest, 0)] && ws2 == ws1[0 := Rem(RSubSleep, 0)];
    assert ws2[m := Idle] == Crowd(n, Rem(RSubSleep, 0), 0, n, Idle);
    hide Reachable;
    QuietStep(c, n, k, ws, 0, x, fs, Effect(Rem(RSubTest, 0), y, fs, None));
    QuietStep(c, n, k, ws1, 0, y, fs, Effect(Rem(RSubSleep, 0), x, fs, None));
    QuietStep(c, n, k, ws2, m, x, fs, Effect(Idle, Slot(0, 0, NOBODY, true, true), fs, None));
  }

  lemma StrandedStays(c: Config, n: nat, k: nat)
    requires k > 0 && n > 0
    ensures Deadlocked(c, Stranded(c, n, k)) && Closing(Stranded(c, n, k), 0)
  {
  }

  // ---- the exact condition -------------------------------------------------------------------

  /** A removal is under way that can go no further. */
  ghost predicate RemovalStuck(c: Config, s: Broker, b: nat) {
    Closing(s, b) && !CanProceed(c, s, b)
  }

  /** With one handle at least, and a slot, any number of workers that is greater than the
      number of handles can deadlock. */
  lemma TooManyWorkers(c: Config, n: nat, k: nat)
    requires k > 0 && 0 < c.maxOpen < n
    ensures exists s :: Reachable(c, n, k, s) && Closing(s, 0) && Deadlocked(c, s)
  {
    LastOneLeaves(c, n, k);
    StrandedStays(c, n, k);
    var s := Stranded(c, n, k);
    assert Reachable(c, n, k, s) && Closing(s, 0) && Deadlocked(c, s);
  }

  /** Without handles no slot is ever taken. */
  ghost predicate Barren(s: Broker) {
    && s.table == NOBODY
    && (forall t :: 0 <= t < |s.workers| ==> s.workers[t].Idle?)
    && (forall b :: 0 <= b < |s.boxes| ==> s.boxes[b].taken == FREE)
  }

  lemma StaysBarren(c: Config, s: Broker, s': Broker)
    requires c.maxOpen == 0 && Barren(s) && Next(c, s, s')
    ensures Barren(s')
  {
  }

  lemma {:induction false} BarrenRun(c: Config, states: seq<Broker>, i: nat)
    requires c.maxOpen == 0 && IsRun(c, states) && i < |states|
    ensures Barren(states[i])
  {
    if i == 0 {
      assert forall b :: 0 <= b < |states[0].boxes| ==> EmptySlot(states[0].boxes[b]);
    } else {
      BarrenRun(c, states, i - 1);
      hide Next;
      assert Next(c, states[i - 1], states[i]);
      StaysBarren(c, states[i - 1], states[i]);
    }
  }

  lemma NeverStuckWithHandles(c: Config, n: nat, k: nat, s: Broker, b: nat)
    requires c.msgLength > 0 && Reachable(c, n, k, s) && RemovalStuck(c, s, b)
    ensures k > 0 && 0 < c.maxOpen < n
  {
    var states :| RunTo(c, n, k, states, s);
    if c.maxOpen == 0 {
      BarrenRun(c, states, |states| - 1);
    } else if n <= c.maxOpen {
      RunAmple(c, states, |states| - 1);
      hide IsRun, AmpleOk, CanProceed;
      CanGoOn(c, s, b);
    }
    if k == 0 { SlotsStay(c, states, |states| - 1); }
  }

  lemma {:induction false} SlotsStay(c: Config, states: seq<Broker>, i: nat)
    requires IsRun(c, states) && i < |states|
    ensures |states[i].boxes| == |states[0].boxes|
  {
    if i > 0 {
      SlotsStay(c, states, i - 1);
      assert Next(c, states[i - 1], states[i]);
    }
  }

  lemma DeadlockIsStuck(c: Config, s: Broker, b: nat)
    requires Closing(s, b) && Deadlocked(c, s)
    ensures RemovalStuck(c, s, b)
  {
  }

  /** The exact condition: some run with n workers and k slots leaves a removal stuck if and
      only if there are more workers than handles, some handle and some slot. The same holds
      of a run that ends with nobody able to step or enter. */
  lemma RemovalSticksIff(c: Config, n: nat, k: nat)
    requires c.msgLength > 0
    ensures (exists s, b: nat :: Reachable(c, n, k, s) && RemovalStuck(c, s, b)) <==> k > 0 && 0 < c.maxOpen < n
    ensures (exists s, b: nat :: Reachable(c, n, k, s) && Closing(s, b) && Deadlocked(c, s)) <==>
              k > 0 && 0 < c.maxOpen < n
  {
    hide Reachable, Closing, Deadlocked, RemovalStuck;
    if k > 0 && 0 < c.maxOpen < n {
      TooManyWorkers(c, n, k);
      var s :| Reachable(c, n, k, s) && Closing(s, 0) && Deadlocked(c, s);
      DeadlockIsStuck(c, s, 0);
    } else {
      forall s, b: nat | Reachable(c, n, k, s) ensures !RemovalStuck(c, s, b) && !(Closing(s, b) && Deadlocked(c, s)) {
        if RemovalStuck(c, s, b) { NeverStuckWithHandles(c, n, k, s, b); }
        if Closing(s, b) && Deadlocked(c, s) { DeadlockIsStuck(c, s, b); }
      }
    }
  }
}

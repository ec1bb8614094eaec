/** Runs in which the code that box_remove writes does not reach its publisher. */
module BrokerPipeRuns {
  import opened Counting
  import opened TfsTypes
  import opened BrokerFs
  import opened BrokerSystem
  import opened BrokerControl
  import opened BrokerFiles
  import opened BrokerRemoval
  import opened BrokerRuns
  import opened BrokerReach
  import opened BrokerPipes
  import opened BrokerHearing
  import opened BrokerMissed

  /** Some run with n workers and k slots ends in this state. */
  ghost predicate PipedReachable(c: Config, n: nat, k: nat, x: Piped) {
    exists states: seq<Piped> :: PipedRunTo(c, n, k, states, x)
  }

  ghost predicate PipedRunTo(c: Config, n: nat, k: nat, states: seq<Piped>, x: Piped) {
    && IsPipedRun(c, states) && |states[0].s.workers| == n && |states[0].s.boxes| == k
    && states[|states| - 1] == x
  }

  lemma PipedExtends(c: Config, n: nat, k: nat, x: Piped, x': Piped)
    requires PipedReachable(c, n, k, x) && PipedNext(c, x, x')
    ensures PipedReachable(c, n, k, x')
  {
    hide PipedNext, PipedInit;
    var states :| PipedRunTo(c, n, k, states, x);
    assert PipedRunTo(c, n, k, states + [x'], x');
  }

  lemma PokeExtends(c: Config, n: nat, k: nat, x: Piped, x': Piped)
    requires PipedReachable(c, n, k, x) && PokeStep(x, x')
    ensures PipedReachable(c, n, k, x')
  {
    PipedExtends(c, n, k, x, x');
  }

  // ---- the states of the runs ----------------------------------------------------------------

  const PATH: Path := [112]
  const OTHER: Path := [113]
  const NO_END := End([], CLOSED, false)
  const SHUT := End(PATH, CLOSED, true)
  const THERE: map<Path, nat> := map[PATH := 0]
  const FREE_BOX := Slot(0, 0, NOBODY, false, false)
  const OPEN_BOX := Slot(0, 1, NOBODY, false, false)
  const CLOSED_BOX := Slot(0, 1, 1, true, false).(poked := true)

  /** Only worker 0 has had an end. */
  function One(n: nat, end: End): seq<End>
    requires n > 0
  {
    seq(n, _ => NO_END)[0 := end]
  }

  /** A state of the broker with one box in use. */
  function Pipes(s: Broker, fifos: map<Path, nat>, ends: seq<End>, name: Path): Piped
    requires |s.boxes| > 0
  {
    Piped(s, fifos, ends, seq(|s.boxes|, _ => [])[0 := name], NoPoke, multiset{})
  }

  function OpenEnd(copied: bool): End {
    End(PATH, 0, copied)
  }

  function Alone(n: nat, w: Worker): seq<Worker> {
    Crowd(n, w, 0, n, Idle)
  }

  /** A step of the publisher. */
  lemma PublisherMoves(c: Config, n: nat, k: nat, w: Worker, fs: Fs, e: Effect,
                       fifos: map<Path, nat>, end: End, name: Path)
    requires k > 0 && n > 0 && w.Pub? && w.box == 0 && LocalStep(c, 0, w, OPEN_BOX, fs, e)
    requires !e.w.Rem? && e.box.taken == TAKEN && !SleepsOn(e.w, 0) && (w.ppc == PTop ==> end.copied)
    requires PipedReachable(c, n, k, Pipes(State(k, OPEN_BOX, fs, Alone(n, w)), fifos, One(n, end), name))
    ensures PipedReachable(c, n, k, Pipes(State(k, e.box, e.fs, Alone(n, e.w)), fifos,
                                          One(n, if Closes(w, e.w) then end.(fifo := CLOSED) else end), name))
  {
    var s, s' := State(k, OPEN_BOX, fs, Alone(n, w)), State(k, e.box, e.fs, Alone(n, e.w));
    var x := Pipes(s, fifos, One(n, end), name);
    var x' := Pipes(s', fifos, One(n, if Closes(w, e.w) then end.(fifo := CLOSED) else end), name);
    assert Alone(n, e.w) == Alone(n, w)[0 := e.w];
    QuietMove(c, k, Alone(n, w), 0, OPEN_BOX, fs, e);
    hide LocalStep, PipedReachable, Move, Closes;
    assert x'.ends == if Closes(w, e.w) then x.ends[0 := x.ends[0].(fifo := CLOSED)] else x.ends;
    assert PipedMove(c, x, 0, 0, x');
    assert WorkerStep(c, x, 0, x');
    PipedExtends(c, n, k, x, x');
  }

  /** A box is created. */
  lemma BoxThere(c: Config, n: nat, k: nat)
    requires k > 0 && n > 0 && c.maxOpen > 0
    ensures PipedReachable(c, n, k,
              Pipes(State(k, FREE_BOX, Files(0, 0), Alone(n, Idle)), map[], One(n, NO_END), []))
  {
    var s := State(k, EMPTY, Fs(map[], map[], map[]), Alone(n, Idle));
    var s' := State(k, FREE_BOX, Files(0, 0), Alone(n, Idle));
    var x, x' := Pipes(s, map[], One(n, NO_END), []), Pipes(s', map[], One(n, NO_END), []);
    assert x.ends == seq(n, _ => NO_END) && x.names == seq(k, _ => []);
    assert PipedRunTo(c, n, k, [x], x);
    NextHandle(0, c.maxOpen);
    assert s'.boxes == s.boxes[0 := s'.boxes[0]];
    assert Create(c, s, 0, 0, NAME, 1, true, s');
    assert Creates(c, s, 0, 0, s');
    assert x' == x.(s := s', names := x.names[0 := []]);
    assert PipedCreate(c, x, 0, x');
    assert WorkerStep(c, x, 0, x');
    PipedExtends(c, n, k, x, x');
  }

  /** A client makes its FIFO, and the session of worker 0 opens it and registers. */
  lemma PublisherEnters(c: Config, n: nat, k: nat, fs: Fs, end: End, name: Path, p: Path, f: nat)
    requires k > 0 && n > 0 && end.fifo == CLOSED && p != []
    requires PipedReachable(c, n, k, Pipes(State(k, FREE_BOX, fs, Alone(n, Idle)), map[], One(n, end), name))
    ensures PipedReachable(c, n, k,
              Pipes(State(k, OPEN_BOX, fs, Alone(n, Writer(POpen))), map[p := f], One(n, End(p, f, false)), name))
  {
    var s := State(k, FREE_BOX, fs, Alone(n, Idle));
    var s' := State(k, OPEN_BOX, fs, Alone(n, Writer(POpen)));
    var x0, x1 := Pipes(s, map[], One(n, end), name), Pipes(s, map[p := f], One(n, end), name);
    var x2 := Pipes(s, map[p := f], One(n, End(p, f, false)), name);
    var x3 := Pipes(s', map[p := f], One(n, End(p, f, false)), name);
    hide PipedReachable;
    assert x1.fifos == x0.fifos[p := f];
    assert ClientMakes(x0, p, f, x1);
    PipedExtends(c, n, k, x0, x1);
    assert x2.ends == x1.ends[0 := End(p, f, false)];
    assert OpensEnd(x1, 0, p, x2);
    assert WorkerStep(c, x1, 0, x2);
    PipedExtends(c, n, k, x1, x2);
    assert Alone(n, Writer(POpen)) == Alone(n, Idle)[0 := Writer(POpen)] && s'.boxes == s.boxes[0 := OPEN_BOX];
    assert AddPub(s, 0, 0, NAME, s');
    assert Registers(s, 0, s');
    assert WorkerStep(c, x2, 0, x3);
    PipedExtends(c, n, k, x2, x3);
  }

  lemma PublisherThere(c: Config, n: nat, k: nat)
    requires k > 0 && n > 0 && c.maxOpen > 0
    ensures PipedReachable(c, n, k,
              Pipes(State(k, OPEN_BOX, Files(0, 0), Alone(n, Writer(POpen))), THERE, One(n, OpenEnd(false)), []))
  {
    BoxThere(c, n, k);
    hide PipedReachable;
    PublisherEnters(c, n, k, Files(0, 0), NO_END, [], PATH, 0);
  }

  /** It opens the box's file. */
  lemma PublisherOpens(c: Config, n: nat, k: nat, fs: Fs, fifos: map<Path, nat>, end: End, name: Path)
    requires k > 0 && n > 0 && c.maxOpen > 0 && fs == Files(0, 0)
    requires PipedReachable(c, n, k,
               Pipes(State(k, OPEN_BOX, fs, Alone(n, Writer(POpen))), fifos, One(n, end), name))
    ensures PipedReachable(c, n, k,
              Pipes(State(k, OPEN_BOX, Files(0, 1), Alone(n, Writer(PTop))), fifos, One(n, end), name))
  {
    NextHandle(0, c.maxOpen);
    assert Files(0, 1).handles == Files(0, 0).handles[0 := OpenFile(1, 0)];
    hide PipedReachable;
    PublisherMoves(c, n, k, Writer(POpen), fs, Effect(Writer(PTop), OPEN_BOX, Files(0, 1), None), fifos, end, name);
  }

  /** And copies its path. */
  lemma PublisherNamed(c: Config, n: nat, k: nat)
    requires k > 0 && n > 0 && c.maxOpen > 0
    ensures PipedReachable(c, n, k,
              Pipes(State(k, OPEN_BOX, Files(0, 1), Alone(n, Writer(PTop))), THERE, One(n, OpenEnd(true)), PATH))
  {
    var s := State(k, OPEN_BOX, Files(0, 1), Alone(n, Writer(PTop)));
    var x, x' := Pipes(s, THERE, One(n, OpenEnd(false)), []), Pipes(s, THERE, One(n, OpenEnd(true)), PATH);
    PublisherThere(c, n, k);
    hide PipedReachable;
    PublisherOpens(c, n, k, Files(0, 0), THERE, OpenEnd(false), []);
    assert x'.names == x.names[0 := PATH] && x'.ends == x.ends[0 := OpenEnd(true)];
    assert Copies(x, 0, x');
    assert WorkerStep(c, x, 0, x');
    PipedExtends(c, n, k, x, x');
  }

  /** Its client hangs up, and it closes its end. */
  lemma PublisherShuts(c: Config, n: nat, k: nat)
    requires k > 0 && n > 0 && c.maxOpen > 0
    ensures PipedReachable(c, n, k,
              Pipes(State(k, OPEN_BOX, Files(1, 1), Alone(n, Writer(PLeave))), THERE, One(n, SHUT), PATH))
  {
    var fs := Files(0, 1);
    PublisherNamed(c, n, k);
    assert Close(fs, 0) == Files(1, 1);
    hide PipedReachable, State, Pipes;
    PublisherMoves(c, n, k, Writer(PTop), fs, Effect(Writer(PCheck), OPEN_BOX, fs, None), THERE, OpenEnd(true), PATH);
    PublisherMoves(c, n, k, Writer(PCheck), fs, Effect(Writer(PBreak), OPEN_BOX, fs, None), THERE, OpenEnd(true), PATH);
    PublisherMoves(c, n, k, Writer(PBreak), fs,
                   Effect(Writer(PLeave), OPEN_BOX, Files(1, 1), None), THERE, OpenEnd(true), PATH);
  }

  /** Another client's session follows it, and has opened the box's file but not copied its path. */
  lemma SuccessorThere(c: Config, n: nat, k: nat)
    requires k > 0 && n > 0 && c.maxOpen > 0
    ensures PipedReachable(c, n, k, Pipes(State(k, OPEN_BOX, Files(0, 1), Alone(n, Writer(PTop))),
                                          map[OTHER := 1], One(n, End(OTHER, 1, false)), PATH))
  {
    var fs := Files(1, 1);
    PublisherShuts(c, n, k);
    hide PipedReachable;
    PublisherMoves(c, n, k, Writer(PLeave), fs, Effect(Idle, FREE_BOX, fs, All), THERE, SHUT, PATH);
    var s := State(k, FREE_BOX, fs, Alone(n, Idle));
    var x, x' := Pipes(s, THERE, One(n, SHUT), PATH), Pipes(s, map[], One(n, SHUT), PATH);
    assert ClientUnlinks(x, PATH, x');
    PipedExtends(c, n, k, x, x');
    PublisherEnters(c, n, k, fs, SHUT, PATH, OTHER, 1);
    assert fs.handles == Files(0, 0).handles;
    PublisherOpens(c, n, k, fs, map[OTHER := 1], End(OTHER, 1, false), PATH);
  }

  /** The box closed by worker 1, that is at the write to the publisher, worker 0. */
  function Poked(n: nat, k: nat, w: Worker, fs: Fs, fifos: map<Path, nat>, ends: seq<End>, name: Path): Piped
    requires k > 0 && n > 1
  {
    Pipes(State(k, CLOSED_BOX, fs, Alone(n, w)[1 := Rem(RPubTest, 0)]), fifos, ends, name)
  }

  /** Worker 1 starts a removal and closes the box. */
  lemma RemoverPokes(c: Config, n: nat, k: nat, w: Worker, fs: Fs, fifos: map<Path, nat>, ends: seq<End>, name: Path)
    requires k > 0 && n > 1 && w.Pub? && w.box == 0 && |ends| == n && ends[1].fifo == CLOSED
    requires PipedReachable(c, n, k, Pipes(State(k, OPEN_BOX, fs, Alone(n, w)), fifos, ends, name))
    ensures PipedReachable(c, n, k, Poked(n, k, w, fs, fifos, ends, name).(poke := Looking))
  {
    var ws0 := Alone(n, w);
    var ws1, ws2 := ws0[1 := Rem(RLock, 0)], ws0[1 := Rem(RPubTest, 0)];
    var s0, s1, s2 := State(k, OPEN_BOX, fs, ws0), State(k, OPEN_BOX, fs, ws1), State(k, CLOSED_BOX, fs, ws2);
    var x0, x1, x2 := Pipes(s0, fifos, ends, name), Pipes(s1, fifos, ends, name), Pipes(s2, fifos, ends, name);
    assert StartRemove(s0, 1, 0, NAME, s1);
    assert OthersEnter(s0, 1, s1);
    assert PipedEnter(c, x0, 1, x1);
    assert WorkerStep(c, x0, 1, x1);
    PipedExtends(c, n, k, x0, x1);
    assert ws2 == ws1[1 := Rem(RPubTest, 0)];
    QuietMove(c, k, ws1, 1, OPEN_BOX, fs, Effect(Rem(RPubTest, 0), CLOSED_BOX, fs, None));
    hide PipedReachable, Move;
    assert PipedMove(c, x1, 1, 0, x2.(poke := Looking));
    assert WorkerStep(c, x1, 1, x2.(poke := Looking));
    PipedExtends(c, n, k, x1, x2.(poke := Looking));
  }

  /** The path leads to a FIFO that worker u reads: the write goes through. */
  lemma RemoverWrites(c: Config, n: nat, k: nat, w: Worker, fs: Fs, fifos: map<Path, nat>, ends: seq<End>, name: Path,
                      u: nat)
    requires k > 0 && n > 1 && w.Pub? && w.box == 0 && |ends| == n && ends[1].fifo == CLOSED
    requires u < n && name in fifos && ends[u].fifo == fifos[name]
    requires PipedReachable(c, n, k, Pipes(State(k, OPEN_BOX, fs, Alone(n, w)), fifos, ends, name))
    ensures PipedReachable(c, n, k, Poked(n, k, w, fs, fifos, ends, name).(codes := multiset{ends[u].fifo}))
  {
    var x, f := Poked(n, k, w, fs, fifos, ends, name), fifos[name];
    RemoverPokes(c, n, k, w, fs, fifos, ends, name);
    hide PipedReachable;
    assert x.ends[u].fifo == f;
    assert Read(x, f) && Read(x.(poke := Waiting(f)), f) && Read(x.(poke := Writing(f)), f);
    PokeExtends(c, n, k, x.(poke := Looking), x.(poke := Waiting(f)));
    PokeExtends(c, n, k, x.(poke := Waiting(f)), x.(poke := Writing(f)));
    PokeExtends(c, n, k, x.(poke := Writing(f)), x.(codes := multiset{f}));
  }

  // ---- what becomes of the code -------------------------------------------------------------

  /** Worker 0 is the publisher, and worker 1 the remover that has closed the box. */
  predicate Meet(x: Piped, pc: PubPc) {
    && |x.s.workers| == |x.ends| > 1 && x.s.workers[0].Pub? && x.s.workers[0].ppc == pc
    && x.s.workers[1] == Rem(RPubTest, 0) && Closing(x.s, 0)
  }

  /** The client unlinks its FIFO while the session reads it: the lookup finds nothing. */
  lemma UnlinkedAborts(c: Config, n: nat, k: nat)
    requires k > 0 && n > 1 && c.maxOpen > 0
    ensures exists x :: PipedReachable(c, n, k, x) && x.poke == Looking && Aborts(x)
              && Meet(x, PTop) && x.ends[0].fifo != CLOSED && x.ends[0].copied
  {
    var s, ends := State(k, OPEN_BOX, Files(0, 1), Alone(n, Writer(PTop))), One(n, OpenEnd(true));
    PublisherNamed(c, n, k);
    hide PipedReachable;
    var x0, x1 := Pipes(s, THERE, ends, PATH), Pipes(s, map[], ends, PATH);
    assert ClientUnlinks(x0, PATH, x1);
    PipedExtends(c, n, k, x0, x1);
    RemoverPokes(c, n, k, Writer(PTop), Files(0, 1), map[], ends, PATH);
    var x := Poked(n, k, Writer(PTop), Files(0, 1), map[], ends, PATH).(poke := Looking);
    assert PipedReachable(c, n, k, x) && Aborts(x);
  }

  /** The session has not copied its path, and nobody has before: the lookup finds nothing. */
  lemma UnnamedAborts(c: Config, n: nat, k: nat)
    requires k > 0 && n > 1 && c.maxOpen > 0
    ensures exists x :: PipedReachable(c, n, k, x) && x.poke == Looking && Aborts(x)
              && Meet(x, POpen) && Linked(x, x.ends[0])
  {
    PublisherThere(c, n, k);
    hide PipedReachable;
    RemoverPokes(c, n, k, Writer(POpen), Files(0, 0), THERE, One(n, OpenEnd(false)), []);
    var x := Poked(n, k, Writer(POpen), Files(0, 0), THERE, One(n, OpenEnd(false)), []).(poke := Looking);
    assert PipedReachable(c, n, k, x) && Aborts(x);
  }

  /** The session has closed its end and wants the mutex: the open blocks; and if the client
      then unlinks its FIFO, for ever. */
  lemma ShutBlocks(c: Config, n: nat, k: nat)
    requires k > 0 && n > 1 && c.maxOpen > 0
    ensures exists x :: PipedReachable(c, n, k, x) && Blocks(x) && x.poke.fifo !in x.fifos.Values
              && Meet(x, PLeave)
  {
    var w, fs, ends := Writer(PLeave), Files(1, 1), One(n, SHUT);
    PublisherShuts(c, n, k);
    hide PipedReachable;
    RemoverPokes(c, n, k, w, fs, THERE, ends, PATH);
    var x0 := Poked(n, k, w, fs, THERE, ends, PATH).(poke := Looking);
    var x1, x2 := x0.(poke := Waiting(0)), Poked(n, k, w, fs, map[], ends, PATH).(poke := Waiting(0));
    PokeExtends(c, n, k, x0, x1);
    assert ClientUnlinks(x1, PATH, x2);
    PipedExtends(c, n, k, x1, x2);
    assert forall u :: 0 <= u < n ==> x2.ends[u].fifo == CLOSED;
    assert PipedReachable(c, n, k, x2) && Blocks(x2);
  }

  /** The session waits for a code with its FIFO in place: the code is heard. */
  lemma NamedReaches(c: Config, n: nat, k: nat)
    requires k > 0 && n > 1 && c.maxOpen > 0
    ensures exists x :: PipedReachable(c, n, k, x) && Heard(c, x, 0) && Meet(x, PTop)
  {
    var w, fs, ends := Writer(PTop), Files(0, 1), One(n, OpenEnd(true));
    PublisherNamed(c, n, k);
    hide PipedReachable;
    RemoverWrites(c, n, k, w, fs, THERE, ends, PATH, 0);
    var x := Poked(n, k, w, fs, THERE, ends, PATH).(codes := multiset{0});
    assert PipedReachable(c, n, k, x) && Heard(c, x, 0) && Meet(x, PTop);
  }

  /** The path at the box is still an earlier session's, and leads to the FIFO of a third one that
      waits to register: the code goes there, and the publisher waits for its client. */
  lemma CodeStrays(c: Config, n: nat, k: nat)
    requires k > 0 && n > 2 && c.maxOpen > 0
    ensures exists x :: PipedReachable(c, n, k, x) && Deaf(x, 0) && Meet(x, PTop)
              && Linked(x, x.ends[0]) && |x.ends| > 2 && x.s.workers[2].Idle? && x.ends[2].fifo in x.codes
  {
    var w, fs, ends := Writer(PTop), Files(0, 1), One(n, End(OTHER, 1, false));
    var fifos := map[OTHER := 1, PATH := 2];
    var ends' := ends[2 := End(PATH, 2, false)];
    var s := State(k, OPEN_BOX, fs, Alone(n, w));
    SuccessorThere(c, n, k);
    hide PipedReachable;
    var x0, x1, x2 := Pipes(s, map[OTHER := 1], ends, PATH), Pipes(s, fifos, ends, PATH), Pipes(s, fifos, ends', PATH);
    assert x1.fifos == x0.fifos[PATH := 2];
    assert ClientMakes(x0, PATH, 2, x1);
    PipedExtends(c, n, k, x0, x1);
    assert OpensEnd(x1, 2, PATH, x2);
    assert WorkerStep(c, x1, 2, x2);
    PipedExtends(c, n, k, x1, x2);
    RemoverWrites(c, n, k, w, fs, fifos, ends', PATH, 2);
    var x := Poked(n, k, w, fs, fifos, ends', PATH).(codes := multiset{2});
    assert PublishesTo(x.s, 0, 0) && x.ends[0].fifo == 1;
    assert PipedReachable(c, n, k, x) && Deaf(x, 0) && Meet(x, PTop);
  }

  /** The session is at the read of a message that fits, with its FIFO in place: the code is in the
      FIFO, but may be read as a part of the message. */
  lemma MessageTakesCode(c: Config, n: nat, k: nat)
    requires k > 0 && n > 1 && c.maxOpen > 0 && 0 < c.msgLength <= c.blockSize
    ensures exists x :: PipedReachable(c, n, k, x) && CanBeDeaf(c, x, 0) && Meet(x, PMsg)
              && Linked(x, x.ends[0]) && x.ends[0].fifo in x.codes && forall q: nat :: !Rival(c, x, 0, q)
  {
    var w, fs, ends := Writer(PTop), Files(0, 1), One(n, OpenEnd(true));
    var w1, w2 := w.(ppc := PCheck, ev := Publish), w.(ppc := PMsg, ev := Publish);
    PublisherNamed(c, n, k);
    hide PipedReachable;
    PublisherMoves(c, n, k, w, fs, Effect(w1, OPEN_BOX, fs, None), THERE, OpenEnd(true), PATH);
    PublisherMoves(c, n, k, w1, fs, Effect(w2, OPEN_BOX, fs, None), THERE, OpenEnd(true), PATH);
    RemoverWrites(c, n, k, w2, fs, THERE, ends, PATH, 0);
    var x := Poked(n, k, w2, fs, THERE, ends, PATH).(codes := multiset{0});
    ReachableOk(c, n, k, x);
    hide Ok, PipesOk;
    assert HasWritten(c, x, 0, 0);
    MessageDeaf(c, x, 0, 0);
    hide CanBeDeaf;
    assert PipedReachable(c, n, k, x) && CanBeDeaf(c, x, 0);
  }

  lemma ReachableOk(c: Config, n: nat, k: nat, x: Piped)
    requires PipedReachable(c, n, k, x) && c.msgLength > 0
    ensures Ok(c, x.s) && PipesOk(x) && |x.s.workers| == n && |x.s.boxes| == k
  {
    var states :| PipedRunTo(c, n, k, states, x);
    PipedRunOk(c, states, |states| - 1);
    SizesStay(c, states, |states| - 1);
  }

  /** What can come about from a reachable state is reachable. */
  lemma ReachesDeaf(c: Config, n: nat, k: nat, x: Piped, b: nat)
    requires PipedReachable(c, n, k, x) && CanBeDeaf(c, x, b)
    ensures exists y :: PipedReachable(c, n, k, y) && Deaf(y, b)
  {
    hide PipedNext, PipedInit, Deaf;
    var states :| PipedRunTo(c, n, k, states, x);
    var more :| LeadsToDeaf(c, x, more, b);
    var y := more[|more| - 1];
    var all := states + more[1..];
    forall i | 0 < i < |all| ensures PipedNext(c, all[i - 1], all[i]) {
      if i >= |states| { assert all[i] == more[i - |states| + 1] && all[i - 1] == more[i - |states|]; }
    }
    assert PipedRunTo(c, n, k, all, y);
  }

  // ---- exactly when --------------------------------------------------------------------------

  /** A remover and a publisher are two workers. */
  lemma TwoOfThem(c: Config, n: nat, k: nat, x: Piped, b: nat)
    requires PipedReachable(c, n, k, x) && c.msgLength > 0 && b < |x.s.boxes|
    requires x.poke != NoPoke || Deaf(x, b)
    ensures n > 1
  {
    ReachableOk(c, n, k, x);
    if x.poke != NoPoke {
      assert BoxOk(x.s, PokedBox(x));
      var p := CountWitness(x.s.workers, PubsOf(PokedBox(x)));
    } else {
      DeafWaits(c, x, b);
      var p: nat :| PublishesTo(x.s, b, p);
    }
  }

  lemma {:induction false} SizesStay(c: Config, states: seq<Piped>, i: nat)
    requires IsPipedRun(c, states) && i < |states|
    ensures |states[i].s.workers| == |states[0].s.workers| && |states[i].s.boxes| == |states[0].s.boxes|
  {
    hide PipedNext;
    if i > 0 {
      SizesStay(c, states, i - 1);
      assert PipedNext(c, states[i - 1], states[i]);
      StepsUnderneath(c, states[i - 1], states[i]);
      if states[i].s != states[i - 1].s { NextSizes(c, states[i - 1].s, states[i].s); }
    }
  }

  lemma NextSizes(c: Config, s: Broker, s': Broker)
    requires Next(c, s, s')
    ensures |s'.workers| == |s.workers| && |s'.boxes| == |s.boxes|
  {
    var t: nat :| Move(c, s, t, s') || Enter(c, s, t, s') || Spurious(s, t, s');
    if Move(c, s, t, s') {
      var e, ws' :| MoveBy(c, s, t, e, ws', s');
      AwokenEach(s.workers[t := e.w], s.workers[t].box, e.wake, ws');
    }
  }

  /** The write of one of two workers, with messages that never fit: the other one hears it. */
  lemma WriteHeard(c: Config, x: Piped, b: nat, x': Piped)
    requires Ok(c, x.s) && PipesOk(x) && |x.s.workers| == 2 && c.msgLength > c.blockSize
    requires x.poke.Writing? && PokeStep(x, x') && Closing(x.s, b)
    ensures Heard(c, x', b)
  {
    var u :| 0 <= u < |x.ends| && x.ends[u].fifo == x.poke.fifo;
    assert BoxOk(x.s, b) && PlaceOk(x.s.workers[x.s.table], x.ends[x.s.table], x.names);
    hide Ok;
  }

  /** A box that has just been closed without a write has no publisher. */
  lemma ClosedHeard(c: Config, x: Piped, b: nat, x': Piped)
    requires Ok(c, x.s) && PipesOk(x) && PipedNext(c, x, x')
    requires !Closing(x.s, b) && Closing(x'.s, b) && x'.poke == NoPoke
    ensures Heard(c, x', b)
  {
    hide Ok, PipesOk, AmpleOk, PipedMove, PipedEnter, PokeStep, ClientStep, PublishesTo;
    NextPipedOk(c, x, x');
    if t: nat :| WorkerStep(c, x, t, x') {
      if n :| PipedMove(c, x, t, n, x') {
        NewlyClosed(c, x, b, t, n, x');
      } else if PipedEnter(c, x, t, x') {
        EntersUnderneath(c, x, t, x');
        EnterCloses(c, x.s, b, t, x'.s);
      }
    } else {
      SameBoxes(c, x, b, x');
    }
    EndForEach(x');
  }

  lemma SameBoxes(c: Config, x: Piped, b: nat, x': Piped)
    requires ClientStep(x, x') || PokeStep(x, x') || exists t: nat :: PipedSpurious(x, t, x')
    ensures Closing(x'.s, b) == Closing(x.s, b)
  {
  }

  lemma EndForEach(x: Piped)
    requires PipesOk(x)
    ensures |x.ends| == |x.s.workers|
  {
  }

  lemma EnterCloses(c: Config, s: Broker, b: nat, t: nat, s': Broker)
    requires Enter(c, s, t, s') && Closing(s', b)
    ensures Closing(s, b)
  {
  }

  lemma NewlyClosed(c: Config, x: Piped, b: nat, t: nat, n: nat, x': Piped)
    requires Ok(c, x.s) && Ok(c, x'.s) && PipedMove(c, x, t, n, x')
    requires !Closing(x.s, b) && Closing(x'.s, b) && x'.poke == NoPoke
    ensures forall p: nat :: !PublishesTo(x'.s, b, p)
  {
    var e, ws' :| MoveBy(c, x.s, t, e, ws', x'.s);
    assert WorkerOk(x.s, t) && BoxOk(x'.s, b);
    BoxMoves(c, t, x.s.workers[t], x.s.boxes[x.s.workers[t].box], x.s.fs, e) by { MoveOwn(c, x.s, t, e, ws', x'.s); }
    hide LocalStep, Awoken, Ok;
    CountZero(x'.s.workers, PubsOf(b));
    forall p: nat | p < |x'.s.workers| ensures !PublishesTo(x'.s, b, p) { assert !PubsOf(b)(x'.s.workers[p]); }
  }

  /** With two workers and messages that never fit, every code is heard. */
  lemma {:induction false} TwoHear(c: Config, states: seq<Piped>, i: nat)
    requires IsPipedRun(c, states) && i < |states| && |states[0].s.workers| == 2 && c.msgLength > c.blockSize
    ensures forall b: nat :: Closing(states[i].s, b) && states[i].poke == NoPoke ==> Heard(c, states[i], b)
  {
    hide PipedNext, Ok, PipesOk, Heard;
    if i > 0 {
      TwoHear(c, states, i - 1);
      var x, x' := states[i - 1], states[i];
      assert PipedNext(c, x, x');
      PipedRunOk(c, states, i - 1);
      SizesStay(c, states, i - 1);
      forall b: nat | Closing(x'.s, b) && x'.poke == NoPoke ensures Heard(c, x', b) {
        if !Closing(x.s, b) {
          ClosedHeard(c, x, b, x');
        } else if x.poke == NoPoke {
          NextHeard(c, x, b, x');
        } else {
          EndOfPoke(c, x, x');
          WriteHeard(c, x, b, x');
        }
      }
    }
  }

  lemma EndOfPoke(c: Config, x: Piped, x': Piped)
    requires PipedNext(c, x, x') && x.poke != NoPoke && x'.poke == NoPoke
    ensures x.poke.Writing? && PokeStep(x, x')
  {
    hide Move, Closes;
  }

  /** Exactly when box_remove can fail to reach its publisher: with a slot and a handle, the write
      can end the process, and the open can block with the FIFO gone, if and only if there is
      more than one worker; the write can go through and miss the publisher if and only if there
      are more than two, or two and a message fits into a box. */
  lemma PokeFailsIff(c: Config, n: nat, k: nat)
    requires k > 0 && c.maxOpen > 0 && c.msgLength > 0
    ensures (exists x :: PipedReachable(c, n, k, x) && Aborts(x)) <==> n > 1
    ensures (exists x :: PipedReachable(c, n, k, x) && Blocks(x) && x.poke.fifo !in x.fifos.Values) <==> n > 1
    ensures (exists x, b :: PipedReachable(c, n, k, x) && Deaf(x, b)) <==>
            n > 2 || (n == 2 && c.msgLength <= c.blockSize)
  {
    if n > 1 {
      hide PipedReachable;
      UnnamedAborts(c, n, k);
      ShutBlocks(c, n, k);
    } else {
      forall x | PipedReachable(c, n, k, x) ensures x.poke == NoPoke {
        ReachableOk(c, n, k, x);
        if x.poke != NoPoke { TwoOfThem(c, n, k, x, 0); }
      }
    }
    hide Deaf, PipedReachable;
    DeafIff(c, n, k);
  }

  lemma DeafIff(c: Config, n: nat, k: nat)
    requires k > 0 && c.maxOpen > 0 && c.msgLength > 0
    ensures (exists x, b :: PipedReachable(c, n, k, x) && Deaf(x, b)) <==>
            n > 2 || (n == 2 && c.msgLength <= c.blockSize)
  {
    if n > 2 {
      hide PipedReachable;
      CodeStrays(c, n, k);
    } else if n == 2 && c.msgLength <= c.blockSize {
      MessageTakesCode(c, n, k);
      hide PipedReachable, Deaf, CanBeDeaf;
      var x :| PipedReachable(c, n, k, x) && CanBeDeaf(c, x, 0);
      ReachesDeaf(c, n, k, x, 0);
    } else {
      forall x, b | PipedReachable(c, n, k, x) ensures !Deaf(x, b) {
        if Deaf(x, b) { NeverDeaf(c, n, k, x, b); }
      }
    }
  }

  lemma NeverDeaf(c: Config, n: nat, k: nat, x: Piped, b: nat)
    requires PipedReachable(c, n, k, x) && c.msgLength > 0 && (n == 2 ==> c.msgLength > c.blockSize)
    requires Deaf(x, b)
    ensures n > 2
  {
    TwoOfThem(c, n, k, x, b);
    if n == 2 {
      var states :| PipedRunTo(c, n, k, states, x);
      TwoHear(c, states, |states| - 1);
      HeardNotDeaf(c, x, b);
    }
  }
}

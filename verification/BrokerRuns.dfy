/** What holds in every run of the broker, with any number of workers, and what holds besides
    with no more workers than handles. */
module BrokerRuns {
  import opened Counting
  import opened TfsTypes
  import opened BrokerFs
  import opened BrokerSystem
  import opened BrokerControl
  import opened BrokerFiles
  import opened BrokerBaton
  import opened BrokerDelivery
  import opened BrokerRemoval
  import opened BrokerSize

  ghost predicate SharedOk(c: Config, s: Broker, b: nat)
    requires b < |s.boxes|
  {
    NewsOk(s, b) && SizeOk(c, s, b)
  }

  /** What holds with any number of workers. */
  ghost predicate Ok(c: Config, s: Broker) {
    && ControlOk(s) && FilesOk(c, s) && DeliveryOk(c, s)
    && forall b: nat :: b < |s.boxes| ==> SharedOk(c, s, b)
  }

  /** With no more workers than handles, besides: nobody's open has failed, and the signal
      that a remover waits for is on its way. */
  ghost predicate AmpleOk(c: Config, s: Broker) {
    && Ok(c, s) && |s.workers| <= c.maxOpen && AllOpened(s)
    && forall b: nat :: b < |s.boxes| ==> BatonOk(s, b)
  }

  lemma InitOk(c: Config, s: Broker)
    requires Init(s) && c.msgLength > 0
    ensures Ok(c, s) && AllOpened(s) && forall b: nat :: b < |s.boxes| ==> BatonOk(s, b)
  {
    InitControl(s);
    InitFiles(c, s);
    forall b: nat | b < |s.boxes| ensures SharedOk(c, s, b) && BoxRecorded(c, s, b) { assert EmptySlot(s.boxes[b]); }
  }

  lemma MoveOk(c: Config, s: Broker, t: nat, s': Broker)
    requires Ok(c, s) && Move(c, s, t, s')
    ensures Ok(c, s')
  {
    var e, ws' :| MoveBy(c, s, t, e, ws', s');
    hide LocalStep, Awoken, ControlOk, FilesOk, DeliveryOk, NewsOk, SizeOk;
    MoveFiles(c, s, t, e, ws', s');
    MoveControl(c, s, t, e, ws', s');
    MoveDelivery(c, s, t, e, ws', s');
    forall b: nat | b < |s'.boxes| ensures SharedOk(c, s', b) {
      assert SharedOk(c, s, b);
      MoveNews(c, s, t, e, ws', s', b);
      MoveSize(c, s, t, e, ws', s', b);
    }
  }

  /** Every step keeps all of it. */
  lemma NextOk(c: Config, s: Broker, s': Broker)
    requires Ok(c, s) && Next(c, s, s')
    ensures Ok(c, s')
  {
    hide Move, Enter, Spurious, ControlOk, FilesOk, DeliveryOk, NewsOk, SizeOk;
    var t: nat :| Move(c, s, t, s') || Enter(c, s, t, s') || Spurious(s, t, s');
    if Move(c, s, t, s') {
      MoveOk(c, s, t, s');
    } else if Enter(c, s, t, s') {
      EnterOk(c, s, t, s');
    } else {
      SpuriousOk(c, s, t, s');
    }
  }

  lemma EnterOk(c: Config, s: Broker, t: nat, s': Broker)
    requires Ok(c, s) && Enter(c, s, t, s')
    ensures Ok(c, s')
  {
    hide Enter, ControlOk, FilesOk, DeliveryOk, NewsOk, SizeOk;
    EnterControl(c, s, t, s');
    EnterFiles(c, s, t, s');
    EnterDelivery(c, s, t, s');
    EnterBoxes(c, s, t, s');
    forall b: nat | b < |s'.boxes| ensures SharedOk(c, s', b) {
      assert SharedOk(c, s, b);
      EnterBaton(c, s, t, s', b);
      EnterSize(c, s, t, s', b);
    }
  }

  lemma EnterBoxes(c: Config, s: Broker, t: nat, s': Broker)
    requires Enter(c, s, t, s')
    ensures |s'.boxes| == |s.boxes| && |s'.workers| == |s.workers|
    ensures AllOpened(s) ==> AllOpened(s')
  {
  }

  lemma SpuriousOk(c: Config, s: Broker, t: nat, s': Broker)
    requires Ok(c, s) && Spurious(s, t, s')
    ensures Ok(c, s')
  {
    hide ControlOk, FilesOk, DeliveryOk, NewsOk, SizeOk;
    SpuriousControl(s, t, s');
    SpuriousFiles(c, s, t, s');
    SpuriousDelivery(c, s, t, s');
    forall b: nat | b < |s'.boxes| ensures SharedOk(c, s', b) {
      assert SharedOk(c, s, b);
      SpuriousNews(s, t, s', b);
      SpuriousSize(c, s, t, s', b);
    }
  }

  /** Every step keeps what holds with no more workers than handles. */
  lemma NextAmple(c: Config, s: Broker, s': Broker)
    requires AmpleOk(c, s) && Next(c, s, s')
    ensures AmpleOk(c, s')
  {
    hide Move, Enter, Spurious, Ok, BatonOk, AllOpened;
    NextOk(c, s, s');
    var t: nat :| Move(c, s, t, s') || Enter(c, s, t, s') || Spurious(s, t, s');
    if Move(c, s, t, s') {
      MoveAmple(c, s, t, s');
    } else if Enter(c, s, t, s') {
      EnterBoxes(c, s, t, s');
      forall b: nat | b < |s'.boxes| ensures BatonOk(s', b) { EnterBatonOk(c, s, t, s', b); }
    } else {
      SpuriousOpened(s, t, s');
      forall b: nat | b < |s'.boxes| ensures BatonOk(s', b) { SpuriousBaton(s, t, s', b); }
    }
  }

  lemma MoveAmple(c: Config, s: Broker, t: nat, s': Broker)
    requires AmpleOk(c, s) && Move(c, s, t, s')
    ensures |s'.workers| == |s.workers| && AllOpened(s') && forall b: nat :: b < |s'.boxes| ==> BatonOk(s', b)
  {
    var e, ws' :| MoveBy(c, s, t, e, ws', s');
    assert |s'.workers| == |s.workers| && |s'.boxes| == |s.boxes|;
    hide LocalStep, Awoken, ControlOk, FilesOk, DeliveryOk, BatonOk, AllOpened, SharedOk;
    MoveOpened(c, s, t, e, ws', s');
    forall b: nat | b < |s'.boxes| ensures BatonOk(s', b) {
      assert BatonOk(s, b);
      MoveBaton(c, s, t, e, ws', s', b);
    }
  }

  lemma EnterBatonOk(c: Config, s: Broker, t: nat, s': Broker, b: nat)
    requires Ok(c, s) && Enter(c, s, t, s') && b < |s'.boxes|
    ensures BatonOk(s', b)
  {
    EnterBoxes(c, s, t, s');
    assert SharedOk(c, s, b);
    hide Enter, ControlOk, FilesOk, DeliveryOk;
    EnterBaton(c, s, t, s', b);
  }

  lemma SpuriousOpened(s: Broker, t: nat, s': Broker)
    requires Spurious(s, t, s') && AllOpened(s)
    ensures AllOpened(s') && |s'.workers| == |s.workers| && |s'.boxes| == |s.boxes|
  {
  }

  /** Every state of every run. */
  lemma {:induction false} RunOk(c: Config, states: seq<Broker>, k: nat)
    requires IsRun(c, states) && k < |states| && c.msgLength > 0
    ensures Ok(c, states[k])
  {
    hide Ok, Next;
    if k == 0 {
      InitOk(c, states[0]);
    } else {
      RunOk(c, states, k - 1);
      assert Next(c, states[k - 1], states[k]);
      NextOk(c, states[k - 1], states[k]);
    }
  }

  /** Every state of every run with no more workers than handles. */
  lemma {:induction false} RunAmple(c: Config, states: seq<Broker>, k: nat)
    requires IsRun(c, states) && k < |states| && c.msgLength > 0
    requires |states[0].workers| <= c.maxOpen
    ensures AmpleOk(c, states[k])
  {
    hide Ok, Next, BatonOk;
    if k == 0 {
      InitOk(c, states[0]);
    } else {
      RunAmple(c, states, k - 1);
      assert Next(c, states[k - 1], states[k]);
      NextAmple(c, states[k - 1], states[k]);
    }
  }

  // ---- what it means ------------------------------------------------------------------------

  /** Counters are exact, at most one session publishes to a box, taken names differ,
      box_amount is the number of taken slots, and a taken box is open whenever the
      table lock is free. */
  lemma CountersExact(c: Config, s: Broker)
    requires Ok(c, s)
    ensures forall b: nat :: b < |s.boxes| ==>
              && s.boxes[b].nSubs == Count(s.workers, SubsOf(b))
              && s.boxes[b].nPubs == Count(s.workers, PubsOf(b)) <= 1
              && (s.boxes[b].taken == TAKEN && s.table == NOBODY ==> !s.boxes[b].closed)
    ensures forall b, d :: 0 <= b < d < |s.boxes| && s.boxes[b].taken == TAKEN && s.boxes[d].taken == TAKEN ==>
              s.boxes[b].name != s.boxes[d].name
    ensures s.amount == Count(s.boxes, IsTaken())
  {
    forall b: nat | b < |s.boxes|
      ensures CountsOk(s, b) && (s.boxes[b].taken == TAKEN && s.table == NOBODY ==> !s.boxes[b].closed)
    {
      assert BoxOk(s, b);
    }
  }

  /** No read or write of a session fails for want of a handle, box_remove's assertion of the
      status holds, and no subtraction wraps around; a session's handle is its own, open on
      its box's file and inside it, at the end of it for a publisher. */
  lemma HandlesInOrder(c: Config, s: Broker, t: nat)
    requires Ok(c, s) && t < |s.workers|
    ensures Unfailed(s.workers[t])
    ensures Owns(s.workers[t]) ==>
              && s.workers[t].box < |s.boxes| && s.workers[t].h in s.fs.handles
              && var x, f := s.boxes[s.workers[t].box], s.fs.handles[s.workers[t].h];
                 && x.name in s.fs.dir && s.fs.dir[x.name] == x.inode == f.inumber
                 && f.offset <= |Content(s.fs, x.inode)| <= c.blockSize
                 && (s.workers[t].Pub? ==> f.offset == |Content(s.fs, x.inode)|)
    ensures forall u :: 0 <= u < |s.workers| && u != t && Owns(s.workers[t]) && Owns(s.workers[u]) ==>
              s.workers[u].h != s.workers[t].h
  {
    assert WorkerFiles(c, s, t) && WorkerOk(s, t);
  }

  /** With no more workers than handles no open of a session fails. */
  lemma OpensNeverFail(c: Config, s: Broker, t: nat)
    requires AmpleOk(c, s) && t < |s.workers|
    ensures Opened(s.workers[t])
  {
  }

  /** box_create never leaves a file without its box for want of a handle. */
  lemma CreateTakesSlot(c: Config, s: Broker, t: nat, b: nat, name: Name, newId: nat, room: bool, s': Broker)
    requires AmpleOk(c, s) && Create(c, s, t, b, name, newId, room, s')
    ensures s'.boxes[b].taken == TAKEN <==> name in s.fs.dir || room
  {
    var (fs1, i) := MakeEmpty(s.fs, name, newId, room);
    assert DirOk(s.fs);
    if i != FAILED { CreateHasHandle(c, s, t, fs1, i); }
    CreatedFiles(s.fs, name, newId, room);
    hide ControlOk, DeliveryOk;
    assert i == FAILED <==> !(name in s.fs.dir || room);
  }

  /** Baton passing: with the remover asleep for a publisher that has left, a woken
      subscriber is on its way to its signal. Asleep for the subscribers, there are some. */
  lemma SignalNotLost(c: Config, s: Broker, r: nat)
    requires AmpleOk(c, s) && r < |s.workers| && s.workers[r].Rem?
    ensures s.workers[r].box < |s.boxes|
    ensures s.workers[r].rpc == RPubSleep && s.boxes[s.workers[r].box].nPubs == 0 ==>
              exists u :: 0 <= u < |s.workers| && s.workers[u].Sub? && s.workers[u].box == s.workers[r].box
                          && (s.workers[u].spc == SWoken || s.workers[u].spc == SRead || s.workers[u].spc == SExit)
    ensures s.workers[r].rpc == RSubSleep ==> s.boxes[s.workers[r].box].nSubs > 0
  {
    assert WorkerOk(s, r);
    var b := s.workers[r].box;
    assert BatonOk(s, b) && BoxOk(s, b);
    if SleepsForPubs(s.workers[r], b) && s.boxes[b].nPubs == 0 {
      var u :| 0 <= u < |s.workers| && OnTheWay(s.workers[u], b);
      assert s.workers[u].Sub?;
    }
  }

  /** No message is missed: a subscriber waits with something left to read only while
      the publisher is between its write and its next broadcast. */
  lemma NoMissedMessage(c: Config, s: Broker, u: nat)
    requires Ok(c, s) && u < |s.workers| && s.workers[u].Sub?
    requires (s.workers[u].spc == SWait || s.workers[u].spc == SSleep)
    ensures s.workers[u].box < |s.boxes|
    ensures var x := s.boxes[s.workers[u].box];
            Flat(s.workers[u].sent) == Content(s.fs, x.inode)
            || exists p :: 0 <= p < |s.workers| && Announces(s.workers[p], s.workers[u].box)
  {
    var w := s.workers[u];
    assert WorkerOk(s, u) && WorkerFiles(c, s, u) && WorkerGot(c, s, u);
    var x := s.boxes[w.box];
    assert SharedOk(c, s, w.box) && BoxRecorded(c, s, w.box);
    if !MissesOut(w, w.box, s.fs) {
      DeliveredPrefix(c, w.sent, x.published);
      var n, m := Position(c, |w.sent|), Position(c, |x.published|);
      assert Flat(x.published)[..n] == Flat(x.published)[..m];
    }
  }

  /** What a subscriber has been sent is a prefix of what was published to its box, cut
      at the block size: message by message, nothing missing, doubled or out of order;
      every piece but the last is a whole message, and none is empty. */
  lemma DeliveredInOrder(c: Config, s: Broker, u: nat)
    requires Ok(c, s) && u < |s.workers| && s.workers[u].Sub?
    ensures s.workers[u].box < |s.boxes|
    ensures var sent, published := s.workers[u].sent, s.boxes[s.workers[u].box].published;
            && |sent| <= |published|
            && |Flat(sent)| <= c.blockSize && Flat(sent) <= Flat(published)
            && (forall i :: 0 <= i < |sent| ==> 0 < |sent[i]| && sent[i] <= published[i])
            && (forall i :: 0 <= i < |sent| - 1 ==> sent[i] == published[i])
            && (sent != [] && sent[|sent| - 1] != published[|sent| - 1] ==> |Flat(sent)| == c.blockSize)
  {
    assert WorkerOk(s, u) && WorkerGot(c, s, u);
    var sent, published := s.workers[u].sent, s.boxes[s.workers[u].box].published;
    SentDelivered(c, s.workers[u], s.boxes[s.workers[u].box], s.fs);
    DeliveredPrefix(c, sent, published);
    WholePieces(c, sent, published);
    if sent != [] && sent[|sent| - 1] != published[|sent| - 1] { NextPosition(c, |sent| - 1); }
  }

  /** The size that managers are shown: when no publisher is about to announce a message,
      it is less than a message short of the file, and short only of a full block. */
  lemma SizeShown(c: Config, s: Broker, b: nat)
    requires Ok(c, s) && b < |s.boxes| && s.boxes[b].taken == TAKEN
    requires forall u :: 0 <= u < |s.workers| ==>
              !(s.workers[u].Pub? && s.workers[u].box == b && s.workers[u].ppc == PBcast)
    ensures var x := s.boxes[b]; var n := |Content(s.fs, x.inode)|;
            x.boxSize <= n < x.boxSize + c.msgLength && (x.boxSize == n || n == c.blockSize)
  {
    assert SharedOk(c, s, b) && BoxRecorded(c, s, b);
    SumZero(s.workers, Unannounced(c, b));
    NearlyAll(c, |s.boxes[b].published|);
    Monotone(0, |s.boxes[b].published|, c.msgLength);
  }

  lemma SentDelivered(c: Config, w: Worker, x: Box, fs: Fs)
    requires w.Sub? && Got(c, w, x, fs)
    ensures Delivered(c, w.sent, x.published)
  {
    if w.spc == SSend {
      forall i | 0 <= i < |w.sent| ensures Fit(c, i) > 0 && w.sent[i] == x.published[i][..Fit(c, i)] {
        assert (w.sent + [w.data])[i] == w.sent[i];
      }
    }
  }

  /** A slot is freed only when no session refers to it and no handle is open on its
      file, and its file goes with it. */
  lemma SafeRemoval(c: Config, s: Broker, s': Broker, b: nat)
    requires Ok(c, s) && Next(c, s, s') && b < |s.boxes| && s.boxes[b].taken == TAKEN
    ensures |s'.boxes| == |s.boxes| && |s'.workers| == |s.workers|
    ensures s'.boxes[b].taken == FREE ==> FreedSafely(s, s', b)
  {
    hide Move, Enter, Spurious, ControlOk, FilesOk, DeliveryOk;
    var t: nat :| Move(c, s, t, s') || Enter(c, s, t, s') || Spurious(s, t, s');
    if Move(c, s, t, s') {
      SafeMove(c, s, t, s', b);
    } else {
      StaysTaken(c, s, t, s', b);
    }
  }

  lemma StaysTaken(c: Config, s: Broker, t: nat, s': Broker, b: nat)
    requires Enter(c, s, t, s') || Spurious(s, t, s')
    requires b < |s.boxes| && s.boxes[b].taken == TAKEN
    ensures |s'.boxes| == |s.boxes| && |s'.workers| == |s.workers| && s'.boxes[b].taken == TAKEN
  {
  }

  /** The slot is freed by this step with nobody at it. */
  ghost predicate FreedSafely(s: Broker, s': Broker, b: nat)
    requires b < |s.boxes|
  {
    && (forall u :: 0 <= u < |s.workers| && (s.workers[u].Sub? || s.workers[u].Pub?) ==> s.workers[u].box != b)
    && (forall h :: h in s.fs.handles ==> s.fs.handles[h].inumber != s.boxes[b].inode)
    && s'.fs.dir == s.fs.dir - {s.boxes[b].name} && s'.fs.files == s.fs.files - {s.boxes[b].inode}
    && s'.fs.handles == s.fs.handles
  }

  lemma SafeMove(c: Config, s: Broker, t: nat, s': Broker, b: nat)
    requires Ok(c, s) && Move(c, s, t, s') && b < |s.boxes| && s.boxes[b].taken == TAKEN
    ensures |s'.boxes| == |s.boxes| && |s'.workers| == |s.workers|
    ensures s'.boxes[b].taken == FREE ==> FreedSafely(s, s', b)
  {
    hide ControlOk, FilesOk, DeliveryOk;
    var e, ws' :| MoveBy(c, s, t, e, ws', s');
    AwokenEach(s.workers[t := e.w], s.workers[t].box, e.wake, ws');
    hide LocalStep, Awoken;
    if s'.boxes[b].taken == FREE { FreedBy(c, s, t, e, ws', s', b); }
  }

  lemma FreedBy(c: Config, s: Broker, t: nat, e: Effect, ws': seq<Worker>, s': Broker, b: nat)
    requires Ok(c, s) && MoveBy(c, s, t, e, ws', s') && b < |s.boxes| && s.boxes[b].taken == TAKEN
    requires s'.boxes[b].taken == FREE
    ensures FreedSafely(s, s', b)
  {
    assert WorkerOk(s, t) && BoxOk(s, b);
    MoveOwn(c, s, t, e, ws', s');
    BoxMoves(c, t, s.workers[t], s.boxes[b], s.fs, e);
    RemFrees(t, s.workers[t], s.boxes[b], s.fs, e) by { assert Stored(c, s.boxes[b], s.fs); }
    hide LocalStep, Awoken, Keeps, FilesMove;
    forall u: nat | u < |s.workers| && (s.workers[u].Sub? || s.workers[u].Pub?) ensures s.workers[u].box != b {
      LastAtBox(s, t, b, u);
    }
    forall h | h in s.fs.handles ensures s.fs.handles[h].inumber != s.boxes[b].inode {
      var u :| OwnerOf(s.workers, h, u);
      Apart(c, s, t, e, ws', s', u) by { assert WorkerOk(s, u); }
      HandlesInOrder(c, s, u);
    }
  }

  lemma RemFrees(t: nat, w: Worker, x: Box, fs: Fs, e: Effect)
    requires w.Rem? && RemStep(t, w, x, fs, e) && x.taken == TAKEN && e.box.taken == FREE
    requires x.name in fs.dir && fs.dir[x.name] == x.inode
    ensures e.fs == fs.(dir := fs.dir - {x.name}, files := fs.files - {x.inode})
  {
  }

  // ---- one incarnation per session -------------------------------------------------------

  /** The box slot b still is the same box, with the same file. */
  ghost predicate SameBox(s: Broker, s': Broker, b: nat) {
    && b < |s.boxes| == |s'.boxes|
    && s'.boxes[b].taken == s.boxes[b].taken
    && s'.boxes[b].name == s.boxes[b].name && s'.boxes[b].inode == s.boxes[b].inode
    && s.boxes[b].published <= s'.boxes[b].published
  }

  lemma MoveSameBox(c: Config, s: Broker, t: nat, e: Effect, ws': seq<Worker>, s': Broker, u: nat)
    requires Ok(c, s) && MoveBy(c, s, t, e, ws', s')
    requires u < |s.workers| && HasBox(s.workers[u]) && u < |ws'| && HasBox(ws'[u])
    ensures ws'[u].box == s.workers[u].box && SameBox(s, s', s.workers[u].box)
  {
    assert WorkerOk(s, u) && WorkerOk(s, t);
    AwokenEach(s.workers[t := e.w], s.workers[t].box, e.wake, ws');
    MoveOwn(c, s, t, e, ws', s');
    MoveDeliversOwn(c, s, t, e, ws', s');
    if u != t { Apart(c, s, t, e, ws', s', u); }
    InodeStays(s.workers[t], s.boxes[s.workers[t].box], s.fs, e);
    hide LocalStep, Awoken, Ok, Keeps, Stored, Fits, FilesMove, Whole;
  }

  lemma EnterSameBox(c: Config, s: Broker, t: nat, s': Broker, u: nat)
    requires Ok(c, s) && Enter(c, s, t, s')
    requires u < |s.workers| && HasBox(s.workers[u]) && u < |s'.workers| && HasBox(s'.workers[u])
    ensures s'.workers[u] == s.workers[u] && SameBox(s, s', s.workers[u].box)
  {
    assert WorkerOk(s, u);
    hide FilesOk, DeliveryOk;
  }

  /** From registration to exit, a session's slot holds the box it registered with. */
  lemma NextSameBox(c: Config, s: Broker, s': Broker, u: nat)
    requires Ok(c, s) && Next(c, s, s')
    requires u < |s.workers| && HasBox(s.workers[u]) && u < |s'.workers| && HasBox(s'.workers[u])
    ensures s'.workers[u].box == s.workers[u].box && SameBox(s, s', s.workers[u].box)
  {
    var t: nat :| Move(c, s, t, s') || Enter(c, s, t, s') || Spurious(s, t, s');
    hide Enter, LocalStep, Awoken;
    if Move(c, s, t, s') {
      var e, ws' :| MoveBy(c, s, t, e, ws', s');
      MoveSameBox(c, s, t, e, ws', s', u);
    } else if Enter(c, s, t, s') {
      EnterSameBox(c, s, t, s', u);
    } else {
      assert WorkerOk(s, u);
    }
  }

  predicate InSession(s: Broker, u: nat) {
    u < |s.workers| && HasBox(s.workers[u])
  }

  predicate At(s: Broker, u: nat, b: nat) {
    InSession(s, u) && s.workers[u].box == b
  }

  lemma {:induction false} SessionSameBox(c: Config, states: seq<Broker>, i: nat, j: nat, u: nat, b: nat)
    requires IsRun(c, states) && c.msgLength > 0
    requires i <= j < |states| && At(states[i], u, b)
    requires forall k :: i <= k <= j ==> InSession(states[k], u)
    ensures At(states[j], u, b) && SameBox(states[i], states[j], b)
  {
    hide Ok, Next;
    RunOk(c, states, i);
    if i == j {
      InRange(c, states[i], u);
    } else {
      SessionSameBox(c, states, i, j - 1, u, b);
      RunOk(c, states, j - 1);
      assert Next(c, states[j - 1], states[j]);
      assert InSession(states[j], u);
      NextSameBox(c, states[j - 1], states[j], u);
    }
  }

  lemma InRange(c: Config, s: Broker, u: nat)
    requires Ok(c, s) && u < |s.workers| && HasBox(s.workers[u])
    ensures s.workers[u].box < |s.boxes|
  {
    assert WorkerOk(s, u);
  }

  // ---- removal ends -----------------------------------------------------------------------

  /** A step of a worker at box b. */
  ghost predicate StepAt(c: Config, s: Broker, b: nat, s': Broker) {
    exists t: nat :: t < |s.workers| && HasBox(s.workers[t]) && s.workers[t].box == b && Move(c, s, t, s')
  }

  /** A step without a spurious wakeup. */
  ghost predicate Quiet(c: Config, s: Broker, s': Broker) {
    exists t: nat :: Move(c, s, t, s') || Enter(c, s, t, s')
  }

  ghost predicate QuietRun(c: Config, states: seq<Broker>) {
    |states| > 0 && forall k :: 0 < k < |states| ==> Quiet(c, states[k - 1], states[k])
  }

  ghost function StepsOf(c: Config, b: nat, states: seq<Broker>): nat
    requires |states| > 0
  {
    if |states| == 1 then 0
    else StepsOf(c, b, states[..|states| - 1])
         + if StepAt(c, states[|states| - 2], b, states[|states| - 1]) then 1 else 0
  }

  lemma QuietLowers(c: Config, s: Broker, s': Broker, b: nat)
    requires Ok(c, s) && Quiet(c, s, s') && Closing(s, b)
    ensures b < |s'.boxes|
    ensures s'.boxes[b].taken == TAKEN ==>
              Closing(s', b) && Measure(s', b) + (if StepAt(c, s, b, s') then 1 else 0) <= Measure(s, b)
  {
    assert BoxOk(s, b);
    hide Enter, LocalStep, Awoken, Measure;
    if StepAt(c, s, b, s') {
      var t: nat :| t < |s.workers| && HasBox(s.workers[t]) && s.workers[t].box == b && Move(c, s, t, s');
      var e, ws' :| MoveBy(c, s, t, e, ws', s');
      MoveLowers(c, s, t, e, ws', s', b);
    } else {
      var t: nat :| Move(c, s, t, s') || Enter(c, s, t, s');
      if Move(c, s, t, s') {
        var e, ws' :| MoveBy(c, s, t, e, ws', s');
        OtherMoveKeeps(c, s, t, e, ws', s', b);
      } else {
        NobodyEnters(c, s, t, s');
      }
    }
  }

  /** Nobody enters while a remover has the table lock. */
  lemma NobodyEnters(c: Config, s: Broker, t: nat, s': Broker)
    requires Enter(c, s, t, s')
    ensures s.table == NOBODY
  {
  }

  lemma QuietOk(c: Config, s: Broker, s': Broker)
    requires Ok(c, s) && Quiet(c, s, s')
    ensures Ok(c, s')
  {
    hide Move, Enter, Ok;
    var t: nat :| Move(c, s, t, s') || Enter(c, s, t, s');
    assert Next(c, s, s');
    NextOk(c, s, s');
  }

  /** However the broker goes on without spurious wakeups, as long as a closed box's slot is
      not free, the steps of its remover and sessions are bounded by the measure at the
      start. */
  lemma {:induction false} RemovalBounded(c: Config, states: seq<Broker>, b: nat)
    requires QuietRun(c, states) && Ok(c, states[0]) && Closing(states[0], b)
    requires forall k :: 0 <= k < |states| ==> b < |states[k].boxes| && states[k].boxes[b].taken == TAKEN
    ensures Ok(c, states[|states| - 1]) && Closing(states[|states| - 1], b)
    ensures StepsOf(c, b, states) + Measure(states[|states| - 1], b) <= Measure(states[0], b)
  {
    var n := |states| - 1;
    hide Quiet, Measure, StepAt;
    if n > 0 {
      RemovalBounded(c, states[..n], b);
      assert Quiet(c, states[n - 1], states[n]);
      hide Ok;
      QuietLowers(c, states[n - 1], states[n], b);
      QuietOk(c, states[n - 1], states[n]);
    }
  }

  lemma QuietAmple(c: Config, s: Broker, s': Broker)
    requires AmpleOk(c, s) && Quiet(c, s, s')
    ensures AmpleOk(c, s')
  {
    hide Move, Enter, AmpleOk;
    var t: nat :| Move(c, s, t, s') || Enter(c, s, t, s');
    assert Next(c, s, s');
    NextAmple(c, s, s');
  }

  lemma {:induction false} QuietRunAmple(c: Config, states: seq<Broker>, k: nat)
    requires QuietRun(c, states) && AmpleOk(c, states[0]) && k < |states|
    ensures AmpleOk(c, states[k])
  {
    hide Quiet, AmpleOk;
    if k > 0 {
      QuietRunAmple(c, states, k - 1);
      assert Quiet(c, states[k - 1], states[k]);
      QuietAmple(c, states[k - 1], states[k]);
    }
  }

  /** Removal ends: with no more workers than handles, besides, until the slot is free one of
      them can step. */
  lemma RemovalEnds(c: Config, states: seq<Broker>, b: nat)
    requires QuietRun(c, states) && AmpleOk(c, states[0]) && Closing(states[0], b)
    requires forall k :: 0 <= k < |states| ==> b < |states[k].boxes| && states[k].boxes[b].taken == TAKEN
    ensures AmpleOk(c, states[|states| - 1]) && Closing(states[|states| - 1], b)
    ensures StepsOf(c, b, states) + Measure(states[|states| - 1], b) <= Measure(states[0], b)
    ensures CanProceed(c, states[|states| - 1], b)
  {
    QuietRunAmple(c, states, |states| - 1);
    RemovalBounded(c, states, b);
    hide Measure, CanProceed, AmpleOk, StepsOf, QuietRun;
    CanGoOn(c, states[|states| - 1], b);
  }

  lemma CanGoOn(c: Config, s: Broker, b: nat)
    requires AmpleOk(c, s) && Closing(s, b)
    ensures CanProceed(c, s, b)
  {
    assert BatonOk(s, b);
    NeverStuck(c, s, b);
  }
}

/** Whether the code that box_remove writes is heard: whether the box's publisher, as often as
    it still reads its client's FIFO, finds a code there. Then removal ends, and otherwise it
    waits for the client. */
module BrokerHearing {
  import opened Counting
  import opened TfsTypes
  import opened BrokerFs
  import opened BrokerSystem
  import opened BrokerControl
  import opened BrokerFiles
  import opened BrokerBaton
  import opened BrokerRemoval
  import opened BrokerRuns
  import opened BrokerPipes

  /** The remover is past its write, and the box's publisher reads a FIFO without a code. */
  ghost predicate Deaf(x: Piped, b: nat) {
    && Closing(x.s, b) && x.poke == NoPoke && |x.ends| == |x.s.workers|
    && exists p: nat :: PublishesTo(x.s, b, p) && Reads(x.s.workers[p]) && x.ends[p].fifo !in x.codes
  }

  predicate Room(c: Config, fs: Fs, i: int) {
    |Content(fs, i)| + c.msgLength <= c.blockSize
  }

  /** The box's file has room for a message. */
  predicate HasRoom(c: Config, s: Broker, b: nat)
    requires b < |s.boxes|
  {
    Room(c, s.fs, s.boxes[b].inode)
  }

  /** The publisher of a closed box may read again before it ends: it is not yet past its last
      read, nor about to fail in its write. */
  predicate ReadsAgain(w: Worker, room: bool) {
    w.Pub? && match w.ppc
              case POpen => true
              case PTop => true
              case PMsg => true
              case PBcast => true
              case PWrite => room
              case PCheck => false
              case POpenFail => false
              case PBreak => false
              case PLeave => false
  }

  /** The publisher of an open box may read again. */
  predicate MayTake(w: Worker, room: bool) {
    ReadsAgain(w, room) || (w.Pub? && w.ppc == PCheck && w.ev == Publish)
  }

  /** Another session reads this publisher's FIFO, and may read again. */
  predicate Rival(c: Config, x: Piped, p: nat, q: nat)
    requires p < |x.ends|
  {
    && q < |x.ends| && q < |x.s.workers| && q != p && x.ends[q].fifo == x.ends[p].fifo
    && x.s.workers[q].Pub? && x.s.workers[q].box < |x.s.boxes|
    && MayTake(x.s.workers[q], HasRoom(c, x.s, x.s.workers[q].box))
  }

  /** If it may read again, a code is in its FIFO, nobody else may read there, and it is not at the
      read of a message that the file has room for, which may take the code for a part of it. */
  ghost predicate Assured(c: Config, x: Piped, b: nat, p: nat)
    requires b < |x.s.boxes| && p < |x.s.workers| && p < |x.ends|
  {
    ReadsAgain(x.s.workers[p], HasRoom(c, x.s, b)) ==>
      && x.ends[p].fifo in x.codes && (forall q: nat :: !Rival(c, x, p, q))
      && (x.s.workers[p].Pub? && x.s.workers[p].ppc == PMsg ==> !HasRoom(c, x.s, b))
  }

  /** The remover's code is heard. */
  ghost predicate Heard(c: Config, x: Piped, b: nat) {
    && Closing(x.s, b) && x.poke == NoPoke && |x.ends| == |x.s.workers|
    && forall p: nat :: PublishesTo(x.s, b, p) ==> Assured(c, x, b, p)
  }

  lemma HeardNotDeaf(c: Config, x: Piped, b: nat)
    requires Heard(c, x, b)
    ensures !Deaf(x, b)
  {
  }

  // ---- one step -----------------------------------------------------------------------------

  /** The publisher's own step at its closed box. */
  lemma OwnReads(c: Config, t: nat, w: Worker, x: Box, fs: Fs, e: Effect)
    requires w.Pub? && Keeps(c, w, x, fs) && Stored(c, x, fs) && PubStep(c, t, w, x, fs, e)
    requires x.taken == TAKEN && x.closed && e.w.Pub?
    ensures ReadsAgain(e.w, Room(c, e.fs, x.inode)) ==> ReadsAgain(w, Room(c, fs, x.inode))
    ensures w.ppc == PTop ==> !ReadsAgain(e.w, Room(c, e.fs, x.inode))
    ensures w.ppc == PMsg && !Room(c, fs, x.inode) ==> !ReadsAgain(e.w, Room(c, e.fs, x.inode))
    ensures e.w.ppc != PMsg
    ensures Closes(w, e.w) ==> !ReadsAgain(e.w, Room(c, e.fs, x.inode))
  {
    if w.ppc == PWrite { PubWriteFiles(c, t, w, x, fs, e); }
  }

  /** Another publisher's own step. */
  lemma OwnTakes(c: Config, t: nat, w: Worker, x: Box, fs: Fs, e: Effect)
    requires w.Pub? && Keeps(c, w, x, fs) && Stored(c, x, fs) && PubStep(c, t, w, x, fs, e)
    requires x.taken == TAKEN && e.w.Pub?
    ensures MayTake(e.w, Room(c, e.fs, x.inode)) ==> MayTake(w, Room(c, fs, x.inode))
  {
    if w.ppc == PWrite { PubWriteFiles(c, t, w, x, fs, e); }
  }

  /** Files do not shrink while their boxes are there. */
  lemma RoomShrinks(c: Config, s: Broker, t: nat, e: Effect, ws': seq<Worker>, s': Broker, b: nat)
    requires Ok(c, s) && MoveBy(c, s, t, e, ws', s') && b < |s.boxes| == |s'.boxes|
    requires s.boxes[b].taken == TAKEN && s'.boxes[b].taken == TAKEN
    ensures s'.boxes[b].inode == s.boxes[b].inode && (HasRoom(c, s', b) ==> HasRoom(c, s, b))
  {
    MoveOwn(c, s, t, e, ws', s');
    assert WorkerOk(s, t);
    assert Stored(c, s.boxes[b], s.fs) && Stored(c, s.boxes[s.workers[t].box], s.fs);
    hide LocalStep, Awoken, ControlOk, Keeps;
    if s.workers[t].box != b { assert s.boxes[b].inode != s.boxes[s.workers[t].box].inode; }
  }

  /** Nobody becomes a publisher, and nobody but itself moves one. */
  lemma PublisherStays(c: Config, s: Broker, t: nat, e: Effect, ws': seq<Worker>, s': Broker, p: nat)
    requires Ok(c, s) && MoveBy(c, s, t, e, ws', s') && p < |s'.workers| && s'.workers[p].Pub?
    ensures p < |s.workers| && s.workers[p].Pub? && s'.workers[p].box == s.workers[p].box
    ensures s'.workers[p] == if p == t then e.w else s.workers[p]
  {
    AwokenEach(s.workers[t := e.w], s.workers[t].box, e.wake, ws');
    MoveOwn(c, s, t, e, ws', s');
    assert WorkerOk(s, t) && BoxOk(s, s.workers[t].box);
    OwnFits(c, t, s.workers[t], s.boxes[s.workers[t].box], s.fs, e);
    hide LocalStep, Awoken, Ok, FilesMove, Keeps, Stored, Fits;
  }

  /** A closed box that stays taken stays closed, and its remover stays. */
  lemma StaysClosing(c: Config, s: Broker, t: nat, e: Effect, ws': seq<Worker>, s': Broker, b: nat)
    requires Ok(c, s) && MoveBy(c, s, t, e, ws', s') && Closing(s, b)
    ensures b < |s'.boxes| == |s.boxes|
    ensures s'.boxes[b].taken == TAKEN ==> Closing(s', b) && s'.table == s.table && !Pokes(s, t)
  {
    assert BoxOk(s, b) && WorkerOk(s, t);
    BoxMoves(c, t, s.workers[t], s.boxes[s.workers[t].box], s.fs, e) by { MoveOwn(c, s, t, e, ws', s'); }
    hide LocalStep, Awoken, FilesOk;
  }

  /** Nobody becomes a rival. */
  lemma RivalsStay(c: Config, x: Piped, t: nat, n: nat, x': Piped, e: Effect, ws': seq<Worker>, p: nat, q: nat)
    requires Ok(c, x.s) && PipesOk(x) && PipedMove(c, x, t, n, x') && MoveBy(c, x.s, t, e, ws', x'.s)
    requires p < |x.ends| && x.ends[p].fifo != CLOSED && x'.ends[p].fifo == x.ends[p].fifo && Rival(c, x', p, q)
    ensures Rival(c, x, p, q)
  {
    PublisherStays(c, x.s, t, e, ws', x'.s, q);
    TakenStays(c, x.s, t, e, ws', x'.s, q);
    RoomShrinks(c, x.s, t, e, ws', x'.s, x.s.workers[q].box);
    if q == t {
      assert WorkerFiles(c, x.s, q);
      assert Stored(c, x.s.boxes[x.s.workers[q].box], x.s.fs);
      OwnTakes(c, q, x.s.workers[q], x.s.boxes[x.s.workers[q].box], x.s.fs, e);
    }
    hide LocalStep, Awoken, Ok, Keeps, Stored, Room, Move, PipesOk;
  }

  /** The box of a publisher is there. */
  lemma TakenStays(c: Config, s: Broker, t: nat, e: Effect, ws': seq<Worker>, s': Broker, q: nat)
    requires Ok(c, s) && MoveBy(c, s, t, e, ws', s') && q < |s.workers| && q < |s'.workers|
    requires s.workers[q].Pub? && s'.workers[q].Pub? && s'.workers[q].box == s.workers[q].box
    ensures s.workers[q].box < |s.boxes| == |s'.boxes|
    ensures s.boxes[s.workers[q].box].taken == TAKEN && s'.boxes[s.workers[q].box].taken == TAKEN
  {
    MoveOk(c, s, t, s') by { assert Move(c, s, t, s'); }
    assert WorkerOk(s, q) && WorkerOk(s', q);
    hide LocalStep, Awoken, Ok;
  }

  /** A publisher at the closed box that has not moved. */
  lemma OtherAssured(c: Config, x: Piped, b: nat, t: nat, n: nat, x': Piped, p: nat, e: Effect, ws': seq<Worker>)
    requires Ok(c, x.s) && PipesOk(x) && PipedMove(c, x, t, n, x') && MoveBy(c, x.s, t, e, ws', x'.s)
    requires PublishesTo(x.s, b, p) && p != t && b < |x.s.boxes| && Assured(c, x, b, p)
    requires |x'.s.workers| == |x.s.workers| && x'.s.workers[p] == x.s.workers[p]
    requires b < |x'.s.boxes| && (HasRoom(c, x'.s, b) ==> HasRoom(c, x.s, b))
    ensures Assured(c, x', b, p)
  {
    assert PlaceOk(x.s.workers[p], x.ends[p], x.names);
    if ReadsAgain(x'.s.workers[p], HasRoom(c, x'.s, b)) {
      if n > 0 && x.ends[t].fifo == x.ends[p].fifo { ReadersRival(c, x, p, t); }
      forall q: nat ensures !Rival(c, x', p, q) {
        if Rival(c, x', p, q) { RivalsStay(c, x, t, n, x', e, ws', p, q); }
      }
      hide Move, HasRoom, Ok, PipesOk, LocalStep, Awoken, Rival;
    }
  }

  lemma ReadersRival(c: Config, x: Piped, p: nat, t: nat)
    requires Ok(c, x.s) && p < |x.ends| == |x.s.workers| && t < |x.ends| && t != p
    requires x.ends[t].fifo == x.ends[p].fifo && Reads(x.s.workers[t])
    ensures Rival(c, x, p, t)
  {
    assert WorkerOk(x.s, t);
  }

  lemma OwnAssured(c: Config, x: Piped, b: nat, n: nat, x': Piped, p: nat, e: Effect, ws': seq<Worker>)
    requires Ok(c, x.s) && PipesOk(x) && PipedMove(c, x, p, n, x') && MoveBy(c, x.s, p, e, ws', x'.s)
    requires PublishesTo(x.s, b, p) && Closing(x.s, b) && Assured(c, x, b, p)
    requires |x'.s.workers| == |x.s.workers| && x'.s.workers[p] == e.w && e.w.Pub? && b < |x'.s.boxes|
    requires x'.s.boxes[b].inode == x.s.boxes[b].inode
    ensures Assured(c, x', b, p)
  {
    assert WorkerFiles(c, x.s, p);
    assert Stored(c, x.s.boxes[b], x.s.fs);
    OwnReads(c, p, x.s.workers[p], x.s.boxes[b], x.s.fs, e);
    assert PlaceOk(x.s.workers[p], x.ends[p], x.names);
    hide PubStep, Awoken, Keeps, Stored, Room, Move;
    if ReadsAgain(e.w, HasRoom(c, x'.s, b)) {
      forall q: nat ensures !Rival(c, x', p, q) {
        if Rival(c, x', p, q) { RivalsStay(c, x, p, n, x', e, ws', p, q); }
      }
    }
    hide Ok, PipesOk, Rival;
  }

  lemma MoveHeard(c: Config, x: Piped, b: nat, t: nat, n: nat, x': Piped)
    requires Ok(c, x.s) && PipesOk(x) && Heard(c, x, b) && PipedMove(c, x, t, n, x')
    requires b < |x'.s.boxes| && x'.s.boxes[b].taken == TAKEN
    ensures Heard(c, x', b)
  {
    var e, ws' :| MoveBy(c, x.s, t, e, ws', x'.s);
    StaysClosing(c, x.s, t, e, ws', x'.s, b);
    RoomShrinks(c, x.s, t, e, ws', x'.s, b);
    assert |ws'| == |x.s.workers|;
    hide LocalStep, Awoken, Ok, PipesOk, Assured, HasRoom, Move;
    forall p: nat | PublishesTo(x'.s, b, p) ensures Assured(c, x', b, p) {
      PublisherStays(c, x.s, t, e, ws', x'.s, p);
      if p == t { OwnAssured(c, x, b, n, x', p, e, ws'); } else { OtherAssured(c, x, b, t, n, x', p, e, ws'); }
    }
  }

  /** Steps that leave publishers, codes and boxes alone. */
  lemma SameHeard(c: Config, x: Piped, b: nat, x': Piped)
    requires Heard(c, x, b) && x'.s.boxes == x.s.boxes && x'.s.fs == x.s.fs && x'.poke == x.poke
    requires |x'.s.workers| == |x.s.workers| == |x'.ends|
    requires forall q :: 0 <= q < |x.s.workers| ==> x'.s.workers[q].Pub? == x.s.workers[q].Pub?
    requires forall q :: 0 <= q < |x.s.workers| && x.s.workers[q].Pub? ==>
               x'.s.workers[q] == x.s.workers[q] && x'.ends[q].fifo == x.ends[q].fifo
               && x'.codes[x.ends[q].fifo] == x.codes[x.ends[q].fifo]
    ensures Heard(c, x', b)
  {
    forall p: nat | PublishesTo(x'.s, b, p) ensures Assured(c, x', b, p) {
      assert PublishesTo(x.s, b, p) && Assured(c, x, b, p);
      assert forall q: nat :: Rival(c, x', p, q) ==> Rival(c, x, p, q);
    }
  }

  lemma ClientHeard(c: Config, x: Piped, b: nat, x': Piped)
    requires Heard(c, x, b) && ClientStep(x, x')
    ensures Heard(c, x', b)
  {
    forall q | 0 <= q < |x.s.workers| && x.s.workers[q].Pub?
      ensures x'.codes[x.ends[q].fifo] == x.codes[x.ends[q].fifo]
    {
      if f :| Drains(x, f, x') { assert x.ends[q].fifo != f; }
    }
    hide Heard;
    SameHeard(c, x, b, x');
  }

  /** While a box is closed its remover has the table lock, and nobody enters. */
  lemma NobodyEntersAt(c: Config, x: Piped, b: nat, t: nat, x': Piped)
    requires Ok(c, x.s) && PipedEnter(c, x, t, x')
    ensures !Closing(x.s, b)
  {
    if b < |x.s.boxes| { assert BoxOk(x.s, b); }
    EntersUnderneath(c, x, t, x');
    NobodyEnters(c, x.s, t, x'.s);
  }

  /** Once it is heard, the code stays heard, whatever sessions and clients do. */
  lemma NextHeard(c: Config, x: Piped, b: nat, x': Piped)
    requires Ok(c, x.s) && PipesOk(x) && Heard(c, x, b) && PipedNext(c, x, x')
    requires b < |x'.s.boxes| && x'.s.boxes[b].taken == TAKEN
    ensures Heard(c, x', b)
  {
    hide Ok, PipesOk, PipedMove, PipedEnter, ClientStep;
    if ClientStep(x, x') {
      ClientHeard(c, x, b, x');
    } else if t: nat :| PipedSpurious(x, t, x') {
      SameHeard(c, x, b, x');
    } else {
      var t: nat :| WorkerStep(c, x, t, x');
      if n :| PipedMove(c, x, t, n, x') {
        MoveHeard(c, x, b, t, n, x');
      } else if PipedEnter(c, x, t, x') {
        NobodyEntersAt(c, x, b, t, x');
      } else {
        SameHeard(c, x, b, x');
      }
    }
  }

  // ---- a code that is not heard --------------------------------------------------------------

  /** The box's publisher reads something that its client has written, or the end of the input. */
  ghost predicate ClientSpeaks(c: Config, x: Piped, b: nat, x': Piped) {
    exists p: nat :: PublishesTo(x.s, b, p) && Reads(x.s.workers[p]) && PipedMove(c, x, p, 0, x')
  }

  /** The remover waits for the publisher. */
  predicate WaitsForPub(s: Broker, b: nat) {
    && 0 <= s.table < |s.workers| && s.workers[s.table].Rem? && s.workers[s.table].box == b
    && var pc := s.workers[s.table].rpc; pc == RPubTest || pc == RPubSleep || pc == RPubWoken
  }

  lemma DeafWaits(c: Config, x: Piped, b: nat)
    requires Ok(c, x.s) && Deaf(x, b)
    ensures WaitsForPub(x.s, b)
  {
    var p: nat :| PublishesTo(x.s, b, p);
    assert BoxOk(x.s, b) && WorkerOk(x.s, x.s.table);
    CountMember(x.s.workers, p, PubsOf(b));
  }

  lemma MoveDeaf(c: Config, x: Piped, b: nat, t: nat, n: nat, x': Piped)
    requires Ok(c, x.s) && Deaf(x, b) && PipedMove(c, x, t, n, x') && !ClientSpeaks(c, x, b, x')
    ensures Deaf(x', b) && x'.s.table == x.s.table
  {
    var p: nat :| PublishesTo(x.s, b, p) && Reads(x.s.workers[p]) && x.ends[p].fifo !in x.codes;
    assert t != p;
    var e, ws' :| MoveBy(c, x.s, t, e, ws', x'.s);
    OtherStays(c, x.s, t, e, ws', x'.s, b, p);
    hide LocalStep, Awoken, Ok, Move, MoveBy;
  }

  /** While its publisher is there, a closed box stays. */
  lemma OtherStays(c: Config, s: Broker, t: nat, e: Effect, ws': seq<Worker>, s': Broker, b: nat, p: nat)
    requires Ok(c, s) && MoveBy(c, s, t, e, ws', s') && Closing(s, b) && PublishesTo(s, b, p) && t != p
    ensures Closing(s', b) && s'.table == s.table && !Pokes(s, t)
    ensures PublishesTo(s', b, p) && |s'.workers| == |s.workers| && s'.workers[p] == s.workers[p]
  {
    StaysClosing(c, s, t, e, ws', s', b);
    AwokenEach(s.workers[t := e.w], s.workers[t].box, e.wake, ws');
    Apart(c, s, t, e, ws', s', p);
    hide LocalStep, Awoken, Ok;
  }

  lemma SameDeaf(x: Piped, b: nat, x': Piped)
    requires Deaf(x, b) && x'.s.boxes == x.s.boxes && x'.poke == x.poke
    requires |x'.s.workers| == |x.s.workers| == |x'.ends|
    requires forall q :: 0 <= q < |x.s.workers| && x.s.workers[q].Pub? ==>
               x'.s.workers[q] == x.s.workers[q] && x'.ends[q].fifo == x.ends[q].fifo
               && x'.codes[x.ends[q].fifo] <= x.codes[x.ends[q].fifo]
    ensures Deaf(x', b)
  {
    var p: nat :| PublishesTo(x.s, b, p) && Reads(x.s.workers[p]) && x.ends[p].fifo !in x.codes;
    assert PublishesTo(x'.s, b, p) && Reads(x'.s.workers[p]) && x'.ends[p].fifo !in x'.codes;
  }

  lemma NextDeaf(c: Config, x: Piped, b: nat, x': Piped)
    requires Ok(c, x.s) && Deaf(x, b) && PipedNext(c, x, x') && !ClientSpeaks(c, x, b, x')
    ensures Deaf(x', b) && x'.s.table == x.s.table
  {
    hide Ok, PipedMove, PipedEnter;
    if ClientStep(x, x') {
      SameDeaf(x, b, x');
    } else if t: nat :| PipedSpurious(x, t, x') {
      SameDeaf(x, b, x');
    } else {
      var t: nat :| WorkerStep(c, x, t, x');
      if n :| PipedMove(c, x, t, n, x') {
        MoveDeaf(c, x, b, t, n, x');
      } else if PipedEnter(c, x, t, x') {
        NobodyEntersAt(c, x, b, t, x');
      } else {
        SameDeaf(x, b, x');
      }
    }
  }

  /** A publisher that reads without a code: as long as its client neither writes nor hangs up,
      the remover gets no further, keeps the table lock, and the box stays. */
  lemma {:induction false} DeafLasts(c: Config, states: seq<Piped>, b: nat)
    requires |states| > 0 && Ok(c, states[0].s) && PipesOk(states[0]) && Deaf(states[0], b)
    requires forall k :: 0 < k < |states| ==>
               PipedNext(c, states[k - 1], states[k]) && !ClientSpeaks(c, states[k - 1], b, states[k])
    ensures var x := states[|states| - 1];
            && Ok(c, x.s) && PipesOk(x) && Deaf(x, b)
            && WaitsForPub(x.s, b) && x.s.table == states[0].s.table
  {
    hide Ok, PipesOk, PipedNext, Deaf, ClientSpeaks, AmpleOk;
    var n := |states| - 1;
    if n > 0 {
      DeafLasts(c, states[..n], b);
      assert PipedNext(c, states[n - 1], states[n]);
      NextPipedOk(c, states[n - 1], states[n]);
      NextDeaf(c, states[n - 1], b, states[n]);
    }
    DeafWaits(c, states[n], b);
  }

  // ---- somebody can step -------------------------------------------------------------------

  /** The remover's write ends the process: no FIFO was found, or its last reader has gone. */
  ghost predicate Aborts(x: Piped) {
    (x.poke == Looking && !Finds(x)) || (x.poke.Writing? && !Read(x, x.poke.fifo))
  }

  /** The remover's open waits for a reader. */
  ghost predicate Blocks(x: Piped) {
    x.poke.Waiting? && !Read(x, x.poke.fifo)
  }

  /** A step of a worker at the box that needs nothing from a client: who reads, reads a code. */
  ghost predicate MovesAlone(c: Config, x: Piped, b: nat, t: nat, n: nat, x': Piped) {
    && t < |x.s.workers| && HasBox(x.s.workers[t]) && x.s.workers[t].box == b
    && (Reads(x.s.workers[t]) ==> n > 0)
    && PipedMove(c, x, t, n, x')
  }

  ghost predicate CopiesAt(x: Piped, b: nat, t: nat, x': Piped) {
    t < |x.s.workers| && HasBox(x.s.workers[t]) && x.s.workers[t].box == b && Copies(x, t, x')
  }

  /** A step of the removal of box b that no client has to ask for. */
  ghost predicate RemovalStep(c: Config, x: Piped, b: nat, x': Piped) {
    || PokeStep(x, x')
    || (exists t: nat :: CopiesAt(x, b, t, x')) || exists t: nat, n: nat :: MovesAlone(c, x, b, t, n, x')
  }

  /** A step of the broker with its pipes, from a step of the broker. */
  lemma Steps(c: Config, x: Piped, t: nat, n: nat, e: Effect) returns (x': Piped)
    requires t < |x.s.workers| == |x.ends| && HasBox(x.s.workers[t]) && x.s.workers[t].box < |x.s.boxes|
    requires LocalStep(c, t, x.s.workers[t], x.s.boxes[x.s.workers[t].box], x.s.fs, e)
    requires Allows(x, t) && Takes(x, t, e.w, n) && (e.wake == None || !SleepsOn(e.w, x.s.workers[t].box))
    ensures PipedMove(c, x, t, n, x')
    ensures |x'.s.workers| == |x.s.workers| && x'.s.workers[t] == e.w
    ensures x'.s.fs == e.fs && x'.s.boxes == x.s.boxes[x.s.workers[t].box := e.box]
    ensures e.wake == None ==> x'.s.workers == x.s.workers[t := e.w]
    ensures forall u: nat :: u < |x.s.workers| && u != t && !SleepsOn(x.s.workers[u], x.s.workers[t].box) ==>
              x'.s.workers[u] == x.s.workers[u]
    ensures !x.s.workers[t].Rem? || !e.w.Idle? ==> x'.s.table == x.s.table
  {
    var b := x.s.workers[t].box;
    var ws' := AwokenExists(x.s.workers[t := e.w], b, e.wake);
    AwokenEach(x.s.workers[t := e.w], b, e.wake, ws');
    hide LocalStep, Awoken;
    var s' := Applied(x.s, t, e, ws');
    assert MoveBy(c, x.s, t, e, ws', s');
    assert Move(c, x.s, t, s');
    x' := x.(s := s',
             ends := if Closes(x.s.workers[t], e.w) then x.ends[t := x.ends[t].(fifo := CLOSED)] else x.ends,
             poke := if Pokes(x.s, t) then Looking else x.poke,
             codes := Without(x.codes, x.ends[t].fifo, n));
  }

  /** The codes that the step of a reader takes. */
  function Taken(w: Worker): nat {
    if Reads(w) then 1 else 0
  }

  lemma MovesOn(c: Config, x: Piped, b: nat)
    requires AmpleOk(c, x.s) && PipesOk(x) && Closing(x.s, b) && x.poke == NoPoke && !Deaf(x, b)
    ensures exists x' :: RemovalStep(c, x, b, x')
  {
    assert BatonOk(x.s, b);
    var t := WhoIsNext(c, x.s, b);
    var e := NextCan(c, x.s, t, b);
    var w := x.s.workers[t];
    if Allows(x, t) {
      assert Reads(w) ==> PublishesTo(x.s, b, t);
      assert !SleepsOn(e.w, b) || e.wake == None by { WakesOthers(c, t, w, x.s.boxes[b], x.s.fs, e); }
      hide AmpleOk, LocalStep, PipedMove;
      var x' := Steps(c, x, t, Taken(w), e);
      assert MovesAlone(c, x, b, t, Taken(w), x');
      assert RemovalStep(c, x, b, x');
    } else {
      hide AmpleOk, LocalStep;
      var x' := x.(names := x.names[b := x.ends[t].path], ends := x.ends[t := x.ends[t].(copied := true)]);
      assert Copies(x, t, x');
      assert CopiesAt(x, b, t, x');
      assert RemovalStep(c, x, b, x');
    }
  }

  lemma WakesOthers(c: Config, t: nat, w: Worker, x: Box, fs: Fs, e: Effect)
    requires HasBox(w) && LocalStep(c, t, w, x, fs, e)
    ensures e.wake == None || !SleepsOn(e.w, w.box)
  {
  }

  /** With no more workers than handles, a closed box's removal can go on, with its pipes and
      without a client, unless the remover's write ends the process, its open waits, or the
      publisher reads without a code. */
  lemma RemovalGoesOn(c: Config, x: Piped, b: nat)
    requires AmpleOk(c, x.s) && PipesOk(x) && Closing(x.s, b) && !Aborts(x) && !Blocks(x) && !Deaf(x, b)
    ensures exists x' :: RemovalStep(c, x, b, x')
  {
    match x.poke
    case Looking => assert RemovalStep(c, x, b, x.(poke := Waiting(x.fifos[x.names[PokedBox(x)]])));
    case Waiting(f) => assert RemovalStep(c, x, b, x.(poke := Writing(f)));
    case Writing(f) => assert RemovalStep(c, x, b, x.(poke := NoPoke, codes := x.codes + multiset{f}));
    case NoPoke => MovesOn(c, x, b);
  }

  // ---- removal ends ------------------------------------------------------------------------

  function PokeRank(poke: Poke): nat {
    match poke
    case Looking => 3
    case Waiting(_) => 2
    case Writing(_) => 1
    case NoPoke => 0
  }

  /** The box's publisher has not copied its path. */
  ghost predicate Uncopied(x: Piped, b: nat) {
    exists p: nat :: p < |x.ends| && PublishesTo(x.s, b, p) && !x.ends[p].copied
  }

  ghost function PipedMeasure(x: Piped, b: nat): nat {
    Measure(x.s, b) + PokeRank(x.poke) + if Uncopied(x, b) then 1 else 0
  }

  ghost predicate MovesAt(c: Config, x: Piped, b: nat, t: nat, x': Piped) {
    && t < |x.s.workers| && HasBox(x.s.workers[t]) && x.s.workers[t].box == b
    && exists n :: PipedMove(c, x, t, n, x')
  }

  /** A step of the removal of box b, with or without a client. */
  ghost predicate PipedStepAt(c: Config, x: Piped, b: nat, x': Piped) {
    PokeStep(x, x') || (exists t: nat :: CopiesAt(x, b, t, x')) || exists t: nat :: MovesAt(c, x, b, t, x')
  }

  lemma MoveKeepsUncopied(c: Config, x: Piped, b: nat, t: nat, n: nat, e: Effect, ws': seq<Worker>, x': Piped)
    requires Ok(c, x.s) && PipesOk(x) && PipedMove(c, x, t, n, x') && MoveBy(c, x.s, t, e, ws', x'.s)
    requires Uncopied(x', b)
    ensures Uncopied(x, b)
  {
    var p: nat :| p < |x'.ends| && PublishesTo(x'.s, b, p) && !x'.ends[p].copied;
    PublisherStays(c, x.s, t, e, ws', x'.s, p) by { hide PipesOk, Move; }
    hide Ok, LocalStep, Awoken, Move;
    assert p < |x.ends| && PublishesTo(x.s, b, p) && !x.ends[p].copied;
  }

  lemma MoveLowersPiped(c: Config, x: Piped, b: nat, t: nat, n: nat, x': Piped)
    requires Ok(c, x.s) && PipesOk(x) && PipedMove(c, x, t, n, x') && Closing(x.s, b)
    requires b < |x'.s.boxes| && x'.s.boxes[b].taken == TAKEN
    ensures Closing(x'.s, b) && t < |x.s.workers| && HasBox(x.s.workers[t])
    ensures PipedMeasure(x', b) + (if x.s.workers[t].box == b then 1 else 0) <= PipedMeasure(x, b)
  {
    var e, ws' :| MoveBy(c, x.s, t, e, ws', x'.s);
    StaysClosing(c, x.s, t, e, ws', x'.s, b);
    if x.s.workers[t].box == b {
      MoveLowers(c, x.s, t, e, ws', x'.s, b);
    } else {
      OtherMoveKeeps(c, x.s, t, e, ws', x'.s, b);
    }
    hide LocalStep, Awoken, Measure, Move, Ok, PipesOk, Uncopied;
    if Uncopied(x', b) { MoveKeepsUncopied(c, x, b, t, n, e, ws', x'); }
  }

  lemma CopyLowers(c: Config, x: Piped, b: nat, t: nat, x': Piped)
    requires Ok(c, x.s) && PipesOk(x) && Copies(x, t, x')
    ensures PipedMeasure(x', b) + (if CopiesAt(x, b, t, x') then 1 else 0) <= PipedMeasure(x, b)
  {
    if CopiesAt(x, b, t, x') {
      assert WorkerOk(x.s, t);
      OnlyPublisher(c, x.s, b, t);
      assert PublishesTo(x.s, b, t);
      hide Ok, Measure;
      assert Uncopied(x, b);
      assert !Uncopied(x', b);
    } else {
      hide Ok, Measure;
      StillUncopied(x, b, x');
    }
  }

  lemma StillUncopied(x: Piped, b: nat, x': Piped)
    requires |x'.s.workers| == |x.s.workers| && |x'.ends| == |x.ends|
    requires forall q :: 0 <= q < |x.s.workers| && x'.s.workers[q].Pub? ==>
               x.s.workers[q] == x'.s.workers[q] && (q < |x.ends| && x.ends[q].copied ==> x'.ends[q].copied)
    ensures Uncopied(x', b) ==> Uncopied(x, b)
  {
    if p: nat :| p < |x'.ends| && PublishesTo(x'.s, b, p) && !x'.ends[p].copied {
      assert p < |x.ends| && PublishesTo(x.s, b, p) && !x.ends[p].copied;
    }
  }

  /** Every step but a spurious wakeup keeps the closed box closed, as long as its slot is taken,
      and does not raise the measure; those of its removal lower it. */
  lemma QuietPipedLowers(c: Config, x: Piped, b: nat, x': Piped)
    requires Ok(c, x.s) && PipesOk(x) && QuietNext(c, x, x') && Closing(x.s, b)
    requires b < |x'.s.boxes| && x'.s.boxes[b].taken == TAKEN
    ensures Closing(x'.s, b)
    ensures PipedMeasure(x', b) + (if PipedStepAt(c, x, b, x') then 1 else 0) <= PipedMeasure(x, b)
  {
    hide Ok, PipesOk, PipedMeasure, PipedMove, PipedEnter, Copies;
    if PokeStep(x, x') {
      PokeLowers(x, b, x');
    } else if t: nat :| CopiesAt(x, b, t, x') {
      CopyLowers(c, x, b, t, x');
      assert x'.s == x.s by { CopiesStay(x, t, x'); }
    } else if t: nat :| MovesAt(c, x, b, t, x') {
      var n :| PipedMove(c, x, t, n, x');
      MoveLowersPiped(c, x, b, t, n, x');
    } else {
      OthersLower(c, x, b, x');
    }
  }

  lemma CopiesStay(x: Piped, t: nat, x': Piped)
    requires Copies(x, t, x')
    ensures x'.s == x.s
  {
  }

  lemma PokeLowers(x: Piped, b: nat, x': Piped)
    requires PokeStep(x, x')
    ensures x'.s == x.s && PipedMeasure(x', b) + 1 <= PipedMeasure(x, b)
  {
    hide Measure;
    StillUncopied(x, b, x');
  }

  lemma OthersLower(c: Config, x: Piped, b: nat, x': Piped)
    requires Ok(c, x.s) && PipesOk(x) && QuietNext(c, x, x') && Closing(x.s, b) && !PokeStep(x, x')
    requires b < |x'.s.boxes| && x'.s.boxes[b].taken == TAKEN
    ensures Closing(x'.s, b) && PipedMeasure(x', b) <= PipedMeasure(x, b)
  {
    hide Ok, PipesOk, PipedMove, PipedEnter, Measure;
    if ClientStep(x, x') {
      StillUncopied(x, b, x');
    } else {
      var t: nat :| WorkerStep(c, x, t, x');
      if n :| PipedMove(c, x, t, n, x') {
        MoveLowersPiped(c, x, b, t, n, x');
      } else if PipedEnter(c, x, t, x') {
        NobodyEntersAt(c, x, b, t, x');
      } else if Copies(x, t, x') {
        CopyLowers(c, x, b, t, x');
      } else {
        StillUncopied(x, b, x');
      }
    }
  }

  ghost predicate QuietPipedRun(c: Config, states: seq<Piped>) {
    |states| > 0 && forall k :: 0 < k < |states| ==> QuietNext(c, states[k - 1], states[k])
  }

  ghost function PipedStepsOf(c: Config, b: nat, states: seq<Piped>): nat
    requires |states| > 0
  {
    if |states| == 1 then 0
    else PipedStepsOf(c, b, states[..|states| - 1])
         + if PipedStepAt(c, states[|states| - 2], b, states[|states| - 1]) then 1 else 0
  }

  /** The slot of box b is not freed. */
  ghost predicate StaysTakenAt(states: seq<Piped>, b: nat) {
    forall k :: 0 <= k < |states| ==> b < |states[k].s.boxes| && states[k].s.boxes[b].taken == TAKEN
  }

  /** A step that no client has to ask for is one of those that are counted. */
  lemma RemovalStepCounts(c: Config, x: Piped, b: nat, x': Piped)
    requires RemovalStep(c, x, b, x')
    ensures PipedStepAt(c, x, b, x') && QuietNext(c, x, x')
  {
    hide PokeStep, PipedMove, Copies;
    if t: nat, n: nat :| MovesAlone(c, x, b, t, n, x') {
      assert MovesAt(c, x, b, t, x');
      assert WorkerStep(c, x, t, x');
    } else if t: nat :| CopiesAt(x, b, t, x') {
      assert WorkerStep(c, x, t, x');
    }
  }

  /** However the broker and its clients go on without spurious wakeups, as long as a closed box's
      slot is not free, the steps of its removal are bounded by the measure at the start, those
      at the remover's write and the copying of the path among them. */
  lemma {:induction false} PipedRemovalBounded(c: Config, states: seq<Piped>, b: nat)
    requires QuietPipedRun(c, states) && Ok(c, states[0].s) && PipesOk(states[0]) && Closing(states[0].s, b)
    requires StaysTakenAt(states, b)
    ensures var x := states[|states| - 1];
            && Ok(c, x.s) && PipesOk(x) && Closing(x.s, b) && (AmpleOk(c, states[0].s) ==> AmpleOk(c, x.s))
            && PipedStepsOf(c, b, states) + PipedMeasure(x, b) <= PipedMeasure(states[0], b)
  {
    hide Ok, PipesOk, AmpleOk, QuietNext, PipedMeasure, PipedStepAt;
    var n := |states| - 1;
    if n > 0 {
      PipedRemovalBounded(c, states[..n], b);
      assert QuietNext(c, states[n - 1], states[n]);
      NextPipedOk(c, states[n - 1], states[n]);
      QuietPipedLowers(c, states[n - 1], b, states[n]);
    }
  }

  /** Removal ends, with its pipes: with no more workers than handles, besides, until the slot is
      free somebody can step without a client, unless the remover's write ends the process, its
      open waits for a reader, or the publisher reads without a code. */
  lemma PipedRemovalEnds(c: Config, states: seq<Piped>, b: nat)
    requires QuietPipedRun(c, states) && AmpleOk(c, states[0].s) && PipesOk(states[0]) && Closing(states[0].s, b)
    requires StaysTakenAt(states, b)
    ensures PipedStepsOf(c, b, states) + PipedMeasure(states[|states| - 1], b) <= PipedMeasure(states[0], b)
    ensures var x := states[|states| - 1];
            Aborts(x) || Blocks(x) || Deaf(x, b) || exists x' :: RemovalStep(c, x, b, x')
  {
    PipedRemovalBounded(c, states, b) by { assert Ok(c, states[0].s); }
    var x := states[|states| - 1];
    hide AmpleOk, PipesOk, PipedMeasure, RemovalStep, Aborts, Blocks, Deaf;
    if !Aborts(x) && !Blocks(x) && !Deaf(x, b) { RemovalGoesOn(c, x, b); }
  }

  /** Once the code is heard nothing can stop removal: whatever sessions and clients do, the
      steps that are left are bounded, and until the slot is free one of them can be taken
      without a client. */
  lemma {:induction false} HeardRemovalEnds(c: Config, states: seq<Piped>, b: nat)
    requires QuietPipedRun(c, states) && AmpleOk(c, states[0].s) && PipesOk(states[0]) && Heard(c, states[0], b)
    requires StaysTakenAt(states, b)
    ensures PipedStepsOf(c, b, states) + PipedMeasure(states[|states| - 1], b) <= PipedMeasure(states[0], b)
    ensures var x := states[|states| - 1]; Heard(c, x, b) && exists x' :: RemovalStep(c, x, b, x')
  {
    PipedRemovalEnds(c, states, b) by { assert Closing(states[0].s, b); }
    HeardStays(c, states, b) by { assert Ok(c, states[0].s); }
    hide AmpleOk, PipesOk, PipedMeasure, RemovalStep;
    HeardNotDeaf(c, states[|states| - 1], b);
  }

  lemma {:induction false} HeardStays(c: Config, states: seq<Piped>, b: nat)
    requires |states| > 0 && Ok(c, states[0].s) && PipesOk(states[0]) && Heard(c, states[0], b)
    requires forall k :: 0 < k < |states| ==> PipedNext(c, states[k - 1], states[k])
    requires StaysTakenAt(states, b)
    ensures Ok(c, states[|states| - 1].s) && PipesOk(states[|states| - 1]) && Heard(c, states[|states| - 1], b)
  {
    hide Ok, PipesOk, AmpleOk, PipedNext, Heard;
    var n := |states| - 1;
    if n > 0 {
      HeardStays(c, states[..n], b);
      assert PipedNext(c, states[n - 1], states[n]);
      NextPipedOk(c, states[n - 1], states[n]);
      NextHeard(c, states[n - 1], b, states[n]);
    }
  }
}

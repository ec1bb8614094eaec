/** Exactly when the code that box_remove writes can miss its publisher, seen from the write. */
module BrokerMissed {
  import opened Counting
  import opened TfsTypes
  import opened BrokerFs
  import opened BrokerSystem
  import opened BrokerControl
  import opened BrokerFiles
  import opened BrokerRemoval
  import opened BrokerRuns
  import opened BrokerPipes
  import opened BrokerHearing

  /** While box b is being removed, some steps lead to where its publisher reads without a code. */
  ghost predicate CanBeDeaf(c: Config, x: Piped, b: nat) {
    exists states: seq<Piped> :: LeadsToDeaf(c, x, states, b)
  }

  ghost predicate LeadsToDeaf(c: Config, x: Piped, states: seq<Piped>, b: nat) {
    && |states| > 0 && states[0] == x && StaysTakenAt(states, b)
    && (forall k :: 0 < k < |states| ==> PipedNext(c, states[k - 1], states[k]))
    && Deaf(states[|states| - 1], b)
  }

  lemma DeafNow(c: Config, x: Piped, b: nat)
    requires Deaf(x, b)
    ensures CanBeDeaf(c, x, b)
  {
    assert LeadsToDeaf(c, x, [x], b);
  }

  lemma DeafLater(c: Config, x: Piped, x': Piped, b: nat)
    requires PipedNext(c, x, x') && CanBeDeaf(c, x', b) && b < |x.s.boxes| && x.s.boxes[b].taken == TAKEN
    ensures CanBeDeaf(c, x, b)
  {
    hide PipedNext, Deaf;
    var states :| LeadsToDeaf(c, x', states, b);
    assert LeadsToDeaf(c, x, [x] + states, b);
  }

  /** The remover is past its write and has not let go of the mutex since. */
  ghost predicate HasWritten(c: Config, x: Piped, b: nat, p: nat) {
    && Ok(c, x.s) && PipesOk(x) && Closing(x.s, b) && x.poke == NoPoke && PublishesTo(x.s, b, p)
    && 0 <= x.s.table < |x.s.workers| && x.s.workers[x.s.table].Rem? && x.s.workers[x.s.table].rpc == RPubTest
    && x.s.workers[x.s.table].box == b
  }

  /** A step of the publisher, with the remover where it is. */
  lemma PubSteps(c: Config, x: Piped, b: nat, p: nat, n: nat, e: Effect) returns (x': Piped)
    requires HasWritten(c, x, b, p) && PubStep(c, p, x.s.workers[p], x.s.boxes[b], x.s.fs, e)
    requires Allows(x, p) && Takes(x, p, e.w, n) && e.wake == None && e.w.Pub?
    ensures PipedNext(c, x, x') && HasWritten(c, x', b, p) && x'.s.workers[p] == e.w
    ensures x'.s.boxes[b].inode == x.s.boxes[b].inode && |x'.ends| == |x.ends|
    ensures !Closes(x.s.workers[p], e.w) ==> x'.ends[p] == x.ends[p]
    ensures x'.codes == Without(x.codes, x.ends[p].fifo, n)
    ensures x'.s.fs == e.fs
  {
    PubLeavesBox(c, x.s, b, p, e);
    assert |x.ends| == |x.s.workers| by { assert PipesOk(x); }
    hide Ok, PipesOk, AmpleOk, Takes, PipedNext, WorkerOk;
    x' := Steps(c, x, p, n, e);
    hide LocalStep, PubStep, Move;
    PubStepCounts(c, x, p, n, x');
    WrittenStays(c, x, b, p, x');
  }

  lemma PubLeavesBox(c: Config, s: Broker, b: nat, p: nat, e: Effect)
    requires Ok(c, s) && b < |s.boxes| && PublishesTo(s, b, p) && e.w.Pub?
    requires PubStep(c, p, s.workers[p], s.boxes[b], s.fs, e)
    ensures e.w.box == b && e.box.closed == s.boxes[b].closed && e.box.taken == s.boxes[b].taken
    ensures e.box.inode == s.boxes[b].inode
  {
    assert WorkerOk(s, p);
    hide Ok;
    PubBox(c, p, s.workers[p], s.boxes[b], s.fs, e);
    hide WriteData, ToWrite, Open;
  }

  lemma WrittenStays(c: Config, x: Piped, b: nat, p: nat, x': Piped)
    requires HasWritten(c, x, b, p) && PipedNext(c, x, x') && x'.poke == NoPoke && PublishesTo(x'.s, b, p)
    requires Closing(x'.s, b) && x'.s.table == x.s.table < |x'.s.workers|
    requires x'.s.workers[x.s.table] == x.s.workers[x.s.table]
    ensures HasWritten(c, x', b, p)
  {
    NextPipedOk(c, x, x');
    hide Ok, PipesOk, PipedNext;
  }

  lemma PubStepCounts(c: Config, x: Piped, p: nat, n: nat, x': Piped)
    requires PipedMove(c, x, p, n, x')
    ensures PipedNext(c, x, x')
  {
    assert WorkerStep(c, x, p, x');
  }

  /** About to broadcast, with no code in its FIFO: when the remover sleeps, it reads again. */
  lemma BcastDeaf(c: Config, x: Piped, b: nat, p: nat)
    requires HasWritten(c, x, b, p) && x.s.workers[p].ppc == PBcast && x.ends[p].fifo !in x.codes
    ensures CanBeDeaf(c, x, b)
  {
    var r := x.s.table;
    assert WorkerOk(x.s, r) && WorkerOk(x.s, p) && BoxOk(x.s, b);
    CountMember(x.s.workers, p, PubsOf(b));
    var x' := Steps(c, x, r, 0, Effect(Rem(RPubSleep, b), x.s.boxes[b].(mutex := NOBODY), x.s.fs, None));
    hide Ok, PipesOk;
    assert |x.ends| == |x.s.workers| by { assert PipesOk(x); }
    AnnounceDeaf(c, x', b, p);
    PubStepCounts(c, x, r, 0, x');
    DeafLater(c, x, x', b);
  }

  lemma AnnounceDeaf(c: Config, x: Piped, b: nat, p: nat)
    requires Closing(x.s, b) && x.poke == NoPoke && PublishesTo(x.s, b, p) && |x.ends| == |x.s.workers|
    requires x.s.workers[p].ppc == PBcast && x.ends[p].fifo !in x.codes && x.s.boxes[b].mutex == NOBODY
    ensures CanBeDeaf(c, x, b)
  {
    var w, y := x.s.workers[p], x.s.boxes[b];
    var x' := Steps(c, x, p, 0, Effect(w.(ppc := PTop), y.(boxSize := y.boxSize + c.msgLength), x.s.fs, All));
    hide Move;
    assert PublishesTo(x'.s, b, p);
    DeafNow(c, x', b);
    PubStepCounts(c, x, p, 0, x');
    DeafLater(c, x, x', b);
  }

  /** About to write a message that fits, with no code in its FIFO. */
  lemma WriteDeaf(c: Config, x: Piped, b: nat, p: nat)
    requires HasWritten(c, x, b, p) && x.s.workers[p].ppc == PWrite && x.ends[p].fifo !in x.codes && HasRoom(c, x.s, b)
    ensures CanBeDeaf(c, x, b)
  {
    var w, y := x.s.workers[p], x.s.boxes[b];
    assert WorkerFiles(c, x.s, p);
    var e := Effect(w.(ppc := PBcast), y.(published := y.published + [w.msg]), WriteData(x.s.fs, w.h, w.msg), None);
    assert w.msg[..c.msgLength] == w.msg;
    assert PubStep(c, p, w, y, x.s.fs, e);
    var x' := PubSteps(c, x, b, p, 0, e);
    hide HasWritten, PipedNext, PubStep;
    assert x'.ends[p] == x.ends[p];
    BcastDeaf(c, x', b, p);
    DeafLater(c, x, x', b) by { assert Closing(x.s, b); }
  }

  /** About to read a message that fits: it may take every code in the FIFO with it. */
  lemma MessageDeaf(c: Config, x: Piped, b: nat, p: nat)
    requires HasWritten(c, x, b, p) && x.s.workers[p].ppc == PMsg && HasRoom(c, x.s, b)
    ensures CanBeDeaf(c, x, b)
  {
    var w, y := x.s.workers[p], x.s.boxes[b];
    var f := x.ends[p].fifo;
    var e := Effect(w.(ppc := PWrite, msg := seq(c.msgLength, _ => 0)), y, x.s.fs, None);
    var x' := PubSteps(c, x, b, p, x.codes[f], e);
    assert x'.codes == x.codes[f := 0] && HasRoom(c, x'.s, b);
    hide HasWritten, PipedNext, PubStep;
    WriteDeaf(c, x', b, p);
    DeafLater(c, x, x', b) by { assert Closing(x.s, b); }
  }

  /** About to open the box's file, with no code in its FIFO. */
  lemma OpenDeaf(c: Config, x: Piped, b: nat, p: nat)
    requires HasWritten(c, x, b, p) && AmpleOk(c, x.s) && x.s.workers[p].ppc == POpen && x.ends[p].fifo !in x.codes
    ensures CanBeDeaf(c, x, b)
  {
    var w, y := x.s.workers[p], x.s.boxes[b];
    HandlesSuffice(c, x.s.workers, x.s.fs, p);
    assert Stored(c, y, x.s.fs);
    OpenKeeps(c, x.s.fs, y, true);
    var (fs, h) := Open(c, x.s.fs, y.name, true);
    var x' := PubSteps(c, x, b, p, 0, Effect(w.(ppc := PTop, h := h), y, fs, None));
    hide PipedNext, PubStep, Ok, PipesOk, Open, AmpleOk;
    assert x'.ends[p] == x.ends[p] && x'.codes == x.codes;
    DeafNow(c, x', b);
    DeafLater(c, x, x', b);
  }

  lemma ReadsDeaf(c: Config, x: Piped, b: nat, p: nat)
    requires HasWritten(c, x, b, p) && Reads(x.s.workers[p]) && x.ends[p].fifo !in x.codes
    ensures CanBeDeaf(c, x, b)
  {
    hide Ok;
    DeafNow(c, x, b);
  }

  /** A publisher that may read again, with no code in its FIFO. */
  lemma NoCodeDeaf(c: Config, x: Piped, b: nat, p: nat)
    requires HasWritten(c, x, b, p) && AmpleOk(c, x.s)
    requires ReadsAgain(x.s.workers[p], HasRoom(c, x.s, b)) && x.ends[p].fifo !in x.codes
    ensures CanBeDeaf(c, x, b)
  {
    assert p < |x.s.workers|;
    hide HasWritten, PipesOk, Ok, HasRoom;
    match x.s.workers[p].ppc
    case POpen => OpenDeaf(c, x, b, p);
    case PWrite => WriteDeaf(c, x, b, p);
    case PBcast => BcastDeaf(c, x, b, p);
    case _ => ReadsDeaf(c, x, b, p);
  }

  // ---- another session on the same FIFO -----------------------------------------------------

  /** Besides, publisher q of another box has the same FIFO open, and p may read again. */
  ghost predicate Facing(c: Config, x: Piped, b: nat, p: nat, q: nat) {
    && HasWritten(c, x, b, p) && AmpleOk(c, x.s) && |x.ends| == |x.s.workers|
    && ReadsAgain(x.s.workers[p], HasRoom(c, x.s, b))
    && q < |x.s.workers| && q != p && x.s.workers[q].Pub? && x.ends[q].fifo == x.ends[p].fifo
    && x.s.workers[q].box != b && x.s.workers[q].box < |x.s.boxes|
  }

  /** Other boxes' steps leave the file as it is. */
  lemma RoomKept(c: Config, s: Broker, t: nat, s': Broker, b: nat)
    requires Ok(c, s) && Move(c, s, t, s') && b < |s.boxes| && s.boxes[b].taken == TAKEN
    requires t < |s.workers| && HasBox(s.workers[t]) && s.workers[t].box != b
    ensures b < |s'.boxes| && HasRoom(c, s', b) == HasRoom(c, s, b) && s'.boxes[b] == s.boxes[b]
  {
    var e, ws' :| MoveBy(c, s, t, e, ws', s');
    MoveOwn(c, s, t, e, ws', s');
    assert WorkerOk(s, t);
    assert Stored(c, s.boxes[b], s.fs) && Stored(c, s.boxes[s.workers[t].box], s.fs);
    hide LocalStep, Awoken, ControlOk, Keeps;
    assert s.boxes[b].inode != s.boxes[s.workers[t].box].inode;
  }

  /** A step of a session of another box. */
  lemma OtherSteps(c: Config, x: Piped, b: nat, p: nat, q: nat, t: nat, n: nat, e: Effect) returns (x': Piped)
    requires Facing(c, x, b, p, q) && t < |x.s.workers| && (x.s.workers[t].Sub? || t == q)
    requires x.s.workers[t].box != b && x.s.workers[t].box < |x.s.boxes|
    requires LocalStep(c, t, x.s.workers[t], x.s.boxes[x.s.workers[t].box], x.s.fs, e)
    requires Allows(x, t) && Takes(x, t, e.w, n) && (e.wake == None || !SleepsOn(e.w, x.s.workers[t].box))
    requires t == q ==> e.w.Pub? && !Closes(x.s.workers[q], e.w)
    ensures Facing(c, x', b, p, q) && x'.ends == x.ends && x'.codes == Without(x.codes, x.ends[t].fifo, n)
    ensures x'.s.workers[t] == e.w && (t != q ==> x'.s.workers[q] == x.s.workers[q])
    ensures x'.s.workers[p] == x.s.workers[p] && |x'.s.workers| == |x.s.workers|
    ensures x'.s.fs == e.fs && x'.s.boxes == x.s.boxes[x.s.workers[t].box := e.box]
    ensures CanBeDeaf(c, x', b) ==> CanBeDeaf(c, x, b)
  {
    hide Ok, AmpleOk, PipesOk, PipedNext, CanBeDeaf, HasRoom, Move, Takes;
    x' := Steps(c, x, t, n, e);
    hide LocalStep;
    PubStepCounts(c, x, t, n, x');
    FacingStays(c, x, b, p, q, t, n, x');
    if CanBeDeaf(c, x', b) { DeafLater(c, x, x', b); }
  }

  lemma FacingStays(c: Config, x: Piped, b: nat, p: nat, q: nat, t: nat, n: nat, x': Piped)
    requires Facing(c, x, b, p, q) && PipedMove(c, x, t, n, x') && PipedNext(c, x, x')
    requires t < |x.s.workers| && (x.s.workers[t].Sub? || t == q) && x.s.workers[t].box != b
    requires |x'.s.workers| == |x.s.workers| && |x'.s.boxes| == |x.s.boxes| && x'.s.table == x.s.table
    requires x'.ends == x.ends && x'.poke == x.poke
    requires forall u: nat :: u < |x.s.workers| && u != t && !SleepsOn(x.s.workers[u], x.s.workers[t].box) ==>
               x'.s.workers[u] == x.s.workers[u]
    requires t == q ==> x'.s.workers[q].Pub? && x'.s.workers[q].box == x.s.workers[q].box
    ensures Facing(c, x', b, p, q) && x'.s.workers[p] == x.s.workers[p]
    ensures t != q ==> x'.s.workers[q] == x.s.workers[q]
  {
    NextPipedOk(c, x, x');
    RoomKept(c, x.s, t, x'.s, b);
    hide Ok, AmpleOk, PipesOk, PipedNext, HasRoom, PipedMove;
    assert t != x.s.table;
  }

  /** No other box is closed; its mutex is nobody's or a subscriber's. */
  lemma AtOpenBox(c: Config, x: Piped, b: nat, p: nat, q: nat)
    requires Facing(c, x, b, p, q)
    ensures var d := x.s.workers[q].box;
            && !x.s.boxes[d].closed && x.s.boxes[d].taken == TAKEN
            && var u := x.s.boxes[d].mutex;
               u == NOBODY || (0 <= u < |x.s.workers| && u != q && x.s.workers[u].Sub? && x.s.workers[u].box == d
                               && (x.s.workers[u].spc == SRead || x.s.workers[u].spc == SWait))
  {
    var d := x.s.workers[q].box;
    assert BoxOk(x.s, d) && BoxOk(x.s, b) && WorkerOk(x.s, q);
    var u := x.s.boxes[d].mutex;
    if u != NOBODY { assert WorkerOk(x.s, u); }
  }

  /** Whoever has that mutex lets it go. */
  lemma MutexFreed(c: Config, x: Piped, b: nat, p: nat, q: nat) returns (x': Piped)
    requires Facing(c, x, b, p, q)
    ensures Facing(c, x', b, p, q) && x'.ends == x.ends && x'.codes == x.codes
    ensures x'.s.workers[q] == x.s.workers[q] && x'.s.boxes[x.s.workers[q].box].mutex == NOBODY
    ensures CanBeDeaf(c, x', b) ==> CanBeDeaf(c, x, b)
  {
    var d := x.s.workers[q].box;
    var u := x.s.boxes[d].mutex;
    AtOpenBox(c, x, b, p, q);
    hide Facing, CanBeDeaf;
    x' := x;
    if u != NOBODY {
      var t: nat := u;
      x' := LetsGo(c, x, b, p, q, t);
      if x'.s.boxes[d].mutex != NOBODY { x' := LetsGo(c, x', b, p, q, t); }
    }
  }

  lemma LetsGo(c: Config, x: Piped, b: nat, p: nat, q: nat, u: nat) returns (x': Piped)
    requires Facing(c, x, b, p, q) && u != q && u < |x.s.workers| && x.s.workers[u].Sub?
    requires x.s.workers[q].box < |x.s.boxes| && x.s.workers[u].box == x.s.workers[q].box
    requires x.s.boxes[x.s.workers[q].box].mutex == u && (x.s.workers[u].spc == SRead || x.s.workers[u].spc == SWait)
    ensures Facing(c, x', b, p, q) && x'.ends == x.ends && x'.codes == x.codes
    ensures x'.s.workers[q] == x.s.workers[q] && |x'.s.workers| == |x.s.workers| && |x'.s.boxes| == |x.s.boxes|
    ensures var m := x'.s.boxes[x.s.workers[q].box].mutex;
            || m == NOBODY
            || (m == u && x.s.workers[u].spc == SRead && x'.s.workers[u] == x.s.workers[u].(spc := SWait))
    ensures CanBeDeaf(c, x', b) ==> CanBeDeaf(c, x, b)
  {
    var w, y := x.s.workers[u], x.s.boxes[x.s.workers[q].box];
    AtOpenBox(c, x, b, p, q);
    assert WorkerFiles(c, x.s, u);
    var e := SubCan(c, u, w, y, x.s.fs);
    assert e.wake == None && (e.box.mutex == NOBODY || e == Effect(w.(spc := SWait), y, x.s.fs, None));
    hide SubStep;
    assert Takes(x, u, e.w, 0) && LocalStep(c, u, w, y, x.s.fs, e);
    hide Facing, CanBeDeaf, LocalStep, Ok, AmpleOk, PipesOk;
    x' := OtherSteps(c, x, b, p, q, u, 0, e);
  }

  /** The other session reads a message, and takes every code with it. */
  lemma RivalReadsMessage(c: Config, x: Piped, b: nat, p: nat, q: nat)
    requires Facing(c, x, b, p, q) && x.s.workers[q].ppc == PMsg
    ensures CanBeDeaf(c, x, b)
  {
    var w, d, f := x.s.workers[q], x.s.workers[q].box, x.ends[p].fifo;
    var e := Effect(w.(ppc := PWrite, msg := seq(c.msgLength, _ => 0)), x.s.boxes[d], x.s.fs, None);
    var x' := OtherSteps(c, x, b, p, q, q, x.codes[f], e);
    hide CanBeDeaf, Ok, AmpleOk, PipesOk, HasRoom;
    NoCodeDeaf(c, x', b, p);
  }

  /** It has read a code, or what its client has written, and finds its box open. */
  lemma RivalChecks(c: Config, x: Piped, b: nat, p: nat, q: nat)
    requires Facing(c, x, b, p, q) && x.s.workers[q].ppc == PCheck && x.s.workers[q].ev == Publish
    ensures CanBeDeaf(c, x, b)
  {
    var w, d := x.s.workers[q], x.s.workers[q].box;
    var y := MutexFreed(c, x, b, p, q);
    AtOpenBox(c, y, b, p, q);
    hide CanBeDeaf, Ok, AmpleOk, PipesOk, HasRoom, HasWritten;
    var x' := OtherSteps(c, y, b, p, q, q, 0, Effect(w.(ppc := PMsg), y.s.boxes[d], y.s.fs, None));
    RivalReadsMessage(c, x', b, p, q);
  }

  /** It reads a code, once it has copied its path. */
  lemma RivalReads(c: Config, x: Piped, b: nat, p: nat, q: nat)
    requires Facing(c, x, b, p, q) && x.s.workers[q].ppc == PTop && x.ends[q].copied
    ensures CanBeDeaf(c, x, b)
  {
    var w, d, f := x.s.workers[q], x.s.workers[q].box, x.ends[p].fifo;
    if f in x.codes {
      var x' := OtherSteps(c, x, b, p, q, q, 1,
                           Effect(w.(ppc := PCheck, ev := Publish), x.s.boxes[d], x.s.fs, None));
      hide CanBeDeaf, Facing;
      RivalChecks(c, x', b, p, q);
    } else {
      NoCodeDeaf(c, x, b, p);
    }
  }

  lemma RivalTop(c: Config, x: Piped, b: nat, p: nat, q: nat)
    requires Facing(c, x, b, p, q) && x.s.workers[q].ppc == PTop
    ensures CanBeDeaf(c, x, b)
  {
    if x.ends[q].copied {
      hide Facing, CanBeDeaf;
      RivalReads(c, x, b, p, q);
    } else {
      var d := x.s.workers[q].box;
      var x' := x.(names := x.names[d := x.ends[q].path], ends := x.ends[q := x.ends[q].(copied := true)]);
      assert Copies(x, q, x');
      assert WorkerStep(c, x, q, x');
      NextPipedOk(c, x, x');
      hide CanBeDeaf, Ok, AmpleOk, PipesOk, HasRoom, PipedNext;
      RivalReads(c, x', b, p, q);
      DeafLater(c, x, x', b);
    }
  }

  lemma RivalAnnounces(c: Config, x: Piped, b: nat, p: nat, q: nat)
    requires Facing(c, x, b, p, q) && x.s.workers[q].ppc == PBcast
    ensures CanBeDeaf(c, x, b)
  {
    var w, d := x.s.workers[q], x.s.workers[q].box;
    var y := MutexFreed(c, x, b, p, q);
    var z := y.s.boxes[d];
    hide CanBeDeaf, Ok, AmpleOk, PipesOk, HasRoom, HasWritten;
    var x' := OtherSteps(c, y, b, p, q, q, 0,
                         Effect(w.(ppc := PTop), z.(boxSize := z.boxSize + c.msgLength), y.s.fs, All));
    RivalTop(c, x', b, p, q);
  }

  lemma RivalWrites(c: Config, x: Piped, b: nat, p: nat, q: nat)
    requires Facing(c, x, b, p, q) && x.s.workers[q].ppc == PWrite && HasRoom(c, x.s, x.s.workers[q].box)
    ensures CanBeDeaf(c, x, b)
  {
    var w, y := x.s.workers[q], x.s.boxes[x.s.workers[q].box];
    assert WorkerFiles(c, x.s, q);
    var e := Effect(w.(ppc := PBcast), y.(published := y.published + [w.msg]), WriteData(x.s.fs, w.h, w.msg), None);
    assert w.msg[..c.msgLength] == w.msg;
    assert PubStep(c, q, w, y, x.s.fs, e);
    hide PubStep, WriteData, CanBeDeaf, Ok, AmpleOk, PipesOk, HasRoom, HasWritten;
    var x' := OtherSteps(c, x, b, p, q, q, 0, e);
    RivalAnnounces(c, x', b, p, q);
  }

  lemma RivalOpens(c: Config, x: Piped, b: nat, p: nat, q: nat)
    requires Facing(c, x, b, p, q) && x.s.workers[q].ppc == POpen
    ensures CanBeDeaf(c, x, b)
  {
    var w, y := x.s.workers[q], x.s.boxes[x.s.workers[q].box];
    HandlesSuffice(c, x.s.workers, x.s.fs, q);
    AtOpenBox(c, x, b, p, q);
    assert Stored(c, y, x.s.fs);
    OpenKeeps(c, x.s.fs, y, true);
    var (fs, h) := Open(c, x.s.fs, y.name, true);
    hide CanBeDeaf, Ok, AmpleOk, PipesOk, HasRoom, HasWritten, Open;
    var x' := OtherSteps(c, x, b, p, q, q, 0, Effect(w.(ppc := PTop, h := h), y, fs, None));
    RivalTop(c, x', b, p, q);
  }

  /** A rival can take every code. */
  lemma RivalDeaf(c: Config, x: Piped, b: nat, p: nat, q: nat)
    requires HasWritten(c, x, b, p) && AmpleOk(c, x.s) && |x.ends| == |x.s.workers|
    requires ReadsAgain(x.s.workers[p], HasRoom(c, x.s, b)) && Rival(c, x, p, q)
    ensures CanBeDeaf(c, x, b)
  {
    OnlyPublisher(c, x.s, b, p);
    assert !PublishesTo(x.s, b, q);
    assert Facing(c, x, b, p, q);
    hide Facing, CanBeDeaf, Ok, AmpleOk, PipesOk, HasRoom, HasWritten;
    match x.s.workers[q].ppc
    case POpen => RivalOpens(c, x, b, p, q);
    case PTop => RivalTop(c, x, b, p, q);
    case PCheck => RivalChecks(c, x, b, p, q);
    case PMsg => RivalReadsMessage(c, x, b, p, q);
    case PWrite => RivalWrites(c, x, b, p, q);
    case PBcast => RivalAnnounces(c, x, b, p, q);
  }

  // ---- exactly when ------------------------------------------------------------------------

  /** Right after its write: the publisher can come to read without a code if and only if it is
      not sure to find one: it may read again, and there is no code in its FIFO, or another
      session may read there, or it is at the read of a message that the box's file has room for. */
  lemma CanBeDeafIff(c: Config, x: Piped, b: nat, p: nat)
    requires HasWritten(c, x, b, p) && AmpleOk(c, x.s)
    ensures p < |x.ends| && (CanBeDeaf(c, x, b) <==> !Assured(c, x, b, p))
  {
    assert |x.ends| == |x.s.workers| by { assert PipesOk(x); }
    hide AmpleOk;
    if Assured(c, x, b, p) {
      forall states ensures !LeadsToDeaf(c, x, states, b) { AssuredNotDeaf(c, x, b, p, states); }
    } else {
      assert p < |x.s.workers|;
      hide HasWritten, PipesOk, Ok, HasRoom, Rival, CanBeDeaf;
      if q: nat :| Rival(c, x, p, q) {
        RivalDeaf(c, x, b, p, q);
      } else if x.ends[p].fifo !in x.codes {
        NoCodeDeaf(c, x, b, p);
      } else {
        MessageDeaf(c, x, b, p);
      }
    }
  }

  lemma AssuredNotDeaf(c: Config, x: Piped, b: nat, p: nat, states: seq<Piped>)
    requires HasWritten(c, x, b, p) && p < |x.ends| && Assured(c, x, b, p)
    ensures !LeadsToDeaf(c, x, states, b)
  {
    if LeadsToDeaf(c, x, states, b) {
      OnlyPublisher(c, x.s, b, p);
      hide Ok, PipesOk, Assured, PipedNext;
      assert |x.ends| == |x.s.workers| by { assert PipesOk(x); }
      assert Heard(c, states[0], b);
      HeardStays(c, states, b);
      hide Heard, Deaf;
      HeardNotDeaf(c, states[|states| - 1], b);
    }
  }

  /** Seen from the write to FIFO f: the publisher may read again, and the code, or one that is
      left of an earlier removal, is not in its FIFO, or another session may take it there, or it
      may be taken for a part of a message. */
  ghost predicate Misses(c: Config, x: Piped, b: nat, p: nat, f: nat)
    requires b < |x.s.boxes| && p < |x.s.workers| && p < |x.ends|
  {
    && ReadsAgain(x.s.workers[p], HasRoom(c, x.s, b))
    && (|| (x.ends[p].fifo != f && x.ends[p].fifo !in x.codes)
        || (exists q: nat :: Rival(c, x, p, q))
        || (x.s.workers[p].Pub? && x.s.workers[p].ppc == PMsg && HasRoom(c, x.s, b)))
  }

  /** The remover's write: exactly when its code misses the box's publisher can the publisher come
      to wait for its client, and otherwise the code is heard. */
  lemma MissedIff(c: Config, x: Piped, f: nat, x': Piped)
    requires AmpleOk(c, x.s) && PipesOk(x) && x.poke == Writing(f) && PokeStep(x, x')
    ensures var b := PokedBox(x);
            && b < |x.s.boxes| && |x.ends| == |x.s.workers|
            && exists p: nat ::
                 && PublisherOf(x.s, b, p)
                 && (CanBeDeaf(c, x', b) <==> Misses(c, x, b, p, f))
                 && (Heard(c, x', b) <==> !Misses(c, x, b, p, f))
  {
    var b := PokedBox(x);
    assert BoxOk(x.s, b);
    var p := CountWitness(x.s.workers, PubsOf(b));
    OnlyPublisher(c, x.s, b, p);
    PokePipes(x, x');
    hide AmpleOk, Ok;
    assert Ok(c, x.s) by { assert AmpleOk(c, x.s); }
    assert PublisherOf(x.s, b, p);
    assert HasWritten(c, x', b, p);
    CanBeDeafIff(c, x', b, p);
    assert forall q: nat :: Rival(c, x', p, q) == Rival(c, x, p, q);
  }
}

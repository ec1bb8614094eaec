/** What a publisher's session does with what its client sends: only a message that follows a
    publish code is stored, as it was read and once; a client that hangs up, or sends any other
    code, ends its session and leaves nothing behind. And whom the steps of sessions wake. */
module BrokerSessions {
  import opened TfsTypes
  import opened BrokerFs
  import opened BrokerSystem
  import opened BrokerControl
  import opened BrokerFiles
  import opened BrokerRemoval
  import opened BrokerRuns

  // ---- codes -----------------------------------------------------------------------------------

  /** The session is past the check of its code only with a publish code. */
  predicate CodeOk(w: Worker) {
    w.Pub? && (w.ppc == PMsg || w.ppc == PWrite || w.ppc == PBcast) ==> w.ev == Publish
  }

  ghost predicate CodesOk(s: Broker) {
    forall t :: 0 <= t < |s.workers| ==> CodeOk(s.workers[t])
  }

  lemma OwnCode(c: Config, t: nat, w: Worker, x: Box, fs: Fs, e: Effect)
    requires HasBox(w) && LocalStep(c, t, w, x, fs, e) && CodeOk(w)
    ensures CodeOk(e.w)
  {
  }

  lemma NextCodes(c: Config, s: Broker, s': Broker)
    requires Next(c, s, s') && CodesOk(s)
    ensures CodesOk(s')
  {
    hide Move, Enter;
    var t: nat :| Move(c, s, t, s') || Enter(c, s, t, s') || Spurious(s, t, s');
    if Move(c, s, t, s') {
      MoveCodes(c, s, t, s');
    } else if Enter(c, s, t, s') {
      EnterCodes(c, s, t, s');
    } else {
      assert s'.workers == s.workers[t := Woken(s.workers[t])];
    }
  }

  lemma MoveCodes(c: Config, s: Broker, t: nat, s': Broker)
    requires Move(c, s, t, s') && CodesOk(s)
    ensures CodesOk(s')
  {
    var e, ws' :| MoveBy(c, s, t, e, ws', s');
    OwnCode(c, t, s.workers[t], s.boxes[s.workers[t].box], s.fs, e);
    AwokenEach(s.workers[t := e.w], s.workers[t].box, e.wake, ws');
    hide LocalStep, Awoken;
    forall u | 0 <= u < |s'.workers| ensures CodeOk(s'.workers[u]) { assert u != t ==> CodeOk(s.workers[u]); }
  }

  lemma EnterCodes(c: Config, s: Broker, t: nat, s': Broker)
    requires Enter(c, s, t, s') && CodesOk(s)
    ensures CodesOk(s')
  {
  }

  /** In every state of every run a session reads, writes and announces a message only after a
      publish code. */
  lemma {:induction false} PublishesOnCode(c: Config, states: seq<Broker>, k: nat)
    requires IsRun(c, states) && k < |states|
    ensures CodesOk(states[k])
  {
    hide Next, CodesOk;
    if k == 0 {
      InitCodes(states[0]);
    } else {
      PublishesOnCode(c, states, k - 1);
      assert Next(c, states[k - 1], states[k]);
      NextCodes(c, states[k - 1], states[k]);
    }
  }

  lemma InitCodes(s: Broker)
    requires Init(s)
    ensures CodesOk(s)
  {
  }

  // ---- messages ----------------------------------------------------------------------------

  /** What worker t publishes in a step from s to s'. */
  predicate Publishes(s: Broker, t: nat, s': Broker, b: nat, m: seq<byte>) {
    && t < |s.workers| && s.workers[t].Pub? && s.workers[t].box == b && s.workers[t].ppc == PWrite
    && b < |s.boxes| && b < |s'.boxes| && m == s.workers[t].msg
    && t < |s'.workers| && s'.workers[t].Pub? && s'.workers[t].ppc != PWrite
    && s'.boxes[b].published == s.boxes[b].published + [m]
  }

  lemma OwnMessage(c: Config, t: nat, w: Worker, x: Box, fs: Fs, e: Effect)
    requires HasBox(w) && LocalStep(c, t, w, x, fs, e) && !e.w.Crashed?
    ensures w.Pub? && w.ppc == PWrite ==> e.w.Pub? && e.w.ppc != PWrite
    ensures e.box.published == x.published ||
            (w.Pub? && w.ppc == PWrite && e.box.published == x.published + [w.msg])
    ensures w.Pub? && w.ppc == PWrite && e.box.published == x.published ==> e.w.ppc == PBreak && e.fs == fs
    ensures w.Pub? && w.ppc == PWrite && e.box.published == x.published && w.h in fs.handles ==>
              Content(fs, fs.handles[w.h].inumber) == []
    ensures e.w.Pub? && e.w.ppc == PWrite ==> w.Pub? && w.ppc == PMsg && w.ev == e.w.ev && |e.w.msg| == c.msgLength
  {
  }

  /** Nothing else is published: a box that is there gets, in one step, the message that a session
      of its own holds, or nothing. */
  lemma OnlyMessagesRead(c: Config, s: Broker, s': Broker, b: nat)
    requires Ok(c, s) && Next(c, s, s') && b < |s.boxes| && s.boxes[b].taken == TAKEN
    ensures b < |s'.boxes|
    ensures s'.boxes[b].published == s.boxes[b].published || exists t: nat, m :: Publishes(s, t, s', b, m)
  {
    hide Move, Ok;
    var t: nat :| Move(c, s, t, s') || Enter(c, s, t, s') || Spurious(s, t, s');
    if Move(c, s, t, s') { MoveReads(c, s, t, s', b); }
  }

  lemma MoveReads(c: Config, s: Broker, t: nat, s': Broker, b: nat)
    requires Ok(c, s) && Move(c, s, t, s') && b < |s.boxes|
    ensures b < |s'.boxes|
    ensures s'.boxes[b].published == s.boxes[b].published || exists m :: Publishes(s, t, s', b, m)
  {
    var e, ws' :| MoveBy(c, s, t, e, ws', s');
    OwnMessage(c, t, s.workers[t], s.boxes[s.workers[t].box], s.fs, e) by { MoveOwn(c, s, t, e, ws', s'); }
    AwokenEach(s.workers[t := e.w], s.workers[t].box, e.wake, ws');
    hide LocalStep, Awoken, Ok;
    if s'.boxes[b].published != s.boxes[b].published { assert Publishes(s, t, s', b, s.workers[t].msg); }
  }

  /** A session that has read a message from its client. */
  predicate Holding(w: Worker, b: nat, m: seq<byte>) {
    w.Pub? && w.ppc == PWrite && w.box == b && w.msg == m
  }

  /** Its file is empty, it finds no block for it, and is about to end. */
  predicate FindsNoBlock(s: Broker, t: nat, s': Broker, b: nat) {
    && t < |s'.workers| && s'.workers[t].Pub? && s'.workers[t].ppc == PBreak
    && b < |s.boxes| && b < |s'.boxes| && s'.boxes[b].published == s.boxes[b].published
    && s'.fs == s.fs && Content(s.fs, s.boxes[b].inode) == []
  }

  lemma HoldingStep(c: Config, s: Broker, s': Broker, t: nat, b: nat, m: seq<byte>)
    requires Ok(c, s) && Next(c, s, s') && t < |s.workers| && Holding(s.workers[t], b, m)
    ensures t < |s'.workers| && b < |s'.boxes| && b < |s.boxes|
    ensures || Holding(s'.workers[t], b, m)
            || Publishes(s, t, s', b, m)
            || FindsNoBlock(s, t, s', b)
  {
    assert WorkerOk(s, t);
    hide Ok, Move, Enter, Spurious;
    var u: nat :| Move(c, s, u, s') || Enter(c, s, u, s') || Spurious(s, u, s');
    if Move(c, s, u, s') {
      HoldingMove(c, s, u, s', t, b, m);
    } else {
      HoldingStays(c, s, u, s', t, b, m);
    }
  }

  lemma HoldingStays(c: Config, s: Broker, u: nat, s': Broker, t: nat, b: nat, m: seq<byte>)
    requires Enter(c, s, u, s') || Spurious(s, u, s')
    requires t < |s.workers| && b < |s.boxes| && Holding(s.workers[t], b, m)
    ensures t < |s'.workers| && b < |s'.boxes| && Holding(s'.workers[t], b, m)
  {
  }

  lemma HoldingMove(c: Config, s: Broker, u: nat, s': Broker, t: nat, b: nat, m: seq<byte>)
    requires Ok(c, s) && Move(c, s, u, s') && t < |s.workers| && b < |s.boxes| && Holding(s.workers[t], b, m)
    ensures t < |s'.workers| && b < |s'.boxes|
    ensures Holding(s'.workers[t], b, m) || Publishes(s, t, s', b, m) || FindsNoBlock(s, t, s', b)
  {
    var e, ws' :| MoveBy(c, s, u, e, ws', s');
    AwokenEach(s.workers[u := e.w], s.workers[u].box, e.wake, ws');
    if u == t {
      assert !e.w.Crashed? by { MoveOwn(c, s, u, e, ws', s'); }
      assert WorkerFiles(c, s, t);
      OwnMessage(c, t, s.workers[t], s.boxes[b], s.fs, e);
    }
    hide LocalStep, Awoken, Ok, Stored;
  }

  /** From where a session has read message m: it holds m until it publishes it, once, or finds no
      block for it and ends. */
  lemma {:induction false} MessagePublished(c: Config, states: seq<Broker>, t: nat, b: nat, m: seq<byte>)
    requires |states| > 1 && Ok(c, states[0]) && t < |states[0].workers| && Holding(states[0].workers[t], b, m)
    requires forall k :: 0 < k < |states| ==> Next(c, states[k - 1], states[k])
    requires forall k :: 0 < k < |states| - 1 ==> t < |states[k].workers| && states[k].workers[t].Pub?
                                                  && states[k].workers[t].ppc == PWrite
    ensures var s, s' := states[|states| - 2], states[|states| - 1];
            && Ok(c, s) && t < |s'.workers| && b < |s'.boxes| && b < |s.boxes|
            && (|| Holding(s'.workers[t], b, m)
                || Publishes(s, t, s', b, m)
                || FindsNoBlock(s, t, s', b))
  {
    hide Ok, Next;
    var n := |states| - 1;
    if n > 1 {
      MessagePublished(c, states[..n], t, b, m);
      assert states[..n][n - 2] == states[n - 2] && states[..n][n - 1] == states[n - 1];
      assert Next(c, states[n - 2], states[n - 1]);
      NextOk(c, states[n - 2], states[n - 1]);
    }
    assert Next(c, states[n - 1], states[n]);
    HoldingStep(c, states[n - 1], states[n], t, b, m);
  }

  // ---- clients that end --------------------------------------------------------------------

  /** Steps lead from s to s'. */
  ghost predicate LeadsTo(c: Config, s: Broker, s': Broker) {
    exists states: seq<Broker> :: StepsTo(c, s, states, s')
  }

  ghost predicate StepsTo(c: Config, s: Broker, states: seq<Broker>, s': Broker) {
    && |states| > 0 && states[0] == s && states[|states| - 1] == s'
    && forall k :: 0 < k < |states| ==> Next(c, states[k - 1], states[k])
  }

  lemma LeadsNow(c: Config, s: Broker)
    ensures LeadsTo(c, s, s)
  {
    assert StepsTo(c, s, [s], s);
  }

  lemma LeadsOn(c: Config, s: Broker, t: nat, s1: Broker, s': Broker)
    requires Move(c, s, t, s1) && LeadsTo(c, s1, s')
    ensures LeadsTo(c, s, s')
  {
    hide Move;
    var states :| StepsTo(c, s1, states, s');
    assert Next(c, s, s1);
    assert StepsTo(c, s, [s] + states, s');
  }

  /** Worker t has left box b, closed its handle, and changed nothing else but who sleeps there. */
  ghost predicate Ended(s: Broker, t: nat, s': Broker)
    requires t < |s.workers| && s.workers[t].Pub?
  {
    var b, h := s.workers[t].box, s.workers[t].h;
    && b < |s.boxes| && s'.boxes == s.boxes[b := s.boxes[b].(nPubs := s.boxes[b].nPubs - 1)]
    && s'.fs == Close(s.fs, h) && s'.table == s.table && s'.amount == s.amount
    && |s'.workers| == |s.workers| && s'.workers[t] == Idle
    && forall u :: 0 <= u < |s.workers| && u != t && !SleepsOn(s.workers[u], b) ==> s'.workers[u] == s.workers[u]
  }

  lemma PubMoves(c: Config, s: Broker, t: nat, e: Effect) returns (s': Broker)
    requires t < |s.workers| && s.workers[t].Pub? && s.workers[t].box < |s.boxes|
    requires PubStep(c, t, s.workers[t], s.boxes[s.workers[t].box], s.fs, e) && (e.w.Pub? || e.w.Idle?)
    ensures Move(c, s, t, s')
    ensures s' == s.(boxes := s.boxes[s.workers[t].box := e.box], workers := s'.workers, fs := e.fs)
    ensures |s'.workers| == |s.workers| && s'.workers[t] == e.w
    ensures e.wake == None ==> s'.workers == s.workers[t := e.w]
    ensures forall u :: 0 <= u < |s.workers| && u != t && !SleepsOn(s.workers[u], s.workers[t].box) ==>
              s'.workers[u] == s.workers[u]
  {
    var b := s.workers[t].box;
    var ws' := AwokenExists(s.workers[t := e.w], b, e.wake);
    AwokenEach(s.workers[t := e.w], b, e.wake, ws');
    hide PubStep, Awoken;
    s' := Applied(s, t, e, ws');
    assert MoveBy(c, s, t, e, ws', s');
  }

  lemma BreakEnds(c: Config, s: Broker, t: nat) returns (s': Broker)
    requires t < |s.workers| && s.workers[t].Pub? && s.workers[t].box < |s.boxes|
    requires s.workers[t].ppc == PBreak && s.boxes[s.workers[t].box].mutex == NOBODY
    ensures LeadsTo(c, s, s') && Ended(s, t, s')
  {
    var w, x := s.workers[t], s.boxes[s.workers[t].box];
    var s1 := PubMoves(c, s, t, Effect(w.(ppc := PLeave), x, Close(s.fs, w.h), None));
    s' := PubMoves(c, s1, t, Effect(Idle, x.(nPubs := x.nPubs - 1), s1.fs, All));
    hide Move;
    LeadsNow(c, s');
    LeadsOn(c, s1, t, s', s');
    LeadsOn(c, s, t, s1, s');
    assert s1.boxes == s.boxes;
  }

  /** A client that hangs up, or sends a code that is none, where the session waits for a code, or
      hangs up where it waits for a message, ends its session: once nobody has the box's mutex
      the session can leave, and its box and its file are as they were. */
  lemma SilentEnd(c: Config, s: Broker, t: nat, ev: Event) returns (s': Broker)
    requires t < |s.workers| && s.workers[t].Pub? && s.workers[t].box < |s.boxes|
    requires s.boxes[s.workers[t].box].mutex == NOBODY
    requires (s.workers[t].ppc == PTop && ev != Publish) || (s.workers[t].ppc == PMsg && ev == Hangup)
    ensures LeadsTo(c, s, s') && Ended(s, t, s')
  {
    var w, x := s.workers[t], s.boxes[s.workers[t].box];
    if w.ppc == PMsg {
      var s1 := PubMoves(c, s, t, Effect(w.(ppc := PBreak), x, s.fs, None));
      s' := BreakEnds(c, s1, t);
      hide Move;
      assert s1.boxes == s.boxes;
      LeadsOn(c, s, t, s1, s');
    } else {
      var s1 := PubMoves(c, s, t, Effect(w.(ppc := PCheck, ev := ev), x, s.fs, None));
      assert s1.boxes == s.boxes;
      s' := CheckEnds(c, s1, t);
      hide Move;
      LeadsOn(c, s, t, s1, s');
    }
  }

  /** It finds its box open or closed. */
  lemma CheckEnds(c: Config, s: Broker, t: nat) returns (s': Broker)
    requires t < |s.workers| && s.workers[t].Pub? && s.workers[t].box < |s.boxes|
    requires s.workers[t].ppc == PCheck && s.workers[t].ev != Publish && s.boxes[s.workers[t].box].mutex == NOBODY
    ensures LeadsTo(c, s, s') && Ended(s, t, s')
  {
    var w, x := s.workers[t], s.boxes[s.workers[t].box];
    if x.closed {
      s' := PubMoves(c, s, t, Effect(Idle, x.(nPubs := x.nPubs - 1), Close(s.fs, w.h), One));
      hide Move;
      LeadsNow(c, s');
      LeadsOn(c, s, t, s', s');
    } else {
      var s1 := PubMoves(c, s, t, Effect(w.(ppc := PBreak), x, s.fs, None));
      assert s1.boxes == s.boxes;
      s' := BreakEnds(c, s1, t);
      hide Move;
      LeadsOn(c, s, t, s1, s');
    }
  }

  // ---- signals and broadcasts -----------------------------------------------------------------

  /** Whether the step at this place wakes one sleeper of the box's condvar, or all of them. */
  predicate Signals(w: Worker) {
    (w.Sub? && w.spc == SExit) || (w.Pub? && w.ppc == PCheck)
  }

  predicate Broadcasts(w: Worker, x: Box) {
    || (w.Sub? && w.spc == SLeave)
    || (w.Pub? && (w.ppc == PBcast || w.ppc == PLeave))
    || (w.Rem? && w.rpc == RBcast && x.nSubs > 0)
  }

  /** At most one sleeper is woken, and one if there is any. */
  ghost predicate OneWoken(ws: seq<Worker>, t: nat, w': Worker, b: nat, ws': seq<Worker>)
    requires t < |ws|
  {
    || (ws' == ws[t := w'] && forall u :: 0 <= u < |ws| && u != t ==> !SleepsOn(ws[u], b))
    || exists v :: 0 <= v < |ws| && v != t && SleepsOn(ws[v], b) && ws' == ws[t := w'][v := Woken(ws[v])]
  }

  /** A session that finds its box closed wakes at most one sleeper, and one if there is any; a
      message, a session that leaves an open box after its open, and a remover with subscribers
      wake all of them; no other step wakes anybody. */
  lemma WakesExactly(c: Config, s: Broker, t: nat, s': Broker)
    requires Ok(c, s) && Move(c, s, t, s')
    ensures t < |s.workers| == |s'.workers| && HasBox(s.workers[t]) && s.workers[t].box < |s.boxes|
    ensures var w, b := s.workers[t], s.workers[t].box;
            if Broadcasts(w, s.boxes[b]) then
              forall u :: 0 <= u < |s.workers| && u != t ==> !SleepsOn(s'.workers[u], b)
            else if Signals(w) && s'.workers[t].Idle? then
              OneWoken(s.workers, t, Idle, b, s'.workers)
            else
              s'.workers == s.workers[t := s'.workers[t]]
  {
    var e, ws' :| MoveBy(c, s, t, e, ws', s');
    var w, b := s.workers[t], s.workers[t].box;
    assert WorkerOk(s, t) && BoxOk(s, b);
    assert !e.w.Crashed? && (e.w.Idle? || (HasBox(e.w) && e.w.box == b)) by { MoveOwn(c, s, t, e, ws', s'); }
    OwnWake(c, t, w, s.boxes[b], s.fs, e);
    hide LocalStep, Ok, Fits, Move, Broadcasts, Signals;
    WakeEffects(s.workers, t, e.w, b, e.wake, ws');
    hide Awoken;
  }

  lemma WakeEffects(ws: seq<Worker>, t: nat, w': Worker, b: nat, wake: Wake, ws': seq<Worker>)
    requires t < |ws| && Awoken(ws[t := w'], b, wake, ws') && (wake != None ==> !SleepsOn(w', b))
    ensures |ws'| == |ws| && (wake != None ==> ws'[t] == w')
    ensures wake == All ==> forall u :: 0 <= u < |ws| && u != t ==> !SleepsOn(ws'[u], b)
    ensures wake == One ==> OneWoken(ws, t, w', b, ws')
    ensures wake == None ==> ws' == ws[t := w']
  {
    var ws1 := ws[t := w'];
    if wake == One {
      if ws' == ws1 && forall u :: 0 <= u < |ws1| ==> !SleepsOn(ws1[u], b) {
        forall u | 0 <= u < |ws| && u != t ensures !SleepsOn(ws[u], b) { assert ws1[u] == ws[u]; }
      } else {
        var v :| 0 <= v < |ws1| && SleepsOn(ws1[v], b) && ws' == ws1[v := Woken(ws1[v])];
        assert v != t && ws1[v] == ws[v];
      }
    }
  }

  lemma OwnWake(c: Config, t: nat, w: Worker, x: Box, fs: Fs, e: Effect)
    requires HasBox(w) && LocalStep(c, t, w, x, fs, e) && !e.w.Crashed?
    ensures Broadcasts(w, x) ==> e.wake == All && !SleepsOn(e.w, w.box)
    ensures Signals(w) && e.w.Idle? ==> e.wake == One
    ensures !Broadcasts(w, x) && !(Signals(w) && e.w.Idle?) ==> e.wake == None
  {
  }
}

/** Delivery is eventual. While clients are silent the broker comes to rest, and at rest
    every subscriber has been sent the whole file and no removal is under way. */
module BrokerRest {
  import opened Counting
  import opened BrokerFs
  import opened BrokerSystem
  import opened BrokerControl
  import opened BrokerFiles
  import opened BrokerBaton
  import opened BrokerDelivery
  import opened BrokerRemoval
  import opened BrokerRuns

  // ---- at rest -----------------------------------------------------------------------------

  /** A step that no client has to ask for. */
  ghost predicate OwnStep(c: Config, s: Broker, s': Broker) {
    exists t: nat :: t < |s.workers| && HasBox(s.workers[t]) && s.workers[t].box < |s.boxes|
                     && Unblocked(s.workers[t], s.boxes[s.workers[t].box]) && Move(c, s, t, s')
  }

  lemma StepsAlone(c: Config, s: Broker, t: nat, e: Effect)
    requires t < |s.workers| && HasBox(s.workers[t]) && s.workers[t].box < |s.boxes|
    requires Unblocked(s.workers[t], s.boxes[s.workers[t].box])
    requires LocalStep(c, t, s.workers[t], s.boxes[s.workers[t].box], s.fs, e)
    ensures exists s' :: OwnStep(c, s, s')
  {
    var ws' := AwokenExists(s.workers[t := e.w], s.workers[t].box, e.wake);
    hide LocalStep, Awoken;
    var s' := Applied(s, t, e, ws');
    assert MoveBy(c, s, t, e, ws', s');
    assert Move(c, s, t, s');
    assert OwnStep(c, s, s');
  }

  /** Who is awake, with a free mutex or the mutex, can step. */
  lemma AwakeSteps(c: Config, s: Broker, t: nat)
    requires Ok(c, s) && t < |s.workers| && HasBox(s.workers[t]) && s.workers[t].box < |s.boxes|
    requires s.boxes[s.workers[t].box].mutex == NOBODY || Holds(s.workers[t])
    requires !SleepsOn(s.workers[t], s.workers[t].box) && Unblocked(s.workers[t], s.boxes[s.workers[t].box])
    ensures exists s' :: OwnStep(c, s, s')
  {
    var w := s.workers[t];
    var x := s.boxes[w.box];
    assert WorkerOk(s, t) && WorkerFiles(c, s, t);
    hide Ok, SubStep, PubStep;
    var e: Effect;
    if w.Sub? {
      e := SubCan(c, t, w, x, s.fs);
    } else if w.Pub? {
      e := PubCan(c, t, w, x, s.fs);
    } else if w.rpc == RLock {
      e := Effect(w.(rpc := RPubTest), x.(closed := true, mutex := t, poked := x.nPubs > 0), s.fs, None);
    } else {
      hide RemStep;
      e := RemCan(t, w, x, s.fs);
    }
    StepsAlone(c, s, t, e);
  }

  ghost predicate AtRest(c: Config, s: Broker) {
    forall s' :: !OwnStep(c, s, s')
  }

  lemma MutexesFree(c: Config, s: Broker, b: nat)
    requires Ok(c, s) && AtRest(c, s) && b < |s.boxes|
    ensures s.boxes[b].mutex == NOBODY
  {
    assert BoxOk(s, b);
    if s.boxes[b].mutex != NOBODY { AwakeSteps(c, s, s.boxes[b].mutex); }
  }

  lemma ClosingSteps(c: Config, s: Broker, b: nat)
    requires AmpleOk(c, s) && Closing(s, b)
    ensures exists s' :: OwnStep(c, s, s')
  {
    CanGoOn(c, s, b);
    var t: nat, s' :| t < |s.workers| && HasBox(s.workers[t]) && s.workers[t].box == b
                      && Unblocked(s.workers[t], s.boxes[b]) && Move(c, s, t, s');
    hide Move;
    assert OwnStep(c, s, s');
  }

  lemma NobodyRemoves(c: Config, s: Broker)
    requires AmpleOk(c, s) && AtRest(c, s)
    ensures s.table == NOBODY
  {
    if s.table != NOBODY {
      var r := s.table;
      assert WorkerOk(s, r);
      var b := s.workers[r].box;
      MutexesFree(c, s, b);
      if s.workers[r].rpc == RLock {
        AwakeSteps(c, s, r);
      } else {
        ClosingSteps(c, s, b);
      }
    }
  }

  /** At rest publishers wait for their clients, subscribers sleep and have been sent all that
      their box's file holds, and a remover sleeps. (With no more workers than handles there
      is none: NobodyRemoves.) */
  lemma RestIsDelivery(c: Config, s: Broker, t: nat)
    requires Ok(c, s) && AtRest(c, s) && t < |s.workers|
    ensures s.workers[t].Rem? ==> SleepsOn(s.workers[t], s.workers[t].box)
    ensures s.workers[t].Pub? ==> s.workers[t].ppc == PTop
    ensures s.workers[t].Sub? ==>
              && s.workers[t].spc == SSleep && s.workers[t].box < |s.boxes|
              && Flat(s.workers[t].sent) == Content(s.fs, s.boxes[s.workers[t].box].inode)
  {
    assert WorkerOk(s, t);
    if HasBox(s.workers[t]) {
      var b := s.workers[t].box;
      MutexesFree(c, s, b);
      if !SleepsOn(s.workers[t], b) && Unblocked(s.workers[t], s.boxes[b]) { AwakeSteps(c, s, t); }
      if s.workers[t].Sub? {
        NoMissedMessage(c, s, t);
        if p :| 0 <= p < |s.workers| && Announces(s.workers[p], b) { AwakeSteps(c, s, p); }
      }
    }
  }

  // ---- the broker comes to rest ----------------------------------------------------------

  function SubSteps(pc: SubPc): nat {
    match pc
    case SOpen => 5
    case SSend => 5
    case STop => 4
    case SWoken => 4
    case SRead => 3
    case SWait => 2
    case SBreak => 2
    case SSleep => 1
    case SExit => 1
    case SLeave => 1
    case SOpenFail => 1
  }

  function PubSteps(weight: nat, pc: PubPc, closed: bool): nat {
    match pc
    case PCheck => if closed then 3 * weight else 10 * weight
    case PMsg => 9 * weight
    case PWrite => 8 * weight
    case PBcast => 7 * weight
    case POpen => 5 * weight
    case PTop => 4 * weight
    case PBreak => 4 * weight
    case PLeave => 3 * weight
    case POpenFail => 3 * weight
  }

  function Left(sent: nat, published: nat): nat {
    if sent < published then published - sent else 0
  }

  /** How far a session is from rest: what it has left to send and to do, and what its
      leaving costs. A publisher's step may wake or feed everybody, so it weighs more. */
  function Potential(weight: nat, w: Worker, x: Box): nat {
    if w.Sub? then 3 * weight + SubSteps(w.spc) + 4 * Left(|Pieces(w)|, |x.published|)
    else if w.Pub? then PubSteps(weight, w.ppc, x.closed)
    else 0
  }

  function Potentials(weight: nat, boxes: seq<Box>): Worker -> nat {
    (w: Worker) => if HasBox(w) && w.box < |boxes| then Potential(weight, w, boxes[w.box]) else 0
  }

  function Weight(s: Broker): nat {
    4 * |s.workers| + 1
  }

  function Work(s: Broker): nat {
    Sum(s.workers, Potentials(Weight(s), s.boxes)) + Weight(s) * RemoverRank(s.workers, s.table)
  }

  /** What a step of a session can cost: four for everybody if there is a message more,
      three for everybody and two for a remover if it wakes them. */
  function Cost(x: Box, e: Effect, n: nat): nat {
    (if |e.box.published| > |x.published| then 4 * n else 0) + (if e.wake != None then 3 * n + 2 * (4 * n + 1) else 0)
  }

  /** A session's step pays its cost out of its potential. */
  predicate Pays(w: Worker, x: Box, e: Effect, n: nat) {
    && e.box.closed == x.closed && |x.published| <= |e.box.published| <= |x.published| + 1
    && Potential(4 * n + 1, w, e.box) > Potential(4 * n + 1, e.w, e.box) + Cost(x, e, n)
  }

  lemma SubPays(c: Config, t: nat, w: Worker, x: Box, fs: Fs, e: Effect, n: nat)
    requires w.Sub? && Fits(t, w, x) && Keeps(c, w, x, fs) && SubStep(c, t, w, x, fs, e)
    requires e.w.Sub? ==> |Pieces(e.w)| <= |e.box.published|
    ensures Pays(w, x, e, n)
  {
  }

  lemma PubPays(c: Config, t: nat, w: Worker, x: Box, fs: Fs, e: Effect, n: nat)
    requires w.Pub? && Unfailed(w) && PubStep(c, t, w, x, fs, e)
    requires Unblocked(w, x) && (x.poked ==> x.closed)
    requires n > 0
    ensures Pays(w, x, e, n)
  {
    hide WriteData, Open;
  }

  lemma RemPays(t: nat, w: Worker, x: Box, fs: Fs, e: Effect)
    requires w.Rem? && Fits(t, w, x) && RemStep(t, w, x, fs, e)
    ensures RemRank(w.rpc) > 0 && (e.w.Idle? || (e.w.Rem? && RemRank(e.w.rpc) < RemRank(w.rpc)))
    ensures e.wake == None || !SleepsOn(e.w, w.box)
    ensures e.box.published == x.published && (x.closed ==> e.box.closed)
  {
  }

  lemma {:induction false} SumRaise<T>(s: seq<T>, s': seq<T>, f: T -> nat, f': T -> nat, most: nat)
    requires |s'| == |s| && forall i :: 0 <= i < |s| ==> f'(s'[i]) <= f(s[i]) + most
    ensures Sum(s', f') <= Sum(s, f) + most * |s|
  {
    if s != [] {
      forall i | 0 <= i < |s| - 1 ensures f'(s'[1..][i]) <= f(s[1..][i]) + most {
        assert s[1..][i] == s[i + 1] && s'[1..][i] == s'[i + 1];
      }
      SumRaise(s[1..], s'[1..], f, f', most);
      assert most * |s| == most * (|s| - 1) + most;
    }
  }

  /** Waking brings every session at most three steps further from rest. */
  lemma WakingPotential(weight: nat, boxes: seq<Box>, ws: seq<Worker>, b: nat, wake: Wake, ws': seq<Worker>)
    requires Awoken(ws, b, wake, ws')
    ensures Sum(ws', Potentials(weight, boxes)) <=
            Sum(ws, Potentials(weight, boxes)) + if wake == None then 0 else 3 * |ws|
  {
    AwokenEach(ws, b, wake, ws');
    if wake != None { SumRaise(ws, ws', Potentials(weight, boxes), Potentials(weight, boxes), 3); }
  }

  /** A message more gives every session four steps more, or less if the box is closed. */
  lemma FeedingPotential(weight: nat, boxes: seq<Box>, ws: seq<Worker>, b: nat, x: Box, grows: nat)
    requires b < |boxes| && (boxes[b].closed ==> x.closed) && |x.published| <= |boxes[b].published| + grows
    ensures Sum(ws, Potentials(weight, boxes[b := x])) <= Sum(ws, Potentials(weight, boxes)) + 4 * grows * |ws|
  {
    SumRaise(ws, ws, Potentials(weight, boxes), Potentials(weight, boxes[b := x]), 4 * grows);
  }

  lemma Times(weight: nat, r: nat, r': nat, d: int)
    requires r' <= r + d
    ensures weight * r' <= weight * r + weight * d
  {
    assert weight * (r + d - r') >= 0;
    assert weight * (r + d) == weight * r' + weight * (r + d - r');
  }

  /** The potentials before and after a session's step, by way of its box and of whom it wakes. */
  lemma SessionSum(weight: nat, ws: seq<Worker>, boxes: seq<Box>, t: nat, e: Effect, b: nat, ws': seq<Worker>)
    requires t < |ws| && HasBox(ws[t]) && ws[t].box == b < |boxes| && Awoken(ws[t := e.w], b, e.wake, ws')
    requires e.w.Idle? || (HasBox(e.w) && e.w.box == b)
    requires e.box.closed == boxes[b].closed && |boxes[b].published| <= |e.box.published| <= |boxes[b].published| + 1
    ensures Sum(ws', Potentials(weight, boxes[b := e.box])) + Potential(weight, ws[t], e.box)
         <= Sum(ws, Potentials(weight, boxes)) + Potential(weight, e.w, e.box)
            + (if |e.box.published| > |boxes[b].published| then 4 * |ws| else 0)
            + (if e.wake == None then 0 else 3 * |ws|)
  {
    var f' := Potentials(weight, boxes[b := e.box]);
    var grows := if |e.box.published| > |boxes[b].published| then 1 else 0;
    assert f'(ws[t]) == Potential(weight, ws[t], e.box) && f'(e.w) == Potential(weight, e.w, e.box);
    FeedingPotential(weight, boxes, ws, b, e.box, grows);
    SumUpdate(ws, t, e.w, f');
    WakingPotential(weight, boxes[b := e.box], ws[t := e.w], b, e.wake, ws');
  }

  lemma Balance(n: nat, before: nat, after: nat, paid: nat, kept: nat, grows: bool, wakes: bool, rank: nat, rank': nat)
    requires after + paid <= before + kept + (if grows then 4 * n else 0) + (if wakes then 3 * n else 0)
    requires paid > kept + (if grows then 4 * n else 0) + (if wakes then 3 * n + 2 * (4 * n + 1) else 0)
    requires rank' <= rank + if wakes then 2 else 0
    ensures after + (4 * n + 1) * rank' < before + (4 * n + 1) * rank
  {
    var weight := 4 * n + 1;
    if wakes {
      Times(weight, rank, rank', 2);
      assert weight * 2 == 2 * weight;
    } else {
      Times(weight, rank, rank', 0);
    }
  }

  lemma SameRemover(ws: seq<Worker>, t: nat, w': Worker, r: int)
    requires t < |ws| && !ws[t].Rem? && !w'.Rem?
    ensures RemoverRank(ws[t := w'], r) == RemoverRank(ws, r)
  {
  }

  lemma SessionLowers(ws: seq<Worker>, boxes: seq<Box>, t: nat, e: Effect, b: nat, ws': seq<Worker>, r: int)
    requires t < |ws| && HasBox(ws[t]) && ws[t].box == b < |boxes| && Awoken(ws[t := e.w], b, e.wake, ws')
    requires !ws[t].Rem? && !e.w.Rem? && (e.w.Idle? || (HasBox(e.w) && e.w.box == b))
    requires Pays(ws[t], boxes[b], e, |ws|)
    ensures var weight := 4 * |ws| + 1;
            Sum(ws', Potentials(weight, boxes[b := e.box])) + weight * RemoverRank(ws', r)
            < Sum(ws, Potentials(weight, boxes)) + weight * RemoverRank(ws, r)
  {
    var n, weight := |ws|, 4 * |ws| + 1;
    hide Potential, Potentials, Awoken, RemoverRank;
    SessionSum(weight, ws, boxes, t, e, b, ws');
    RemoverWaits(ws[t := e.w], b, e.wake, ws', r);
    SameRemover(ws, t, e.w, r);
    Balance(n, Sum(ws, Potentials(weight, boxes)), Sum(ws', Potentials(weight, boxes[b := e.box])),
            Potential(weight, ws[t], e.box), Potential(weight, e.w, e.box),
            |e.box.published| > |boxes[b].published|, e.wake != None,
            RemoverRank(ws, r), RemoverRank(ws', r));
  }

  lemma SessionWork(c: Config, s: Broker, t: nat, e: Effect, ws': seq<Worker>, s': Broker)
    requires MoveBy(c, s, t, e, ws', s') && !s.workers[t].Rem? && !e.w.Rem?
    requires e.w.Idle? || (HasBox(e.w) && e.w.box == s.workers[t].box)
    requires Pays(s.workers[t], s.boxes[s.workers[t].box], e, |s.workers|)
    ensures Work(s') < Work(s)
  {
    hide LocalStep, Pays, Potentials, RemoverRank;
    SessionLowers(s.workers, s.boxes, t, e, s.workers[t].box, ws', s.table);
    assert |ws'| == |s.workers|;
    hide Awoken;
  }

  lemma RemoverWaits(ws: seq<Worker>, b: nat, wake: Wake, ws': seq<Worker>, r: int)
    requires Awoken(ws, b, wake, ws')
    ensures RemoverRank(ws', r) <= RemoverRank(ws, r) + if wake == None then 0 else 2
  {
    WakingRanks(ws, b, wake, ws', b, r);
  }

  lemma RemoverWork(c: Config, s: Broker, t: nat, e: Effect, ws': seq<Worker>, s': Broker)
    requires ControlOk(s) && MoveBy(c, s, t, e, ws', s') && s.workers[t].Rem?
    ensures Work(s') < Work(s)
  {
    var w, b, n, weight := s.workers[t], s.workers[t].box, |s.workers|, Weight(s);
    var ws1 := s.workers[t := e.w];
    var f' := Potentials(weight, s'.boxes);
    assert WorkerOk(s, t) && s.table == t;
    RemPays(t, w, s.boxes[b], s.fs, e);
    hide LocalStep, ControlOk;
    assert |ws'| == n && Weight(s') == weight;
    assert f'(w) == 0 && f'(e.w) == 0;
    FeedingPotential(weight, s.boxes, s.workers, b, e.box, 0);
    SumUpdate(s.workers, t, e.w, f');
    WakingPotential(weight, s'.boxes, ws1, b, e.wake, ws');
    WakingRanks(ws1, b, e.wake, ws', b, t);
    assert RemoverRank(ws', s'.table) <= RemoverRank(s.workers, t) - 1;
    hide Awoken, RemoverRank, Potentials;
    Times(weight, RemoverRank(s.workers, t), RemoverRank(ws', s'.table), -1);
  }

  lemma OwnFacts(c: Config, s: Broker, t: nat)
    requires Ok(c, s) && t < |s.workers| && HasBox(s.workers[t])
    ensures s.workers[t].box < |s.boxes|
    ensures var w, x := s.workers[t], s.boxes[s.workers[t].box];
            Fits(t, w, x) && Keeps(c, w, x, s.fs) && Unfailed(w) && (x.poked ==> x.closed)
  {
    assert WorkerOk(s, t) && WorkerFiles(c, s, t) && BoxOk(s, s.workers[t].box);
  }

  lemma PiecesAfter(c: Config, s: Broker, t: nat, e: Effect, ws': seq<Worker>, s': Broker)
    requires Ok(c, s) && MoveBy(c, s, t, e, ws', s')
    ensures e.w.Sub? ==> |Pieces(e.w)| <= |e.box.published|
  {
    MoveDeliversOwn(c, s, t, e, ws', s');
    GotPieces(c, e.w, e.box, e.fs);
  }

  lemma SessionPays(c: Config, s: Broker, t: nat, e: Effect, ws': seq<Worker>, s': Broker)
    requires Ok(c, s) && MoveBy(c, s, t, e, ws', s') && Unblocked(s.workers[t], s.boxes[s.workers[t].box])
    requires !s.workers[t].Rem?
    ensures Pays(s.workers[t], s.boxes[s.workers[t].box], e, |s.workers|)
  {
    hide Ok, SubStep, PubStep, RemStep, Pays, Keeps, Fits, Awoken;
    OwnFacts(c, s, t);
    PiecesAfter(c, s, t, e, ws', s');
    if s.workers[t].Sub? {
      SubPays(c, t, s.workers[t], s.boxes[s.workers[t].box], s.fs, e, |s.workers|);
    } else {
      PubPays(c, t, s.workers[t], s.boxes[s.workers[t].box], s.fs, e, |s.workers|);
    }
  }

  lemma StaysSession(c: Config, s: Broker, t: nat, e: Effect, ws': seq<Worker>, s': Broker)
    requires Ok(c, s) && MoveBy(c, s, t, e, ws', s') && !s.workers[t].Rem?
    ensures !e.w.Rem?
  {
    OwnFacts(c, s, t);
    hide Ok;
  }

  lemma MoveWork(c: Config, s: Broker, t: nat, e: Effect, ws': seq<Worker>, s': Broker)
    requires Ok(c, s) && MoveBy(c, s, t, e, ws', s') && Unblocked(s.workers[t], s.boxes[s.workers[t].box])
    ensures Work(s') < Work(s)
  {
    MoveOwn(c, s, t, e, ws', s');
    hide FilesOk, DeliveryOk, Work, LocalStep, Awoken, Pays, FilesMove, Stored, Keeps;
    if s.workers[t].Rem? {
      RemoverWork(c, s, t, e, ws', s');
    } else {
      SessionPays(c, s, t, e, ws', s');
      StaysSession(c, s, t, e, ws', s');
      SessionWork(c, s, t, e, ws', s');
    }
  }

  lemma GotPieces(c: Config, w: Worker, x: Box, fs: Fs)
    requires Got(c, w, x, fs)
    ensures w.Sub? ==> |Pieces(w)| <= |x.published|
  {
  }

  // ---- runs in which the clients are silent -------------------------------------------------

  ghost predicate SilentRun(c: Config, states: seq<Broker>) {
    |states| > 0 && forall k :: 0 < k < |states| ==> OwnStep(c, states[k - 1], states[k])
  }

  lemma OwnStepWorks(c: Config, s: Broker, s': Broker)
    requires Ok(c, s) && OwnStep(c, s, s')
    ensures Ok(c, s') && Work(s') < Work(s)
  {
    hide Ok, Work, LocalStep, Awoken;
    var t: nat :| t < |s.workers| && HasBox(s.workers[t]) && s.workers[t].box < |s.boxes|
                  && Unblocked(s.workers[t], s.boxes[s.workers[t].box]) && Move(c, s, t, s');
    MoveOk(c, s, t, s');
    var e, ws' :| MoveBy(c, s, t, e, ws', s');
    MoveWork(c, s, t, e, ws', s');
  }

  lemma OwnStepAmple(c: Config, s: Broker, s': Broker)
    requires AmpleOk(c, s) && OwnStep(c, s, s')
    ensures AmpleOk(c, s')
  {
    hide AmpleOk, Move;
    var t: nat :| t < |s.workers| && HasBox(s.workers[t]) && s.workers[t].box < |s.boxes|
                  && Unblocked(s.workers[t], s.boxes[s.workers[t].box]) && Move(c, s, t, s');
    assert Next(c, s, s');
    NextAmple(c, s, s');
  }

  /** From any reachable state, steps that no client asks for come to an end; and when
      they have, every subscriber has been sent its box's whole file and, with no more
      workers than handles, every removal that was under way is over. */
  lemma {:induction false} DeliveryIsEventual(c: Config, states: seq<Broker>)
    requires SilentRun(c, states) && Ok(c, states[0])
    ensures var s := states[|states| - 1];
            && Ok(c, s) && Work(s) + |states| - 1 <= Work(states[0])
            && (AtRest(c, s) ==>
                  forall t: nat :: t < |s.workers| && s.workers[t].Sub? && s.workers[t].box < |s.boxes| ==>
                    Flat(s.workers[t].sent) == Content(s.fs, s.boxes[s.workers[t].box].inode))
            && (AmpleOk(c, states[0]) ==> AmpleOk(c, s) && (AtRest(c, s) ==> s.table == NOBODY))
  {
    hide Ok, AmpleOk, Work, OwnStep, AtRest;
    var n := |states| - 1;
    if n > 0 {
      DeliveryIsEventual(c, states[..n]);
      assert OwnStep(c, states[n - 1], states[n]);
      OwnStepWorks(c, states[n - 1], states[n]);
      if AmpleOk(c, states[n - 1]) { OwnStepAmple(c, states[n - 1], states[n]); }
    }
    var s := states[n];
    if AtRest(c, s) {
      if AmpleOk(c, s) { NobodyRemoves(c, s); }
      forall t: nat | t < |s.workers| && s.workers[t].Sub? && s.workers[t].box < |s.boxes|
        ensures Flat(s.workers[t].sent) == Content(s.fs, s.boxes[s.workers[t].box].inode)
      {
        RestIsDelivery(c, s, t);
      }
    }
  }
}

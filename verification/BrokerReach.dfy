/** Building runs of the broker: states with one box in use, and the steps between them. */
module BrokerReach {
  import opened Counting
  import opened TfsTypes
  import opened BrokerFs
  import TfsSpec
  import opened BrokerSystem

  /** Some run with n workers and k slots ends in this state. */
  ghost predicate Reachable(c: Config, n: nat, k: nat, s: Broker) {
    exists states: seq<Broker> :: RunTo(c, n, k, states, s)
  }

  ghost predicate RunTo(c: Config, n: nat, k: nat, states: seq<Broker>, s: Broker) {
    && IsRun(c, states) && |states[0].workers| == n && |states[0].boxes| == k
    && states[|states| - 1] == s
  }

  lemma Extends(c: Config, n: nat, k: nat, s: Broker, s': Broker)
    requires Reachable(c, n, k, s) && Next(c, s, s')
    ensures Reachable(c, n, k, s')
  {
    hide Next, Init;
    var states :| RunTo(c, n, k, states, s);
    assert RunTo(c, n, k, states + [s'], s');
  }

  // ---- the states of the run -----------------------------------------------------------

  const NAME: Name := [98]
  const EMPTY := Box(FREE, [], 0, 0, 0, false, NOBODY, 0, [], false, false)

  /** The remover, if any, is one of the first two workers. */
  function Remover(ws: seq<Worker>): int {
    if |ws| > 0 && ws[0].Rem? then 0 else if |ws| > 1 && ws[1].Rem? then 1 else NOBODY
  }

  /** Slot 0 and the files as given, the other slots free. */
  function State(k: nat, x: Box, fs: Fs, ws: seq<Worker>): Broker
    requires k > 0
  {
    Broker(seq(k, _ => EMPTY)[0 := x], Remover(ws), if x.taken == TAKEN then 1 else 0, ws, fs)
  }

  function Slot(nSubs: int, nPubs: int, mutex: int, closed: bool, swept: bool): Box {
    Box(TAKEN, NAME, nSubs, nPubs, 0, closed, mutex, 1, [], false, swept)
  }

  /** The box's file is empty, and these handles are open on it: first to next - 1. */
  function Files(first: nat, next: nat): Fs {
    Fs(map[NAME := 1], map[1 := []], map h | h in Range(next) - Range(first) :: OpenFile(1, 0))
  }

  function Reader(pc: SubPc, h: int): Worker {
    Sub(pc, 0, h, [], [])
  }

  function Writer(pc: PubPc): Worker {
    Pub(pc, 0, if pc == POpen then FAILED else 0, Hangup, [])
  }

  /** Worker 0, subscribers 1 to j with a handle each, worker m, and idle ones. */
  function Crowd(n: nat, first: Worker, j: nat, m: nat, last: Worker): seq<Worker> {
    seq(n, i requires 0 <= i < n =>
      if i == 0 then first else if i <= j then Reader(STop, i) else if i == m then last else Idle)
  }

  predicate Awake(ws: seq<Worker>) {
    forall u :: 0 <= u < |ws| ==> !SleepsOn(ws[u], 0)
  }

  /** A step at slot 0 that wakes nobody. */
  lemma QuietMove(c: Config, k: nat, ws: seq<Worker>, t: nat, x: Box, fs: Fs, e: Effect)
    requires k > 0 && t < |ws| && HasBox(ws[t]) && ws[t].box == 0
    requires x.taken == TAKEN && e.box.taken == TAKEN && e.w.Rem? == ws[t].Rem? && (ws[t].Rem? ==> t == Remover(ws))
    requires LocalStep(c, t, ws[t], x, fs, e)
    requires e.wake == None || Awake(ws[t := e.w])
    ensures Move(c, State(k, x, fs, ws), t, State(k, e.box, e.fs, ws[t := e.w]))
  {
    var s, s' := State(k, x, fs, ws), State(k, e.box, e.fs, ws[t := e.w]);
    hide LocalStep;
    assert Awoken(ws[t := e.w], 0, e.wake, ws[t := e.w]);
    assert s'.boxes == s.boxes[0 := e.box];
    assert MoveBy(c, s, t, e, ws[t := e.w], s');
  }

  lemma QuietStep(c: Config, n: nat, k: nat, ws: seq<Worker>, t: nat, x: Box, fs: Fs, e: Effect)
    requires k > 0 && t < |ws| && HasBox(ws[t]) && ws[t].box == 0
    requires x.taken == TAKEN && e.box.taken == TAKEN && e.w.Rem? == ws[t].Rem? && (ws[t].Rem? ==> t == Remover(ws))
    requires LocalStep(c, t, ws[t], x, fs, e)
    requires e.wake == None || Awake(ws[t := e.w])
    requires Reachable(c, n, k, State(k, x, fs, ws))
    ensures Reachable(c, n, k, State(k, e.box, e.fs, ws[t := e.w]))
  {
    hide LocalStep, Reachable, State, Move;
    QuietMove(c, k, ws, t, x, fs, e);
    Extends(c, n, k, State(k, x, fs, ws), State(k, e.box, e.fs, ws[t := e.w]));
  }

  lemma NextHandle(next: nat, n: nat)
    requires next <= n
    ensures TfsSpec.LeastUnused(Files(0, next).handles.Keys, n) == if next < n then next else -1
  {
    var used := Files(0, next).handles.Keys;
    assert forall h :: h in used <==> 0 <= h < next;
    var r := TfsSpec.LeastUnused(used, n);
    if next < n { assert next !in used; }
  }
}

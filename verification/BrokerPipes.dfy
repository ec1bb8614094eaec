/** The broker with its publishers' pipes. A session opens its client's FIFO for reading
    before it registers, copies the FIFO's path to the box after it has opened the box's file,
    and closes its end before it deregisters; clients make and unlink FIFOs at any time; a
    remover that closes a box with a publisher opens the path it finds at the box and writes
    a code, with the box's mutex held; whoever reads that FIFO may read the code. */
module BrokerPipes {
  import opened Counting
  import opened TfsTypes
  import opened BrokerFs
  import opened BrokerSystem
  import opened BrokerControl
  import opened BrokerFiles
  import opened BrokerRemoval
  import opened BrokerRuns

  type Path = CString

  const CLOSED := -1

  /** The path a worker's session was started with, the FIFO whose read end it has open, and
      whether it has copied the path to its box. A path can come to lead to another FIFO. */
  datatype End = End(path: Path, fifo: int, copied: bool)

  /** box_remove, p2/mbroker/data.c:133-137: about to look up the path, in open until
      somebody reads the FIFO, about to write; or not there. */
  datatype Poke = NoPoke | Looking | Waiting(fifo: nat) | Writing(fifo: nat)

  /** The broker; the FIFOs there are; an end for each worker; pub_pipe_name of each box; for
      each FIFO, the removers' codes that nobody has read. */
  datatype Piped = Piped(s: Broker, fifos: map<Path, nat>, ends: seq<End>, names: seq<Path>, poke: Poke,
                         codes: multiset<int>)

  ghost predicate Read(x: Piped, f: int) {
    exists u :: 0 <= u < |x.ends| && x.ends[u].fifo == f
  }

  // ---- steps -----------------------------------------------------------------------------

  /** mkfifo, of a FIFO that nobody has seen. */
  ghost predicate ClientMakes(x: Piped, p: Path, f: nat, x': Piped) {
    && p != [] && p !in x.fifos && f !in x.fifos.Values && !Read(x, f)
    && x.poke != Waiting(f) && x.poke != Writing(f) && f !in x.codes
    && x' == x.(fifos := x.fifos[p := f])
  }

  predicate ClientUnlinks(x: Piped, p: Path, x': Piped) {
    x' == x.(fifos := x.fifos - {p})
  }

  /** What nobody reads may be lost: it is, when the last writer closes its end too. */
  ghost predicate Drains(x: Piped, f: nat, x': Piped) {
    !Read(x, f) && x' == x.(codes := x.codes[f := 0])
  }

  /** The open of p2/mbroker/mbroker.c:176 returns. */
  predicate OpensEnd(x: Piped, t: nat, p: Path, x': Piped) {
    && t < |x.s.workers| && t < |x.ends| && x.s.workers[t].Idle? && x.ends[t].fifo == CLOSED
    && p in x.fifos
    && x' == x.(ends := x.ends[t := End(p, x.fifos[p], false)])
  }

  /** Line 182, for a session that is refused. */
  predicate ClosesEnd(x: Piped, t: nat, x': Piped) {
    && t < |x.s.workers| && t < |x.ends| && x.s.workers[t].Idle?
    && x' == x.(ends := x.ends[t := x.ends[t].(fifo := CLOSED)])
  }

  /** The publisher closes its end with this step: lines 187, 210 and 247. */
  predicate Closes(w: Worker, w': Worker) {
    w.Pub? && (w'.Idle? || (w'.Pub? && (w'.ppc == POpenFail || w'.ppc == PLeave)))
  }

  /** The path is copied before the first code is read, and a remover tests the number of
      publishers after its write. */
  predicate Allows(x: Piped, t: nat)
    requires t < |x.s.workers| && t < |x.ends|
  {
    && (x.s.workers[t].Pub? && x.s.workers[t].ppc == PTop ==> x.ends[t].copied)
    && (x.s.workers[t].Rem? && x.s.workers[t].rpc == RPubTest ==> x.poke == NoPoke)
  }

  /** The remover closes a box that has a publisher. */
  predicate Pokes(s: Broker, t: nat)
    requires t < |s.workers|
  {
    var w := s.workers[t];
    w.Rem? && w.rpc == RLock && w.box < |s.boxes| && s.boxes[w.box].nPubs > 0
  }

  /** A session reads from its client's FIFO: lines 204 and 230. */
  predicate Reads(w: Worker) {
    w.Pub? && (w.ppc == PTop || w.ppc == PMsg)
  }

  /** A read finds what the client has written or n codes of removers. Where a code is wanted it
      takes one; a message that is shorter than the read, as the messages of p2/publisher/pub.c:74
      are, takes codes that follow it along. */
  predicate Takes(x: Piped, t: nat, w': Worker, n: nat)
    requires t < |x.s.workers| && t < |x.ends|
  {
    var w := x.s.workers[t];
    n > 0 ==>
      && w.Pub? && w'.Pub? && n <= x.codes[x.ends[t].fifo]
      && if w.ppc == PTop then n == 1 && w'.ev == Publish else w.ppc == PMsg && w'.ppc == PWrite
  }

  ghost predicate PipedMove(c: Config, x: Piped, t: nat, n: nat, x': Piped) {
    && t < |x.s.workers| && t < |x.ends| && t < |x'.s.workers| && Allows(x, t) && Takes(x, t, x'.s.workers[t], n)
    && Move(c, x.s, t, x'.s)
    && x' == x.(s := x'.s,
                ends := if Closes(x.s.workers[t], x'.s.workers[t]) then x.ends[t := x.ends[t].(fifo := CLOSED)]
                        else x.ends,
                poke := if Pokes(x.s, t) then Looking else x.poke,
                codes := Without(x.codes, x.ends[t].fifo, n))
  }

  function Without(codes: multiset<int>, f: int, n: nat): multiset<int> {
    if n <= codes[f] then codes[f := codes[f] - n] else codes
  }

  ghost predicate Registers(s: Broker, t: nat, s': Broker) {
    exists b, name :: AddPub(s, t, b, name, s')
  }

  ghost predicate OthersEnter(s: Broker, t: nat, s': Broker) {
    || (exists b, name :: AddSub(s, t, b, name, s'))
    || (exists b, name :: StartRemove(s, t, b, name, s'))
  }

  ghost predicate Creates(c: Config, s: Broker, t: nat, b: nat, s': Broker) {
    exists name, newId: nat, room :: Create(c, s, t, b, name, newId, room, s')
  }

  /** A publisher's session registers with its end open; box_create clears the path. */
  ghost predicate PipedEnter(c: Config, x: Piped, t: nat, x': Piped) {
    && t < |x.s.workers| && t < |x.ends|
    && (|| (x.ends[t].fifo != CLOSED && Registers(x.s, t, x'.s) && x' == x.(s := x'.s))
        || (x.ends[t].fifo == CLOSED && OthersEnter(x.s, t, x'.s) && x' == x.(s := x'.s))
        || (x.ends[t].fifo == CLOSED && PipedCreate(c, x, t, x')))
  }

  ghost predicate PipedCreate(c: Config, x: Piped, t: nat, x': Piped) {
    exists b: nat :: b < |x.names| && Creates(c, x.s, t, b, x'.s) && x' == x.(s := x'.s, names := x.names[b := []])
  }

  predicate PipedSpurious(x: Piped, t: nat, x': Piped) {
    Spurious(x.s, t, x'.s) && x' == x.(s := x'.s)
  }

  /** Line 195. */
  predicate Copies(x: Piped, t: nat, x': Piped) {
    && t < |x.s.workers| && t < |x.ends| && x.s.workers[t].Pub? && x.s.workers[t].ppc == PTop && !x.ends[t].copied
    && x.s.workers[t].box < |x.names|
    && x' == x.(names := x.names[x.s.workers[t].box := x.ends[t].path], ends := x.ends[t := x.ends[t].(copied := true)])
  }

  /** The box whose remover is at lines 133-137. */
  function PokedBox(x: Piped): nat {
    if 0 <= x.s.table < |x.s.workers| && x.s.workers[x.s.table].Rem? then x.s.workers[x.s.table].box else 0
  }

  predicate Finds(x: Piped) {
    PokedBox(x) < |x.names| && x.names[PokedBox(x)] in x.fifos
  }

  /** The steps of lines 134-136: the path leads to a FIFO; somebody has it open for reading;
      somebody still has. */
  ghost predicate PokeStep(x: Piped, x': Piped) {
    match x.poke
    case NoPoke => false
    case Looking => Finds(x) && x' == x.(poke := Waiting(x.fifos[x.names[PokedBox(x)]]))
    case Waiting(f) => Read(x, f) && x' == x.(poke := Writing(f))
    case Writing(f) => Read(x, f) && x' == x.(poke := NoPoke, codes := x.codes + multiset{f})
  }

  ghost predicate ClientStep(x: Piped, x': Piped) {
    (exists p, f :: ClientMakes(x, p, f, x')) || (exists p :: ClientUnlinks(x, p, x')) || exists f :: Drains(x, f, x')
  }

  ghost predicate WorkerStep(c: Config, x: Piped, t: nat, x': Piped) {
    || (exists n :: PipedMove(c, x, t, n, x')) || PipedEnter(c, x, t, x')
    || (exists p :: OpensEnd(x, t, p, x')) || ClosesEnd(x, t, x') || Copies(x, t, x')
  }

  /** A step without a spurious wakeup. */
  ghost predicate QuietNext(c: Config, x: Piped, x': Piped) {
    ClientStep(x, x') || PokeStep(x, x') || exists t: nat :: WorkerStep(c, x, t, x')
  }

  ghost predicate PipedNext(c: Config, x: Piped, x': Piped) {
    QuietNext(c, x, x') || exists t: nat :: PipedSpurious(x, t, x')
  }

  ghost predicate PipedInit(x: Piped) {
    && Init(x.s) && x.fifos == map[] && x.poke == NoPoke && x.codes == multiset{}
    && x.ends == seq(|x.s.workers|, _ => End([], CLOSED, false))
    && x.names == seq(|x.s.boxes|, _ => [])
  }

  ghost predicate IsPipedRun(c: Config, states: seq<Piped>) {
    && |states| > 0 && PipedInit(states[0])
    && forall k :: 0 < k < |states| ==> PipedNext(c, states[k - 1], states[k])
  }

  // ---- the broker underneath -----------------------------------------------------------------

  lemma EntersUnderneath(c: Config, x: Piped, t: nat, x': Piped)
    requires PipedEnter(c, x, t, x')
    ensures Enter(c, x.s, t, x'.s)
  {
    hide AddPub, AddSub, StartRemove, Create;
  }

  /** Every step is a step of the broker, or leaves it as it is. */
  lemma StepsUnderneath(c: Config, x: Piped, x': Piped)
    requires PipedNext(c, x, x')
    ensures x'.s == x.s || Next(c, x.s, x'.s)
  {
    hide Move, Enter, PipedEnter;
    if t: nat :| WorkerStep(c, x, t, x') {
      if n :| PipedMove(c, x, t, n, x') {
        assert Move(c, x.s, t, x'.s);
      } else if PipedEnter(c, x, t, x') {
        EntersUnderneath(c, x, t, x');
      }
    } else if t: nat :| PipedSpurious(x, t, x') {
      assert Spurious(x.s, t, x'.s);
    }
  }

  // ---- what holds in every state ----------------------------------------------------------

  /** The end leads to a FIFO that its path still leads to, if any path does. */
  ghost predicate EndOk(x: Piped, d: End) {
    d.fifo != CLOSED ==>
      && d.fifo >= 0 && d.path != []
      && (d.fifo in x.fifos.Values ==> d.path in x.fifos && x.fifos[d.path] == d.fifo)
  }

  /** By its program counter: whether a worker has its end open and its path copied. A path
      that was copied is at the box. */
  predicate PlaceOk(w: Worker, d: End, names: seq<Path>) {
    && (w.Sub? || w.Rem? || w.Crashed? ==> d.fifo == CLOSED)
    && (w.Idle? && d.fifo != CLOSED ==> !d.copied)
    && (w.Pub? ==>
          && (d.fifo == CLOSED <==> w.ppc == POpenFail || w.ppc == PLeave)
          && (w.ppc == POpen || w.ppc == POpenFail ==> !d.copied)
          && (w.ppc != POpen && w.ppc != POpenFail && w.ppc != PTop ==> d.copied)
          && (d.copied ==> w.box < |names| && names[w.box] == d.path))
  }

  ghost predicate EndsOk(x: Piped) {
    && |x.ends| == |x.s.workers|
    && forall t: nat :: t < |x.ends| ==> EndOk(x, x.ends[t]) && PlaceOk(x.s.workers[t], x.ends[t], x.names)
  }

  ghost predicate FifosOk(x: Piped) {
    && [] !in x.fifos
    && forall p, q :: p in x.fifos && q in x.fifos && x.fifos[p] == x.fifos[q] ==> p == q
  }

  /** Somebody is at lines 133-137 only as a remover that has just closed a box with a
      publisher, and holds its mutex. */
  predicate PokeOk(x: Piped) {
    x.poke != NoPoke ==>
      && 0 <= x.s.table < |x.s.workers| && x.s.workers[x.s.table].Rem? && x.s.workers[x.s.table].rpc == RPubTest
      && var b := x.s.workers[x.s.table].box;
         Closing(x.s, b) && x.s.boxes[b].mutex == x.s.table && x.s.boxes[b].nPubs > 0
  }

  ghost predicate PipesOk(x: Piped) {
    EndsOk(x) && FifosOk(x) && PokeOk(x) && |x.names| == |x.s.boxes|
  }

  lemma InitPipes(x: Piped)
    requires PipedInit(x)
    ensures PipesOk(x)
  {
  }

  lemma ClientPipes(x: Piped, x': Piped)
    requires PipesOk(x) && ClientStep(x, x')
    ensures PipesOk(x')
  {
    if p, f :| ClientMakes(x, p, f, x') {
      forall t: nat | t < |x'.ends| ensures EndOk(x', x'.ends[t]) && PlaceOk(x'.s.workers[t], x'.ends[t], x'.names) {
        assert EndOk(x, x.ends[t]) && x.ends[t].fifo != f;
      }
    } else {
      forall t: nat | t < |x'.ends| ensures EndOk(x', x'.ends[t]) && PlaceOk(x'.s.workers[t], x'.ends[t], x'.names) {
        assert EndOk(x, x.ends[t]);
      }
    }
  }

  lemma OpensPipes(x: Piped, t: nat, p: Path, x': Piped)
    requires PipesOk(x) && OpensEnd(x, t, p, x')
    ensures PipesOk(x')
  {
    forall u: nat | u < |x'.ends| ensures EndOk(x', x'.ends[u]) && PlaceOk(x'.s.workers[u], x'.ends[u], x'.names) {
      assert EndOk(x, x.ends[u]) && PlaceOk(x.s.workers[u], x.ends[u], x.names);
    }
  }

  lemma ClosesPipes(x: Piped, t: nat, x': Piped)
    requires PipesOk(x) && ClosesEnd(x, t, x')
    ensures PipesOk(x')
  {
    forall u: nat | u < |x'.ends| ensures EndOk(x', x'.ends[u]) && PlaceOk(x'.s.workers[u], x'.ends[u], x'.names) {
      assert EndOk(x, x.ends[u]) && PlaceOk(x.s.workers[u], x.ends[u], x.names);
    }
  }

  predicate PublishesTo(s: Broker, b: nat, p: nat) {
    p < |s.workers| && s.workers[p].Pub? && s.workers[p].box == b
  }

  ghost predicate PublisherOf(s: Broker, b: nat, p: nat) {
    PublishesTo(s, b, p) && forall q: nat :: PublishesTo(s, b, q) ==> q == p
  }

  lemma OnlyPublisher(c: Config, s: Broker, b: nat, p: nat)
    requires Ok(c, s) && b < |s.boxes| && PublishesTo(s, b, p)
    ensures PublisherOf(s, b, p)
  {
    assert BoxOk(s, b);
    CountMember(s.workers, p, PubsOf(b));
    forall q: nat | PublishesTo(s, b, q) ensures q == p { assert PubsOf(b)(s.workers[q]); }
  }

  lemma CopiesPipes(c: Config, x: Piped, t: nat, x': Piped)
    requires Ok(c, x.s) && PipesOk(x) && Copies(x, t, x')
    ensures PipesOk(x')
  {
    var b := x.s.workers[t].box;
    OnlyPublisher(c, x.s, b, t);
    forall u: nat | u < |x'.ends| ensures EndOk(x', x'.ends[u]) && PlaceOk(x'.s.workers[u], x'.ends[u], x'.names) {
      assert u != t ==> !PublishesTo(x.s, b, u);
      assert EndOk(x, x.ends[u]) && PlaceOk(x.s.workers[u], x.ends[u], x.names);
    }
  }

  /** The worker that moves. */
  lemma OwnPlace(c: Config, t: nat, w: Worker, b: Box, fs: Fs, e: Effect, d: End, names: seq<Path>)
    requires HasBox(w) && Fits(t, w, b) && LocalStep(c, t, w, b, fs, e) && !e.w.Crashed?
    requires PlaceOk(w, d, names) && (w.Pub? && w.ppc == PTop ==> d.copied)
    ensures PlaceOk(e.w, if Closes(w, e.w) then d.(fifo := CLOSED) else d, names)
  {
  }

  lemma WokenPlace(w: Worker, d: End, names: seq<Path>)
    requires PlaceOk(w, d, names)
    ensures PlaceOk(Woken(w), d, names)
  {
  }

  lemma WokenCloses(w: Worker, w': Worker)
    ensures Closes(w, Woken(w')) == Closes(w, w')
  {
  }

  lemma MoveEnds(c: Config, x: Piped, t: nat, n: nat, e: Effect, ws': seq<Worker>, x': Piped)
    requires Ok(c, x.s) && PipesOk(x) && MoveBy(c, x.s, t, e, ws', x'.s) && PipedMove(c, x, t, n, x')
    ensures EndsOk(x') && FifosOk(x') && |x'.names| == |x'.s.boxes|
  {
    var s, w := x.s, x.s.workers[t];
    assert WorkerOk(s, t);
    assert !e.w.Crashed? by { MoveOwn(c, s, t, e, ws', x'.s); }
    AwokenEach(s.workers[t := e.w], w.box, e.wake, ws');
    assert EndOk(x, x.ends[t]) && PlaceOk(w, x.ends[t], x.names);
    OwnPlace(c, t, w, s.boxes[w.box], s.fs, e, x.ends[t], x.names);
    WokenCloses(w, e.w);
    hide LocalStep, Awoken, Ok, Fits, FilesMove, Keeps, Stored, Closes, PlaceOk, Move;
    forall u: nat | u < |x'.ends| ensures EndOk(x', x'.ends[u]) && PlaceOk(x'.s.workers[u], x'.ends[u], x'.names) {
      assert EndOk(x, x.ends[u]) && PlaceOk(x.s.workers[u], x.ends[u], x.names);
      WokenPlace(x.s.workers[u], x.ends[u], x.names);
      if u == t { WokenPlace(e.w, x'.ends[t], x.names); }
    }
  }

  /** What a session does to a box whose mutex somebody else holds. */
  lemma SessionStays(c: Config, t: nat, w: Worker, x: Box, fs: Fs, e: Effect)
    requires (w.Sub? || w.Pub?) && Fits(t, w, x) && LocalStep(c, t, w, x, fs, e)
    requires x.mutex != NOBODY && x.mutex != t
    ensures e.box.nPubs == x.nPubs && e.box.mutex == x.mutex && e.box.closed == x.closed && e.box.taken == x.taken
  {
  }

  /** Somebody else's step leaves a remover at lines 133-137 where it is. */
  lemma OthersPoke(c: Config, x: Piped, t: nat, n: nat, e: Effect, ws': seq<Worker>, x': Piped)
    requires Ok(c, x.s) && PipesOk(x) && MoveBy(c, x.s, t, e, ws', x'.s) && PipedMove(c, x, t, n, x')
    requires x.poke != NoPoke
    ensures PokeOk(x') && x'.poke == x.poke && x'.s.table == x.s.table
    ensures x'.s.workers[x.s.table] == x.s.workers[x.s.table]
  {
    var s, r := x.s, x.s.table;
    assert WorkerOk(s, t) && (s.workers[t].Rem? ==> t == r);
    assert t != r;
    hide Ok, EndsOk, FifosOk, Move;
    AwokenEach(s.workers[t := e.w], s.workers[t].box, e.wake, ws');
    hide Awoken;
    if s.workers[t].box == s.workers[r].box {
      SessionStays(c, t, s.workers[t], s.boxes[s.workers[t].box], s.fs, e);
    }
    hide LocalStep, Fits;
  }

  lemma NewPoke(c: Config, x: Piped, t: nat, n: nat, e: Effect, ws': seq<Worker>, x': Piped)
    requires Ok(c, x.s) && PipesOk(x) && MoveBy(c, x.s, t, e, ws', x'.s) && PipedMove(c, x, t, n, x')
    requires x.poke == NoPoke
    ensures PokeOk(x')
  {
    var s := x.s;
    assert WorkerOk(s, t) && BoxOk(s, s.workers[t].box);
    AwokenEach(s.workers[t := e.w], s.workers[t].box, e.wake, ws');
    hide Awoken, Ok, Move;
    if Pokes(s, t) { RemCloses(t, s.workers[t], s.boxes[s.workers[t].box], s.fs, e); }
    hide LocalStep;
  }

  lemma RemCloses(t: nat, w: Worker, x: Box, fs: Fs, e: Effect)
    requires w.Rem? && w.rpc == RLock && Fits(t, w, x) && RemStep(t, w, x, fs, e)
    ensures e.w == Rem(RPubTest, w.box) && e.wake == None
    ensures e.box == x.(closed := true, mutex := t, poked := x.nPubs > 0) && x.taken == TAKEN
  {
  }

  lemma MovePipes(c: Config, x: Piped, t: nat, n: nat, x': Piped)
    requires Ok(c, x.s) && PipesOk(x) && PipedMove(c, x, t, n, x')
    ensures PipesOk(x')
  {
    var e, ws' :| MoveBy(c, x.s, t, e, ws', x'.s);
    hide Ok, LocalStep, Awoken, EndsOk, FifosOk, PokeOk, PipedMove;
    MoveEnds(c, x, t, n, e, ws', x');
    if x.poke == NoPoke { NewPoke(c, x, t, n, e, ws', x'); } else { OthersPoke(c, x, t, n, e, ws', x'); }
  }

  lemma EnterWithoutPoke(c: Config, x: Piped, t: nat, x': Piped)
    requires PokeOk(x) && PipedEnter(c, x, t, x')
    ensures x.poke == NoPoke
  {
    EntersUnderneath(c, x, t, x');
    hide PipedEnter;
    NobodyEnters(c, x.s, t, x'.s);
  }

  /** Nobody enters while somebody is at lines 133-137. */
  lemma EnterPipes(c: Config, x: Piped, t: nat, x': Piped)
    requires Ok(c, x.s) && PipesOk(x) && PipedEnter(c, x, t, x')
    ensures PipesOk(x') && x.poke == NoPoke
  {
    hide LocalStep;
    EnterWithoutPoke(c, x, t, x');
    if PipedCreate(c, x, t, x') && x.ends[t].fifo == CLOSED {
      CreatePipes(c, x, t, x');
    } else {
      hide Ok;
      forall u: nat | u < |x'.ends| ensures EndOk(x', x'.ends[u]) && PlaceOk(x'.s.workers[u], x'.ends[u], x'.names) {
        assert EndOk(x, x.ends[u]) && PlaceOk(x.s.workers[u], x.ends[u], x.names);
      }
    }
  }

  lemma CreatePipes(c: Config, x: Piped, t: nat, x': Piped)
    requires Ok(c, x.s) && PipesOk(x) && PipedCreate(c, x, t, x') && x.poke == NoPoke
    ensures PipesOk(x')
  {
    var b: nat :| b < |x.names| && Creates(c, x.s, t, b, x'.s) && x' == x.(s := x'.s, names := x.names[b := []]);
    CreatesElsewhere(c, x.s, t, b, x'.s);
    hide Ok, Creates, PipedCreate;
    forall u: nat | u < |x'.ends| ensures EndOk(x', x'.ends[u]) && PlaceOk(x'.s.workers[u], x'.ends[u], x'.names) {
      assert EndOk(x, x.ends[u]) && PlaceOk(x.s.workers[u], x.ends[u], x.names);
    }
  }

  /** Nobody is at the slot of a new box. */
  lemma CreatesElsewhere(c: Config, s: Broker, t: nat, b: nat, s': Broker)
    requires Ok(c, s) && Creates(c, s, t, b, s')
    ensures s'.workers == s.workers && |s'.boxes| == |s.boxes|
    ensures forall u: nat :: u < |s.workers| && HasBox(s.workers[u]) ==> s.workers[u].box != b
  {
    var name, newId: nat, room :| Create(c, s, t, b, name, newId, room, s');
    FreeSlotUnused(s, b);
    hide Ok;
  }

  lemma SpuriousPipes(x: Piped, t: nat, x': Piped)
    requires PipesOk(x) && PipedSpurious(x, t, x')
    ensures PipesOk(x') && x'.poke == x.poke && x'.s.table == x.s.table
    ensures x.poke != NoPoke ==> x'.s.workers[x.s.table] == x.s.workers[x.s.table]
  {
    forall u: nat | u < |x'.ends| ensures EndOk(x', x'.ends[u]) && PlaceOk(x'.s.workers[u], x'.ends[u], x'.names) {
      assert EndOk(x, x.ends[u]) && PlaceOk(x.s.workers[u], x.ends[u], x.names);
    }
  }

  lemma PokePipes(x: Piped, x': Piped)
    requires PipesOk(x) && PokeStep(x, x')
    ensures PipesOk(x')
  {
    forall u: nat | u < |x'.ends| ensures EndOk(x', x'.ends[u]) && PlaceOk(x'.s.workers[u], x'.ends[u], x'.names) {
      assert EndOk(x, x.ends[u]) && PlaceOk(x.s.workers[u], x.ends[u], x.names);
    }
  }

  /** Every step keeps the ends, the paths and the remover's place in order. */
  lemma NextPipes(c: Config, x: Piped, x': Piped)
    requires Ok(c, x.s) && PipesOk(x) && PipedNext(c, x, x')
    ensures PipesOk(x')
  {
    hide Ok, PipesOk, PipedMove, PipedEnter, PipedSpurious, OpensEnd, ClosesEnd, Copies, ClientStep, PokeStep;
    if ClientStep(x, x') {
      ClientPipes(x, x');
    } else if PokeStep(x, x') {
      PokePipes(x, x');
    } else if t: nat :| PipedSpurious(x, t, x') {
      SpuriousPipes(x, t, x');
    } else {
      var t: nat :| WorkerStep(c, x, t, x');
      if n :| PipedMove(c, x, t, n, x') {
        MovePipes(c, x, t, n, x');
      } else if PipedEnter(c, x, t, x') {
        EnterPipes(c, x, t, x');
      } else if p :| OpensEnd(x, t, p, x') {
        OpensPipes(x, t, p, x');
      } else if ClosesEnd(x, t, x') {
        ClosesPipes(x, t, x');
      } else {
        CopiesPipes(c, x, t, x');
      }
    }
  }

  lemma NextPipedOk(c: Config, x: Piped, x': Piped)
    requires Ok(c, x.s) && PipesOk(x) && PipedNext(c, x, x')
    ensures Ok(c, x'.s) && PipesOk(x') && (AmpleOk(c, x.s) ==> AmpleOk(c, x'.s))
  {
    NextPipes(c, x, x');
    StepsUnderneath(c, x, x');
    hide PipesOk, PipedNext, Ok, AmpleOk, Next;
    if x'.s != x.s {
      NextOk(c, x.s, x'.s);
      if AmpleOk(c, x.s) { NextAmple(c, x.s, x'.s); }
    }
  }

  /** What holds of the broker holds with its pipes, and the pipes are in order, in every
      state of every run. */
  lemma {:induction false} PipedRunOk(c: Config, states: seq<Piped>, k: nat)
    requires IsPipedRun(c, states) && k < |states| && c.msgLength > 0
    ensures Ok(c, states[k].s) && PipesOk(states[k])
    ensures |states[0].s.workers| <= c.maxOpen ==> AmpleOk(c, states[k].s)
  {
    hide Ok, PipesOk, PipedNext;
    if k == 0 {
      InitOk(c, states[0].s);
      InitPipes(states[0]);
    } else {
      PipedRunOk(c, states, k - 1);
      assert PipedNext(c, states[k - 1], states[k]);
      hide AmpleOk;
      NextPipedOk(c, states[k - 1], states[k]);
    }
  }

  // ---- where the code goes ------------------------------------------------------------------

  /** The path of the session still leads to the FIFO that it opened: its client has neither
      unlinked it nor put another one in its place. */
  predicate Linked(x: Piped, d: End) {
    d.path in x.fifos && x.fifos[d.path] == d.fifo
  }

  /** A remover that looks up the path at its box is led to the FIFO of the box's publisher if
      and only if the publisher has not closed its end, its client has left the FIFO where it
      was when the session opened it, and the publisher has copied its path or an earlier
      session has left the same one. With the path copied, it is led to no FIFO at all, and
      its write fails an assertion, if and only if there is none at the path. */
  lemma LookupFinds(c: Config, x: Piped)
    requires Ok(c, x.s) && PipesOk(x) && x.poke == Looking
    ensures PokedBox(x) < |x.names| == |x.s.boxes| && |x.ends| == |x.s.workers|
    ensures exists p: nat :: PublisherOf(x.s, PokedBox(x), p)
              && var w, d, n := x.s.workers[p], x.ends[p], x.names[PokedBox(x)];
                 && (Finds(x) && x.fifos[n] == d.fifo <==>
                       w.ppc != PLeave && w.ppc != POpenFail && Linked(x, d) && (d.copied || n == d.path))
                 && (d.copied ==> (Finds(x) <==> d.path in x.fifos))
                 && (w.ppc == POpen || w.ppc == POpenFail ==> !d.copied)
                 && (w.ppc != POpen && w.ppc != POpenFail && w.ppc != PTop ==> d.copied)
  {
    var b := PokedBox(x);
    assert BoxOk(x.s, b);
    var p := CountWitness(x.s.workers, PubsOf(b));
    OnlyPublisher(c, x.s, b, p);
    assert EndOk(x, x.ends[p]) && PlaceOk(x.s.workers[p], x.ends[p], x.names);
    hide Ok;
    assert PublisherOf(x.s, b, p);
  }

  /** Led to a FIFO, the remover waits until somebody has it open for reading, and stays where
      it is as long as nobody has. */
  lemma WaitStep(c: Config, x: Piped, x': Piped, f: nat)
    requires Ok(c, x.s) && PipesOk(x) && PipedNext(c, x, x') && x.poke == Waiting(f) && !Read(x, f)
    ensures x'.poke == Waiting(f) && x'.s.table == x.s.table && |x'.s.workers| > x.s.table
    ensures x'.s.workers[x.s.table] == x.s.workers[x.s.table]
    ensures f !in x.fifos.Values ==> f !in x'.fifos.Values && !Read(x', f)
  {
    hide Ok, PipesOk, PipedMove, PipedEnter, PipedSpurious, OpensEnd, ClosesEnd, Copies, ClientStep, PokeStep;
    if t: nat :| WorkerStep(c, x, t, x') {
      if n :| PipedMove(c, x, t, n, x') {
        MoveWaits(c, x, t, n, x', f);
      } else if PipedEnter(c, x, t, x') {
        EnterPipes(c, x, t, x');
      } else {
        EndWaits(x, t, x', f);
      }
    } else if t: nat :| PipedSpurious(x, t, x') {
      SpuriousWaits(x, t, x');
    } else if ClientStep(x, x') {
      ClientWaits(x, x', f);
    } else {
      PokeWaits(x, x', f);
    }
  }

  lemma SpuriousWaits(x: Piped, t: nat, x': Piped)
    requires PipesOk(x) && PipedSpurious(x, t, x') && x.poke != NoPoke
    ensures x'.poke == x.poke && x'.s.table == x.s.table && x.s.table >= 0 && |x'.s.workers| > x.s.table
    ensures x'.s.workers[x.s.table] == x.s.workers[x.s.table] && x'.fifos == x.fifos && x'.ends == x.ends
  {
    SpuriousPipes(x, t, x');
    hide PipesOk;
  }

  lemma EndWaits(x: Piped, t: nat, x': Piped, f: nat)
    requires PipesOk(x) && ((exists p :: OpensEnd(x, t, p, x')) || ClosesEnd(x, t, x') || Copies(x, t, x'))
    requires x.poke == Waiting(f) && !Read(x, f)
    ensures x'.poke == x.poke && x'.s == x.s && x'.fifos == x.fifos && 0 <= x.s.table < |x.s.workers|
    ensures f !in x.fifos.Values ==> !Read(x', f)
  {
  }

  lemma ClientWaits(x: Piped, x': Piped, f: nat)
    requires PipesOk(x) && ClientStep(x, x') && x.poke == Waiting(f)
    ensures x'.poke == x.poke && x'.s == x.s && x'.ends == x.ends && 0 <= x.s.table < |x.s.workers|
    ensures f !in x.fifos.Values ==> f !in x'.fifos.Values
  {
  }

  lemma PokeWaits(x: Piped, x': Piped, f: nat)
    requires x.poke == Waiting(f) && PokeStep(x, x')
    ensures Read(x, f)
  {
  }

  lemma MoveWaits(c: Config, x: Piped, t: nat, n: nat, x': Piped, f: nat)
    requires Ok(c, x.s) && PipesOk(x) && PipedMove(c, x, t, n, x') && x.poke == Waiting(f) && !Read(x, f)
    ensures x'.poke == Waiting(f) && x'.s.table == x.s.table && |x'.s.workers| > x.s.table
    ensures x'.s.workers[x.s.table] == x.s.workers[x.s.table]
    ensures x'.fifos == x.fifos && !Read(x', f)
  {
    var e, ws' :| MoveBy(c, x.s, t, e, ws', x'.s);
    OthersPoke(c, x, t, n, e, ws', x');
    hide Ok, PipesOk, LocalStep, Awoken, MoveBy;
    forall u | 0 <= u < |x'.ends| ensures x'.ends[u].fifo != f { assert x.ends[u].fifo != f; }
  }

  /** While nobody has the FIFO open, the remover waits in its open with the box's mutex and
      the table lock: the box stays, and nobody registers, creates or removes. */
  lemma {:induction false} WaitsUntilRead(c: Config, states: seq<Piped>, f: nat)
    requires |states| > 0 && Ok(c, states[0].s) && PipesOk(states[0]) && states[0].poke == Waiting(f)
    requires forall k :: 0 < k < |states| ==> PipedNext(c, states[k - 1], states[k])
    requires forall k :: 0 <= k < |states| - 1 ==> !Read(states[k], f)
    ensures var x := states[|states| - 1];
            && Ok(c, x.s) && PipesOk(x) && x.poke == Waiting(f)
            && PokedBox(x) == PokedBox(states[0]) && Closing(x.s, PokedBox(x)) && x.s.table != NOBODY
            && x.s.table == states[0].s.table
  {
    hide Ok, PipedNext;
    var n := |states| - 1;
    if n > 0 {
      WaitsUntilRead(c, states[..n], f);
      assert PipedNext(c, states[n - 1], states[n]);
      NextPipedOk(c, states[n - 1], states[n]);
      WaitStep(c, states[n - 1], states[n], f);
      hide EndsOk, FifosOk, AmpleOk;
    }
  }

  /** If its client has unlinked the FIFO besides, the remover waits for ever. */
  lemma {:induction false} WaitsForever(c: Config, states: seq<Piped>, f: nat)
    requires |states| > 0 && Ok(c, states[0].s) && PipesOk(states[0]) && states[0].poke == Waiting(f)
    requires forall k :: 0 < k < |states| ==> PipedNext(c, states[k - 1], states[k])
    requires !Read(states[0], f) && f !in states[0].fifos.Values
    ensures var x := states[|states| - 1];
            && Ok(c, x.s) && PipesOk(x) && x.poke == Waiting(f) && !Read(x, f) && f !in x.fifos.Values
            && PokedBox(x) == PokedBox(states[0]) && Closing(x.s, PokedBox(x)) && x.s.table != NOBODY
  {
    hide Ok, PipedNext, Read;
    var n := |states| - 1;
    if n > 0 {
      WaitsForever(c, states[..n], f);
      assert PipedNext(c, states[n - 1], states[n]);
      NextPipedOk(c, states[n - 1], states[n]);
      WaitStep(c, states[n - 1], states[n], f);
      hide EndsOk, FifosOk, AmpleOk;
    }
  }
}

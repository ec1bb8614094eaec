/** The box_size that managers are shown: the bytes of the messages that were stored
    whole and announced. */
module BrokerSize {
  import opened Counting
  import opened TfsTypes
  import opened BrokerFs
  import opened BrokerSystem
  import opened BrokerControl
  import opened BrokerFiles
  import opened BrokerDelivery

  /** The bytes of those of the first m messages that fit whole. */
  function WholeBytes(c: Config, m: nat): nat {
    if m == 0 then 0 else WholeBytes(c, m - 1) + if Fit(c, m - 1) == c.msgLength then c.msgLength else 0
  }

  /** Less than a message short of the file. */
  lemma {:induction false} NearlyAll(c: Config, m: nat)
    requires c.msgLength > 0
    ensures WholeBytes(c, m) <= Position(c, m) < WholeBytes(c, m) + c.msgLength
    ensures Position(c, m) == WholeBytes(c, m) || Position(c, m) == c.blockSize
  {
    if m > 0 {
      NearlyAll(c, m - 1);
      NextPosition(c, m - 1);
    }
  }

  /** A message stored whole that its publisher has not announced yet. */
  function Unannounced(c: Config, b: nat): Worker -> nat {
    (w: Worker) => if w.Pub? && w.box == b && w.ppc == PBcast then c.msgLength else 0
  }

  ghost predicate SizeOk(c: Config, s: Broker, b: nat)
    requires b < |s.boxes|
  {
    s.boxes[b].taken == TAKEN ==>
      s.boxes[b].boxSize + Sum(s.workers, Unannounced(c, b)) == WholeBytes(c, |s.boxes[b].published|)
  }

  /** What the announced size and the unannounced message add up to moves with the
      messages that are stored. */
  predicate SizeMoves(c: Config, w: Worker, x: Box, e: Effect)
    requires HasBox(w)
  {
    e.box.boxSize + Unannounced(c, w.box)(e.w) + WholeBytes(c, |x.published|)
    == x.boxSize + Unannounced(c, w.box)(w) + WholeBytes(c, |e.box.published|)
  }

  lemma WriteSize(c: Config, t: nat, w: Worker, x: Box, fs: Fs, e: Effect)
    requires w.Pub? && w.ppc == PWrite && PubStep(c, t, w, x, fs, e) && Keeps(c, w, x, fs) && Stored(c, x, fs)
    requires Recorded(c, x, fs)
    ensures SizeMoves(c, w, x, e)
  {
    WritePiece(c, x, fs, w.h, w.msg, x.(published := x.published + [w.msg]));
    hide Recorded, Stored, WriteData, Content;
  }

  lemma OwnSize(c: Config, t: nat, w: Worker, x: Box, fs: Fs, e: Effect)
    requires HasBox(w) && LocalStep(c, t, w, x, fs, e) && Keeps(c, w, x, fs) && Stored(c, x, fs) && Recorded(c, x, fs)
    ensures SizeMoves(c, w, x, e)
  {
    hide Keeps, Stored, Recorded;
    if w.Pub? && w.ppc == PWrite { WriteSize(c, t, w, x, fs, e); }
  }

  lemma WakingSize(c: Config, ws: seq<Worker>, b: nat, wake: Wake, ws': seq<Worker>, d: nat)
    requires Awoken(ws, b, wake, ws')
    ensures Sum(ws', Unannounced(c, d)) == Sum(ws, Unannounced(c, d))
  {
    AwokenEach(ws, b, wake, ws');
    SameSum(ws, ws', Unannounced(c, d));
  }

  lemma MoveSize(c: Config, s: Broker, t: nat, e: Effect, ws': seq<Worker>, s': Broker, b: nat)
    requires ControlOk(s) && FilesOk(c, s) && DeliveryOk(c, s) && MoveBy(c, s, t, e, ws', s') && b < |s.boxes|
    requires SizeOk(c, s, b)
    ensures SizeOk(c, s', b)
  {
    var w := s.workers[t];
    assert WorkerOk(s, t) && WorkerFiles(c, s, t) && BoxRecorded(c, s, w.box);
    MoveOwn(c, s, t, e, ws', s');
    OwnSize(c, t, w, s.boxes[w.box], s.fs, e);
    hide LocalStep, ControlOk, FilesOk, DeliveryOk, Keeps, FilesMove, Stored, Recorded;
    WakingSize(c, s.workers[t := e.w], w.box, e.wake, ws', b);
    SumUpdate(s.workers, t, e.w, Unannounced(c, b));
  }

  lemma EnteredSize(c: Config, s: Broker, t: nat, d: nat, s': Broker, b: nat)
    requires t < |s.workers| && d < |s.boxes| && b < |s.boxes| && SizeOk(c, s, b)
    requires |s'.boxes| == |s.boxes| && |s'.workers| == |s.workers|
    requires s'.boxes == s.boxes[d := s'.boxes[d]] && s'.workers == s.workers[t := s'.workers[t]]
    requires s'.boxes[d] == s.boxes[d].(nSubs := s'.boxes[d].nSubs, nPubs := s'.boxes[d].nPubs)
    requires Unannounced(c, b)(s'.workers[t]) == Unannounced(c, b)(s.workers[t])
    ensures SizeOk(c, s', b)
  {
    SumUpdate(s.workers, t, s'.workers[t], Unannounced(c, b));
  }

  lemma CreateSize(c: Config, s: Broker, t: nat, d: nat, name: Name, newId: nat, room: bool, s': Broker, b: nat)
    requires ControlOk(s) && FilesOk(c, s) && Create(c, s, t, d, name, newId, room, s') && b < |s.boxes|
    requires SizeOk(c, s, b)
    ensures SizeOk(c, s', b)
  {
    CreateFiles(c, s, t, d, name, newId, room, s');
    FreeSlotUnused(s, d);
    if b == d { SumZero(s.workers, Unannounced(c, d)); }
  }

  lemma EnterSize(c: Config, s: Broker, t: nat, s': Broker, b: nat)
    requires ControlOk(s) && FilesOk(c, s) && Enter(c, s, t, s') && b < |s.boxes| && SizeOk(c, s, b)
    ensures |s'.boxes| == |s.boxes| && SizeOk(c, s', b)
  {
    hide ControlOk, FilesOk, SizeOk;
    if d, name :| AddSub(s, t, d, name, s') {
      EnteredSize(c, s, t, d, s', b);
    } else if d, name :| AddPub(s, t, d, name, s') {
      EnteredSize(c, s, t, d, s', b);
    } else if d, name :| StartRemove(s, t, d, name, s') {
      EnteredSize(c, s, t, d, s', b);
    } else {
      var d, name, newId, room :| Create(c, s, t, d, name, newId, room, s');
      CreateSize(c, s, t, d, name, newId, room, s', b);
    }
  }

  lemma SpuriousSize(c: Config, s: Broker, t: nat, s': Broker, b: nat)
    requires ControlOk(s) && Spurious(s, t, s') && b < |s.boxes| && SizeOk(c, s, b)
    ensures SizeOk(c, s', b)
  {
    assert WorkerOk(s, t);
    EnteredSize(c, s, t, s.workers[t].box, s', b);
  }
}

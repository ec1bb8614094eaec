/** End-to-end delivery: what a subscriber is sent is what was published to its box,
    message by message, as far as the box's block has room. */
module BrokerDelivery {
  import opened TfsTypes
  import opened BrokerFs
  import opened BrokerSystem
  import opened BrokerControl
  import opened BrokerFiles

  /** The bytes of a list of messages. */
  function Flat(ms: seq<seq<byte>>): seq<byte> {
    if ms == [] then [] else Flat(ms[..|ms| - 1]) + ms[|ms| - 1]
  }

  /** Where message k starts in the file, if it fits. */
  function Position(c: Config, k: nat): (p: nat)
    ensures p <= c.blockSize
  {
    Min(k * c.msgLength, c.blockSize)
  }

  /** What there is room for of message k. */
  function Fit(c: Config, k: nat): (n: int)
    ensures n <= c.msgLength
    ensures n >= 0
  {
    Min(c.msgLength, c.blockSize - Position(c, k))
  }

  ghost predicate Whole(c: Config, ms: seq<seq<byte>>) {
    forall i :: 0 <= i < |ms| ==> |ms[i]| == c.msgLength
  }

  /** The file of a box holds the messages published to it, cut at the block size. */
  ghost predicate Recorded(c: Config, x: Box, fs: Fs) {
    && Whole(c, x.published)
    && |Flat(x.published)| == |x.published| * c.msgLength
    && Content(fs, x.inode) == Flat(x.published)[..Position(c, |x.published|)]
  }

  /** What was sent is, piece by piece, what was published: message i, cut to the room
      that is left for it; there is no empty piece. */
  ghost predicate Delivered(c: Config, sent: seq<seq<byte>>, published: seq<seq<byte>>) {
    && |sent| <= |published| && Whole(c, published)
    && forall i :: 0 <= i < |sent| ==> Fit(c, i) > 0 && sent[i] == published[i][..Fit(c, i)]
  }

  /** The pieces sent, with the one about to be sent. */
  function Pieces(w: Worker): seq<seq<byte>>
    requires w.Sub?
  {
    if w.spc == SSend then w.sent + [w.data] else w.sent
  }

  ghost predicate Got(c: Config, w: Worker, x: Box, fs: Fs) {
    w.Sub? ==>
      && Delivered(c, Pieces(w), x.published)
      && (w.spc == SOpen ==> w.sent == [])
      && (Owns(w) && w.spc != SExit && w.h in fs.handles ==> fs.handles[w.h].offset == Position(c, |Pieces(w)|))
  }

  ghost predicate BoxRecorded(c: Config, s: Broker, b: nat)
    requires b < |s.boxes|
  {
    s.boxes[b].taken == TAKEN ==> Recorded(c, s.boxes[b], s.fs)
  }

  ghost predicate WorkerGot(c: Config, s: Broker, t: nat)
    requires t < |s.workers|
  {
    HasBox(s.workers[t]) && s.workers[t].box < |s.boxes| ==> Got(c, s.workers[t], s.boxes[s.workers[t].box], s.fs)
  }

  ghost predicate DeliveryOk(c: Config, s: Broker) {
    && (forall b: nat :: b < |s.boxes| ==> BoxRecorded(c, s, b))
    && forall t: nat :: t < |s.workers| ==> WorkerGot(c, s, t)
  }

  // ---- positions and pieces --------------------------------------------------------------

  lemma NextPosition(c: Config, k: nat)
    ensures Position(c, k + 1) == Position(c, k) + Fit(c, k)
  {
    assert (k + 1) * c.msgLength == k * c.msgLength + c.msgLength;
  }

  /** A read at the start of message k finds something exactly if the message has been
      published and there is room for some of it; it finds that. */
  lemma ReadsOneMessage(c: Config, k: nat, m: nat)
    ensures var left := Position(c, m) - Position(c, k);
            var n := if left > c.msgLength then c.msgLength else left;
            n > 0 ==>
              && k < m && n == Fit(c, k)
              && Position(c, k) == k * c.msgLength && k * c.msgLength + n <= m * c.msgLength
  {
    var l := c.msgLength;
    if k >= m {
      assert k * l >= m * l by { Monotone(m, k, l); }
    } else {
      assert (k + 1) * l <= m * l by { Monotone(k + 1, m, l); }
      assert (k + 1) * l == k * l + l;
    }
  }

  lemma Monotone(a: nat, b: nat, l: nat)
    requires a <= b
    ensures a * l <= b * l
  {
    assert (b - a) * l >= 0;
    assert b * l == a * l + (b - a) * l;
  }

  lemma FlatAppend(c: Config, ms: seq<seq<byte>>, m: seq<byte>)
    requires Whole(c, ms) && |Flat(ms)| == |ms| * c.msgLength && |m| == c.msgLength
    ensures Flat(ms + [m]) == Flat(ms) + m && Whole(c, ms + [m]) && |Flat(ms + [m])| == |ms + [m]| * c.msgLength
  {
    assert (ms + [m])[..|ms|] == ms;
    assert (|ms| + 1) * c.msgLength == |ms| * c.msgLength + c.msgLength;
  }

  lemma {:induction false} FlatLength(c: Config, ms: seq<seq<byte>>)
    requires Whole(c, ms)
    ensures |Flat(ms)| == |ms| * c.msgLength
  {
    if ms != [] {
      var n := |ms| - 1;
      FlatLength(c, ms[..n]);
      assert (n + 1) * c.msgLength == n * c.msgLength + c.msgLength;
    }
  }

  /** Message k sits at k times the message length. */
  lemma {:induction false} FlatPiece(c: Config, ms: seq<seq<byte>>, k: nat, n: nat)
    requires Whole(c, ms) && k < |ms| && n <= c.msgLength
    ensures k * c.msgLength + n <= |Flat(ms)|
    ensures Flat(ms)[k * c.msgLength..k * c.msgLength + n] == ms[k][..n]
  {
    var last := |ms| - 1;
    FlatLength(c, ms[..last]);
    assert Flat(ms) == Flat(ms[..last]) + ms[last];
    hide Flat;
    if k < last {
      FlatPiece(c, ms[..last], k, n);
      assert ms[..last][k] == ms[k];
      SliceOfFirst(Flat(ms[..last]), ms[last], k * c.msgLength, n);
    } else {
      SliceOfLast(Flat(ms[..last]), ms[last], n);
    }
  }

  lemma SliceOfFirst(s: seq<byte>, t: seq<byte>, from: nat, n: nat)
    requires from + n <= |s|
    ensures (s + t)[from..from + n] == s[from..from + n]
  {
  }

  lemma SliceOfLast(s: seq<byte>, t: seq<byte>, n: nat)
    requires n <= |t|
    ensures (s + t)[|s|..|s| + n] == t[..n]
  {
  }

  // ---- reading and writing ------------------------------------------------------------

  /** A read that finds something returns the next piece, and moves to the one after. */
  lemma ReadPiece(c: Config, x: Box, fs: Fs, h: int, k: nat)
    requires Recorded(c, x, fs) && h in fs.handles && fs.handles[h] == OpenFile(x.inode, Position(c, k))
    requires ToRead(c, fs, h).Some? && ToRead(c, fs, h).n > 0
    ensures var n := ToRead(c, fs, h).n;
            && k < |x.published| && n == Fit(c, k)
            && ReadData(fs, h, n) == x.published[k][..n]
            && Advance(fs, h, n).handles[h].offset == Position(c, k + 1)
  {
    var n := ToRead(c, fs, h).n;
    var m := |x.published|;
    assert |Content(fs, x.inode)| == Position(c, m) by { Monotone(0, m, c.msgLength); }
    ReadsOneMessage(c, k, m);
    FlatPiece(c, x.published, k, n);
    NextPosition(c, k);
    var p := Position(c, k);
    assert Flat(x.published)[..Position(c, m)][p..p + n] == Flat(x.published)[p..p + n];
  }

  lemma DeliveredOne(c: Config, sent: seq<seq<byte>>, published: seq<seq<byte>>, data: seq<byte>)
    requires Delivered(c, sent, published) && |sent| < |published|
    requires Fit(c, |sent|) > 0 && data == published[|sent|][..Fit(c, |sent|)]
    ensures Delivered(c, sent + [data], published)
  {
  }

  /** A write at the end of the file stores what there is room for. */
  lemma WritePiece(c: Config, x: Box, fs: Fs, h: int, msg: seq<byte>, x': Box)
    requires Recorded(c, x, fs) && Stored(c, x, fs) && |msg| == c.msgLength
    requires h in fs.handles && fs.handles[h] == OpenFile(x.inode, |Content(fs, x.inode)|)
    requires x'.published == x.published + [msg] && x'.inode == x.inode
    ensures ToWrite(c, fs, h) == Some(Fit(c, |x.published|))
    ensures Recorded(c, x', WriteData(fs, h, msg[..Fit(c, |x.published|)]))
  {
    var m := |x.published|;
    assert |Content(fs, x.inode)| == Position(c, m) by { Monotone(0, m, c.msgLength); }
    FlatAppend(c, x.published, msg);
    NextPosition(c, m);
    WriteKeeps(c, fs, h, x, msg[..Fit(c, m)]);
    assert Flat(x'.published)[..Position(c, m + 1)] == Flat(x.published)[..Position(c, m)] + msg[..Fit(c, m)] by {
      if Fit(c, m) > 0 { assert Position(c, m) == |Flat(x.published)|; }
    }
  }

  // ---- one step, seen from the worker that takes it ------------------------------------

  lemma SubDelivers(c: Config, t: nat, w: Worker, x: Box, fs: Fs, e: Effect)
    requires w.Sub? && Keeps(c, w, x, fs) && Stored(c, x, fs) && SubStep(c, t, w, x, fs, e) && c.msgLength > 0
    requires Recorded(c, x, fs) && Got(c, w, x, fs)
    ensures Recorded(c, e.box, e.fs) && Got(c, e.w, e.box, e.fs)
  {
    if w.spc == SOpen {
      OpenKeeps(c, fs, x, false);
      assert Position(c, 0) == 0;
    } else if w.spc == SRead {
      var k := |w.sent|;
      assert fs.handles[w.h] == OpenFile(x.inode, Position(c, k));
      var n := ToRead(c, fs, w.h).n;
      if n > 0 {
        ReadPiece(c, x, fs, w.h, k);
        DeliveredOne(c, w.sent, x.published, ReadData(fs, w.h, n));
      }
    }
  }

  lemma PubDelivers(c: Config, t: nat, w: Worker, x: Box, fs: Fs, e: Effect)
    requires w.Pub? && Keeps(c, w, x, fs) && Stored(c, x, fs) && PubStep(c, t, w, x, fs, e)
    requires Recorded(c, x, fs)
    ensures Recorded(c, e.box, e.fs) && Got(c, e.w, e.box, e.fs)
    ensures x.published <= e.box.published && Whole(c, e.box.published)
  {
    if w.ppc == POpen {
      OpenKeeps(c, fs, x, true);
    } else if w.ppc == PWrite {
      WritePiece(c, x, fs, w.h, w.msg, x.(published := x.published + [w.msg]));
    }
  }

  lemma OwnDelivers(c: Config, t: nat, w: Worker, x: Box, fs: Fs, e: Effect)
    requires Keeps(c, w, x, fs) && Stored(c, x, fs) && LocalStep(c, t, w, x, fs, e) && c.msgLength > 0
    requires Recorded(c, x, fs) && Got(c, w, x, fs)
    ensures e.box.taken == TAKEN ==> Recorded(c, e.box, e.fs)
    ensures Got(c, e.w, e.box, e.fs) && x.published <= e.box.published && Whole(c, e.box.published)
  {
    hide PubStep, Keeps, Stored, Owns;
    if w.Sub? { SubDelivers(c, t, w, x, fs, e); } else if w.Pub? { PubDelivers(c, t, w, x, fs, e); }
  }

  /** More messages do not change the pieces that were sent. */
  lemma DeliveredStill(c: Config, sent: seq<seq<byte>>, published: seq<seq<byte>>, more: seq<seq<byte>>)
    requires Delivered(c, sent, published) && published <= more && Whole(c, more)
    ensures Delivered(c, sent, more)
  {
  }

  lemma OthersGot(c: Config, w: Worker, x: Box, fs: Fs, e: Effect, v: Worker, v': Worker, y: Box, y': Box)
    requires FilesMove(w, x, fs, e) && Keeps(c, v, y, fs) && Got(c, v, y, fs)
    requires Owns(w) && Owns(v) ==> w.h != v.h
    requires v' == v || v' == Woken(v)
    requires y.published <= y'.published && (v.Sub? ==> Whole(c, y'.published))
    ensures Got(c, v', y', e.fs)
  {
    if v.Sub? { DeliveredStill(c, Pieces(v), y.published, y'.published); }
  }

  lemma OthersRecorded(c: Config, w: Worker, x: Box, fs: Fs, e: Effect, y: Box)
    requires FilesMove(w, x, fs, e) && Recorded(c, y, fs) && Stored(c, y, fs) && y.inode != x.inode
    ensures Recorded(c, y, e.fs)
  {
  }

  // ---- steps of the broker -----------------------------------------------------------------

  lemma MoveDeliversOwn(c: Config, s: Broker, t: nat, e: Effect, ws': seq<Worker>, s': Broker)
    requires ControlOk(s) && FilesOk(c, s) && DeliveryOk(c, s) && MoveBy(c, s, t, e, ws', s')
    ensures e.box.taken == TAKEN ==> Recorded(c, e.box, e.fs)
    ensures Got(c, e.w, e.box, e.fs)
    ensures s.boxes[s.workers[t].box].published <= e.box.published && Whole(c, e.box.published)
  {
    var w := s.workers[t];
    assert WorkerOk(s, t) && WorkerFiles(c, s, t) && WorkerGot(c, s, t) && BoxRecorded(c, s, w.box);
    hide LocalStep, Keeps, Recorded, Got, Awoken, Applied, DirOk, HandlesApart, HandlesOwned, BoxOk, TableOk;
    OwnDelivers(c, t, w, s.boxes[w.box], s.fs, e);
  }

  lemma MoveWorkerGot(c: Config, s: Broker, t: nat, e: Effect, ws': seq<Worker>, s': Broker, u: nat)
    requires ControlOk(s) && FilesOk(c, s) && DeliveryOk(c, s) && MoveBy(c, s, t, e, ws', s') && u < |s.workers|
    ensures WorkerGot(c, s', u)
  {
    hide LocalStep, DirOk, HandlesOwned, BoxOk, TableOk, BoxesStored, FilesMove, Keeps, Stored, Got, Recorded, Fits;
    var w, v := s.workers[t], s.workers[u];
    MoveDeliversOwn(c, s, t, e, ws', s');
    MoveOwn(c, s, t, e, ws', s');
    AwokenEach(s.workers[t := e.w], w.box, e.wake, ws');
    hide Awoken;
    assert WorkerFiles(c, s, u) && WorkerFiles(c, s, t) && WorkerOk(s, u) && WorkerGot(c, s, u);
    if u == t {
      WokenGot(c, e.w, e.box, e.fs);
    } else if HasBox(v) {
      var y := s.boxes[v.box];
      RecordedWhole(c, s, u);
      OthersGot(c, w, s.boxes[w.box], s.fs, e, v, ws'[u], y, s'.boxes[v.box]);
    }
  }

  lemma RecordedWhole(c: Config, s: Broker, u: nat)
    requires DeliveryOk(c, s) && u < |s.workers| && HasBox(s.workers[u]) && WorkerOk(s, u)
    ensures Whole(c, s.boxes[s.workers[u].box].published)
  {
    assert BoxRecorded(c, s, s.workers[u].box);
  }

  lemma WokenGot(c: Config, w: Worker, x: Box, fs: Fs)
    requires Got(c, w, x, fs)
    ensures Got(c, Woken(w), x, fs)
  {
  }

  lemma MoveRecorded(c: Config, s: Broker, t: nat, e: Effect, ws': seq<Worker>, s': Broker, b: nat)
    requires ControlOk(s) && FilesOk(c, s) && DeliveryOk(c, s) && MoveBy(c, s, t, e, ws', s') && b < |s.boxes|
    ensures BoxRecorded(c, s', b)
  {
    hide LocalStep, HandlesOwned, BoxOk, TableOk, FilesMove, Keeps, Recorded, Got;
    var w := s.workers[t];
    MoveDeliversOwn(c, s, t, e, ws', s');
    MoveOwn(c, s, t, e, ws', s');
    assert WorkerOk(s, t) && BoxRecorded(c, s, b);
    if b != w.box && s.boxes[b].taken == TAKEN {
      assert Stored(c, s.boxes[b], s.fs) && Stored(c, s.boxes[w.box], s.fs);
      OthersRecorded(c, w, s.boxes[w.box], s.fs, e, s.boxes[b]);
    }
  }

  lemma MoveDelivery(c: Config, s: Broker, t: nat, e: Effect, ws': seq<Worker>, s': Broker)
    requires ControlOk(s) && FilesOk(c, s) && DeliveryOk(c, s) && MoveBy(c, s, t, e, ws', s')
    ensures DeliveryOk(c, s')
  {
    assert |s'.workers| == |s.workers|;
    hide LocalStep, Awoken, ControlOk, FilesOk, WorkerGot, BoxRecorded;
    forall u: nat | u < |s'.workers| ensures WorkerGot(c, s', u) { MoveWorkerGot(c, s, t, e, ws', s', u); }
    forall b: nat | b < |s'.boxes| ensures BoxRecorded(c, s', b) { MoveRecorded(c, s, t, e, ws', s', b); }
  }

  /** A worker enters or wakes up by itself. */
  lemma EnteredDelivery(c: Config, s: Broker, t: nat, b: nat, s': Broker)
    requires DeliveryOk(c, s) && t < |s.workers| && b < |s.boxes| && s'.fs == s.fs
    requires |s'.boxes| == |s.boxes| && |s'.workers| == |s.workers|
    requires s'.boxes == s.boxes[b := s'.boxes[b]] && s'.workers == s.workers[t := s'.workers[t]]
    requires s'.boxes[b] == s.boxes[b].(nSubs := s'.boxes[b].nSubs, nPubs := s'.boxes[b].nPubs)
    requires WorkerGot(c, s', t)
    ensures DeliveryOk(c, s')
  {
    forall u: nat | u < |s'.workers| ensures WorkerGot(c, s', u) { assert WorkerGot(c, s, u); }
    forall d: nat | d < |s'.boxes| ensures BoxRecorded(c, s', d) { assert BoxRecorded(c, s, d); }
  }

  lemma CreateDelivery(c: Config, s: Broker, t: nat, b: nat, name: Name, newId: nat, room: bool, s': Broker)
    requires ControlOk(s) && FilesOk(c, s) && DeliveryOk(c, s) && Create(c, s, t, b, name, newId, room, s')
    ensures DeliveryOk(c, s')
  {
    CreateFiles(c, s, t, b, name, newId, room, s');
    assert s'.workers == s.workers && |s'.boxes| == |s.boxes|;
    forall u: nat | u < |s'.workers| ensures WorkerGot(c, s', u) {
      assert WorkerGot(c, s, u) && WorkerOk(s, u);
      assert HasBox(s.workers[u]) ==> s.workers[u].box != b;
    }
    CreatedFiles(s.fs, name, newId, room);
    forall d: nat | d < |s'.boxes| ensures BoxRecorded(c, s', d) { assert BoxRecorded(c, s, d); }
  }

  lemma EnterDelivery(c: Config, s: Broker, t: nat, s': Broker)
    requires ControlOk(s) && FilesOk(c, s) && DeliveryOk(c, s) && Enter(c, s, t, s')
    ensures DeliveryOk(c, s')
  {
    if b, name :| AddSub(s, t, b, name, s') {
      assert BoxRecorded(c, s, b);
      EnteredDelivery(c, s, t, b, s');
    } else if b, name :| AddPub(s, t, b, name, s') {
      EnteredDelivery(c, s, t, b, s');
    } else if b, name :| StartRemove(s, t, b, name, s') {
      EnteredDelivery(c, s, t, b, s');
    } else {
      var b, name, newId, room :| Create(c, s, t, b, name, newId, room, s');
      CreateDelivery(c, s, t, b, name, newId, room, s');
    }
  }

  lemma SpuriousDelivery(c: Config, s: Broker, t: nat, s': Broker)
    requires ControlOk(s) && DeliveryOk(c, s) && Spurious(s, t, s')
    ensures DeliveryOk(c, s')
  {
    assert WorkerOk(s, t) && WorkerGot(c, s, t);
    EnteredDelivery(c, s, t, s.workers[t].box, s');
  }

  // ---- what delivery means ------------------------------------------------------------------

  /** One more piece lengthens what was put together by one piece of what was published. */
  lemma OnePieceMore(c: Config, published: seq<seq<byte>>, k: nat)
    requires Whole(c, published) && k < |published| && Fit(c, k) > 0
    ensures Position(c, k + 1) <= |Flat(published)|
    ensures Flat(published)[..Position(c, k)] + published[k][..Fit(c, k)] == Flat(published)[..Position(c, k + 1)]
  {
    NextPosition(c, k);
    FlatPiece(c, published, k, Fit(c, k));
    var p, i, n := Flat(published), Position(c, k), Fit(c, k);
    assert i == k * c.msgLength && p[i..i + n] == published[k][..n];
    hide Flat, Position, Fit, Whole;
    assert p[..i] + p[i..i + n] == p[..i + n];
  }

  /** Pieces that were delivered are, put together, the beginning of what was published
      cut at the block size. */
  lemma {:induction false} DeliveredPrefix(c: Config, sent: seq<seq<byte>>, published: seq<seq<byte>>)
    requires Delivered(c, sent, published)
    ensures |Flat(sent)| == Position(c, |sent|) <= Position(c, |published|)
    ensures Position(c, |published|) <= |Flat(published)|
    ensures Flat(sent) == Flat(published)[..Position(c, |sent|)]
  {
    FlatLength(c, published);
    Monotone(|sent|, |published|, c.msgLength);
    Monotone(0, |published|, c.msgLength);
    if sent != [] {
      var k := |sent| - 1;
      DeliveredPrefix(c, sent[..k], published);
      OnePieceMore(c, published, k);
    }
  }

  /** Every piece but the last is a whole message. */
  lemma WholePieces(c: Config, sent: seq<seq<byte>>, published: seq<seq<byte>>)
    requires Delivered(c, sent, published)
    ensures forall i :: 0 <= i < |sent| - 1 ==> sent[i] == published[i]
  {
    forall i | 0 <= i < |sent| - 1 ensures sent[i] == published[i] {
      assert Fit(c, i + 1) > 0;
      NextPosition(c, i);
    }
  }
}

/** Names, files and open handles in every reachable state of the broker: once its open has
    succeeded, no read or write of a session fails for want of a handle, and no subtraction
    wraps around. With no more workers than handles every open succeeds. */
module BrokerFiles {
  import opened Counting
  import opened TfsTypes
  import opened BrokerFs
  import TfsSpec
  import opened BrokerSystem
  import opened BrokerControl

  /** The worker has an open handle. */
  predicate Owns(w: Worker) {
    || (w.Sub? && w.spc != SOpen && w.spc != SOpenFail && w.spc != SLeave)
    || (w.Pub? && w.ppc != POpen && w.ppc != POpenFail && w.ppc != PLeave)
  }

  /** The worker is at none of the places that follow a failed read or box_remove's assertion. */
  predicate Unfailed(w: Worker) {
    && !w.Crashed?
    && (w.Sub? ==> w.spc != SBreak && w.spc != SLeave)
  }

  /** The worker's open has not failed. */
  predicate Opened(w: Worker) {
    && (w.Sub? ==> w.spc != SOpenFail)
    && (w.Pub? ==> w.ppc != POpenFail)
  }

  /** A worker's handle is open on its box's file, within the file, and at its end if
      the worker publishes. */
  predicate Keeps(c: Config, w: Worker, x: Box, fs: Fs) {
    && Unfailed(w)
    && (Owns(w) ==>
          && 0 <= w.h < c.maxOpen && w.h in fs.handles && fs.handles[w.h].inumber == x.inode
          && fs.handles[w.h].offset <= |Content(fs, x.inode)|
          && (w.Pub? ==> fs.handles[w.h].offset == |Content(fs, x.inode)|))
    && (w.Pub? && w.ppc == PWrite ==> |w.msg| == c.msgLength)
  }

  predicate Stored(c: Config, x: Box, fs: Fs) {
    && x.name in fs.dir && fs.dir[x.name] == x.inode
    && x.inode in fs.files && |fs.files[x.inode]| <= c.blockSize
  }

  ghost predicate WorkerFiles(c: Config, s: Broker, t: nat)
    requires t < |s.workers|
  {
    && Unfailed(s.workers[t])
    && (HasBox(s.workers[t]) ==>
          s.workers[t].box < |s.boxes| && Keeps(c, s.workers[t], s.boxes[s.workers[t].box], s.fs))
  }

  ghost predicate DirOk(fs: Fs) {
    && (forall n :: n in fs.dir ==> fs.dir[n] in fs.files)
    && forall n, m :: n in fs.dir && m in fs.dir && fs.dir[n] == fs.dir[m] ==> n == m
  }

  ghost predicate BoxesStored(c: Config, s: Broker) {
    && (forall b :: 0 <= b < |s.boxes| && s.boxes[b].taken == TAKEN ==> Stored(c, s.boxes[b], s.fs))
    && forall b, d :: 0 <= b < d < |s.boxes| && s.boxes[b].taken == TAKEN && s.boxes[d].taken == TAKEN ==>
         s.boxes[b].name != s.boxes[d].name
  }

  ghost predicate HandlesApart(ws: seq<Worker>) {
    forall t, u :: 0 <= t < |ws| && 0 <= u < |ws| && t != u && Owns(ws[t]) && Owns(ws[u]) ==> ws[t].h != ws[u].h
  }

  predicate OwnerOf(ws: seq<Worker>, h: int, u: int) {
    0 <= u < |ws| && Owns(ws[u]) && ws[u].h == h
  }

  ghost predicate HandlesOwned(ws: seq<Worker>, fs: Fs) {
    forall h :: h in fs.handles ==> exists u :: OwnerOf(ws, h, u)
  }

  function IsTaken(): Box -> bool {
    (x: Box) => x.taken == TAKEN
  }

  ghost predicate FilesOk(c: Config, s: Broker) {
    && c.msgLength > 0
    && (forall t: nat :: t < |s.workers| ==> WorkerFiles(c, s, t))
    && DirOk(s.fs) && BoxesStored(c, s)
    && HandlesApart(s.workers) && HandlesOwned(s.workers, s.fs)
    && s.amount == Count(s.boxes, IsTaken())
  }

  // ---- there is a handle for everyone ----------------------------------------------------

  ghost function Owner(ws: seq<Worker>, fs: Fs, h: int): (u: int)
    requires HandlesOwned(ws, fs) && h in fs.handles
    ensures OwnerOf(ws, h, u)
  {
    var u :| OwnerOf(ws, h, u); u
  }

  /** While a worker has no handle, the table has a free one. */
  lemma HandlesSuffice(c: Config, ws: seq<Worker>, fs: Fs, t: nat)
    requires HandlesOwned(ws, fs) && |ws| <= c.maxOpen && t < |ws| && !Owns(ws[t])
    ensures TfsSpec.LeastUnused(fs.handles.Keys, c.maxOpen) != -1
  {
    var used := fs.handles.Keys;
    if TfsSpec.LeastUnused(used, c.maxOpen) == -1 {
      var owner := map h | h in used :: Owner(ws, fs, h);
      var owners := set h | h in used :: owner[h];
      SameSize(used, owners, owner);
      assert t !in owners;
      assert owners <= Range(|ws|) && t in Range(|ws|);
      SubsetSize(owners, Range(|ws|));
      SubsetSize(Range(c.maxOpen), used);
      assert false;
    }
  }

  // ---- one step, seen from the worker that takes it ------------------------------------

  /** What a step does to the files. */
  ghost predicate FilesMove(w: Worker, x: Box, fs: Fs, e: Effect) {
    && e.box.name == x.name && e.box.inode == x.inode
    && (forall h :: h in fs.handles && !(Owns(w) && h == w.h) ==> h in e.fs.handles && e.fs.handles[h] == fs.handles[h])
    && (forall h :: h in e.fs.handles ==> h in fs.handles || (Owns(e.w) && h == e.w.h))
    && (Owns(w) && !Owns(e.w) ==> w.h !in e.fs.handles)
    && (Owns(e.w) ==> if Owns(w) then e.w.h == w.h else e.w.h !in fs.handles)
    && (forall i :: i in fs.files && i != x.inode ==> i in e.fs.files && e.fs.files[i] == fs.files[i])
    && (if e.box.taken == TAKEN
        then e.fs.dir == fs.dir && x.inode in e.fs.files && |Content(e.fs, x.inode)| >= |Content(fs, x.inode)|
        else e.fs.dir == fs.dir - {x.name})
    && (Content(e.fs, x.inode) == Content(fs, x.inode) || w.Pub? || e.box.taken == FREE)
  }

  lemma OpenKeeps(c: Config, fs: Fs, x: Box, append: bool)
    requires Stored(c, x, fs)
    ensures var (fs1, h) := Open(c, fs, x.name, append);
            if TfsSpec.LeastUnused(fs.handles.Keys, c.maxOpen) == -1 then h == FAILED && fs1 == fs
            else
            && 0 <= h < c.maxOpen && h !in fs.handles
            && fs1 == fs.(handles := fs.handles[h := OpenFile(x.inode, if append then |Content(fs, x.inode)| else 0)])
  {
  }

  lemma SubReadFiles(c: Config, t: nat, w: Worker, x: Box, fs: Fs, e: Effect)
    requires w.Sub? && w.spc == SRead && Keeps(c, w, x, fs) && Stored(c, x, fs) && SubStep(c, t, w, x, fs, e)
    requires x.taken == TAKEN
    ensures Keeps(c, e.w, e.box, e.fs) && FilesMove(w, x, fs, e) && Stored(c, e.box, e.fs)
  {
    hide ReadData;
  }

  lemma SubFiles(c: Config, t: nat, w: Worker, x: Box, fs: Fs, e: Effect)
    requires w.Sub? && Fits(t, w, x) && Keeps(c, w, x, fs) && Stored(c, x, fs) && SubStep(c, t, w, x, fs, e)
    ensures Keeps(c, e.w, e.box, e.fs) && FilesMove(w, x, fs, e) && (e.box.taken == TAKEN ==> Stored(c, e.box, e.fs))
  {
    hide ToRead, ReadData, Advance, Open;
    if w.spc == SOpen {
      OpenKeeps(c, fs, x, false);
    } else if w.spc == SRead {
      SubReadFiles(c, t, w, x, fs, e);
    }
  }

  lemma WriteKeeps(c: Config, fs: Fs, h: int, x: Box, bytes: seq<byte>)
    requires h in fs.handles && fs.handles[h] == OpenFile(x.inode, |Content(fs, x.inode)|) && Stored(c, x, fs)
    ensures WriteData(fs, h, bytes) ==
            fs.(files := fs.files[x.inode := fs.files[x.inode] + bytes],
                handles := fs.handles[h := OpenFile(x.inode, |Content(fs, x.inode)| + |bytes|)])
  {
    var old_ := Content(fs, x.inode);
    assert old_[..|old_|] == old_;
    assert Overwrite(old_, |old_|, bytes) == old_ + bytes;
  }

  lemma PubWriteFiles(c: Config, t: nat, w: Worker, x: Box, fs: Fs, e: Effect)
    requires w.Pub? && w.ppc == PWrite && Keeps(c, w, x, fs) && Stored(c, x, fs) && PubStep(c, t, w, x, fs, e)
    requires x.taken == TAKEN
    ensures Keeps(c, e.w, e.box, e.fs) && FilesMove(w, x, fs, e) && Stored(c, e.box, e.fs)
  {
    var n := ToWrite(c, fs, w.h).n;
    WriteKeeps(c, fs, w.h, x, w.msg[..n]);
    hide WriteData;
  }

  lemma PubFiles(c: Config, t: nat, w: Worker, x: Box, fs: Fs, e: Effect)
    requires w.Pub? && Fits(t, w, x) && Keeps(c, w, x, fs) && Stored(c, x, fs) && PubStep(c, t, w, x, fs, e)
    ensures Keeps(c, e.w, e.box, e.fs) && FilesMove(w, x, fs, e) && (e.box.taken == TAKEN ==> Stored(c, e.box, e.fs))
  {
    hide WriteData, ToWrite, Open;
    if w.ppc == POpen {
      OpenKeeps(c, fs, x, true);
    } else if w.ppc == PWrite {
      PubWriteFiles(c, t, w, x, fs, e);
    }
  }

  lemma RemFiles(c: Config, t: nat, w: Worker, x: Box, fs: Fs, e: Effect)
    requires w.Rem? && Fits(t, w, x) && Stored(c, x, fs) && RemStep(t, w, x, fs, e)
    ensures Keeps(c, e.w, e.box, e.fs) && FilesMove(w, x, fs, e) && (e.box.taken == TAKEN ==> Stored(c, e.box, e.fs))
  {
  }

  lemma OwnFiles(c: Config, t: nat, w: Worker, x: Box, fs: Fs, e: Effect)
    requires Fits(t, w, x) && Keeps(c, w, x, fs) && Stored(c, x, fs) && LocalStep(c, t, w, x, fs, e)
    ensures Keeps(c, e.w, e.box, e.fs) && FilesMove(w, x, fs, e) && (e.box.taken == TAKEN ==> Stored(c, e.box, e.fs))
  {
    hide SubStep, PubStep, RemStep, Fits, Keeps, Stored, FilesMove;
    if w.Sub? {
      SubFiles(c, t, w, x, fs, e);
    } else if w.Pub? {
      PubFiles(c, t, w, x, fs, e);
    } else {
      RemFiles(c, t, w, x, fs, e);
    }
  }

  /** Another worker's handle, on the same box or another one, is as it should be. */
  lemma OthersKeep(c: Config, w: Worker, x: Box, fs: Fs, e: Effect, v: Worker, v': Worker, y: Box, y': Box)
    requires FilesMove(w, x, fs, e) && Keeps(c, v, y, fs) && y'.inode == y.inode
    requires Owns(v) ==> Stored(c, y, fs)
    requires Owns(w) && Owns(v) ==> w.h != v.h
    requires v' == v || v' == Woken(v)
    requires Owns(v) && y.inode == x.inode ==> e.box.taken == TAKEN && !(v.Pub? && w.Pub?)
    ensures Keeps(c, v', y', e.fs)
  {
  }

  // ---- a step of a worker with a box ---------------------------------------------------

  /** What the step of worker t leaves everybody to rely on. */
  lemma MoveOwn(c: Config, s: Broker, t: nat, e: Effect, ws': seq<Worker>, s': Broker)
    requires ControlOk(s) && FilesOk(c, s) && MoveBy(c, s, t, e, ws', s')
    ensures !e.w.Crashed?
    ensures e.w.Idle? || (HasBox(e.w) && e.w.box == s.workers[t].box)
    ensures Keeps(c, e.w, e.box, e.fs)
    ensures FilesMove(s.workers[t], s.boxes[s.workers[t].box], s.fs, e)
    ensures e.box.taken == TAKEN ==> Stored(c, e.box, e.fs)
    ensures e.box.taken == TAKEN || (s.workers[t].Rem? && e.w.Idle?)
    ensures e.box.taken == FREE ==> e.fs.files == s.fs.files - {e.box.inode}
  {
    var w := s.workers[t];
    var x := s.boxes[w.box];
    assert WorkerOk(s, t) && BoxOk(s, w.box) && WorkerFiles(c, s, t);
    OwnFiles(c, t, w, x, s.fs, e);
    hide Keeps, FilesMove;
    OwnFits(c, t, w, x, s.fs, e);
    BoxMoves(c, t, w, x, s.fs, e);
  }

  /** When the slot is freed, nobody else is at the box. */
  lemma LastAtBox(s: Broker, t: nat, b: nat, u: nat)
    requires ControlOk(s) && t < |s.workers| && s.workers[t].Rem? && s.workers[t].box == b && b < |s.boxes|
    requires s.boxes[b].nSubs <= 0 && s.boxes[b].nPubs == 0
    requires u < |s.workers| && u != t && HasBox(s.workers[u])
    ensures s.workers[u].box != b
  {
    assert BoxOk(s, b) && WorkerOk(s, u);
    CountZero(s.workers, SubsOf(b));
    CountZero(s.workers, PubsOf(b));
    assert s.workers[u].Rem? ==> s.table == u && s.table == t;
  }

  /** Another worker at the same box: the slot stays taken, and one of the two is no publisher.
      At another box: the file is another one. */
  lemma Apart(c: Config, s: Broker, t: nat, e: Effect, ws': seq<Worker>, s': Broker, u: nat)
    requires ControlOk(s) && FilesOk(c, s) && MoveBy(c, s, t, e, ws', s')
    requires u < |s.workers| && u != t && HasBox(s.workers[u]) && s.workers[u].box < |s.boxes|
    ensures s.workers[u].box == s.workers[t].box ==> e.box.taken == TAKEN && !(s.workers[u].Pub? && s.workers[t].Pub?)
    ensures s.workers[u].box != s.workers[t].box ==> s.boxes[s.workers[u].box].inode != s.boxes[s.workers[t].box].inode
    ensures Stored(c, s.boxes[s.workers[u].box], s.fs)
  {
    var w, v := s.workers[t], s.workers[u];
    var x, y := s.boxes[w.box], s.boxes[v.box];
    assert WorkerOk(s, t) && WorkerOk(s, u) && BoxOk(s, w.box);
    if v.box == w.box {
      BoxMoves(c, t, w, x, s.fs, e) by { assert !e.w.Crashed? by { MoveOwn(c, s, t, e, ws', s'); } }
      if e.box.taken == FREE { LastAtBox(s, t, w.box, u); }
      if v.Pub? && w.Pub? { CountMember(s.workers, t, PubsOf(w.box)); }
    } else {
      assert Stored(c, x, s.fs) && Stored(c, y, s.fs);
    }
  }

  lemma MoveWorkerFiles(c: Config, s: Broker, t: nat, e: Effect, ws': seq<Worker>, s': Broker, u: nat)
    requires ControlOk(s) && FilesOk(c, s) && MoveBy(c, s, t, e, ws', s') && u < |s.workers|
    ensures WorkerFiles(c, s', u)
  {
    hide LocalStep, Fits, FilesMove, Keeps, Stored, DirOk, HandlesOwned, BoxOk;
    var w, v := s.workers[t], s.workers[u];
    MoveOwn(c, s, t, e, ws', s');
    AwokenEach(s.workers[t := e.w], w.box, e.wake, ws');
    hide Awoken;
    assert WorkerFiles(c, s, u) && WorkerOk(s, u);
    if u == t {
      WokenKeeps(c, e.w, e.box, e.fs);
    } else if HasBox(v) {
      Apart(c, s, t, e, ws', s', u);
      InodeStays(s.workers[t], s.boxes[w.box], s.fs, e);
      OthersKeep(c, w, s.boxes[w.box], s.fs, e, v, ws'[u], s.boxes[v.box], s'.boxes[v.box]);
      KeepsUnfailed(c, ws'[u], s'.boxes[v.box], s'.fs);
    }
  }

  lemma WokenKeeps(c: Config, w: Worker, x: Box, fs: Fs)
    requires Keeps(c, w, x, fs)
    ensures Keeps(c, Woken(w), x, fs) && Unfailed(w) && Unfailed(Woken(w))
  {
  }

  lemma KeepsUnfailed(c: Config, w: Worker, x: Box, fs: Fs)
    requires Keeps(c, w, x, fs)
    ensures Unfailed(w)
  {
  }

  lemma InodeStays(w: Worker, x: Box, fs: Fs, e: Effect)
    requires FilesMove(w, x, fs, e)
    ensures e.box.name == x.name && e.box.inode == x.inode
  {
  }

  lemma MoveHandles(c: Config, s: Broker, t: nat, e: Effect, ws': seq<Worker>, s': Broker)
    requires ControlOk(s) && FilesOk(c, s) && MoveBy(c, s, t, e, ws', s')
    ensures HandlesApart(s'.workers)
    ensures HandlesOwned(s'.workers, s'.fs)
  {
    var w := s.workers[t];
    MoveOwn(c, s, t, e, ws', s');
    AwokenEach(s.workers[t := e.w], w.box, e.wake, ws');
    assert WorkerFiles(c, s, t);
    SameOwners(s.workers, t, e.w, ws');
    NewHandles(s.workers, s.fs, t, s.boxes[w.box], e, ws') by {
      forall u: nat | u < |s.workers| && Owns(s.workers[u]) ensures s.workers[u].h in s.fs.handles {
        assert WorkerFiles(c, s, u);
      }
    }
  }

  ghost predicate Owners(ws: seq<Worker>, t: nat, w': Worker, ws': seq<Worker>)
    requires t < |ws|
  {
    && |ws'| == |ws|
    && Owns(ws'[t]) == Owns(w') && (Owns(w') ==> ws'[t].h == w'.h)
    && forall u :: 0 <= u < |ws| && u != t ==> Owns(ws'[u]) == Owns(ws[u]) && (Owns(ws[u]) ==> ws'[u].h == ws[u].h)
  }

  lemma SameOwners(ws: seq<Worker>, t: nat, w': Worker, ws': seq<Worker>)
    requires t < |ws| && |ws'| == |ws|
    requires forall u :: 0 <= u < |ws| ==> ws'[u] == ws[t := w'][u] || ws'[u] == Woken(ws[t := w'][u])
    ensures Owners(ws, t, w', ws')
  {
    forall u | 0 <= u < |ws| && u != t
      ensures Owns(ws'[u]) == Owns(ws[u]) && (Owns(ws[u]) ==> ws'[u].h == ws[u].h)
    {
      assert ws[t := w'][u] == ws[u];
    }
  }

  lemma NewHandles(ws: seq<Worker>, fs: Fs, t: nat, x: Box, e: Effect, ws': seq<Worker>)
    requires t < |ws| && FilesMove(ws[t], x, fs, e) && Owners(ws, t, e.w, ws')
    requires HandlesApart(ws) && HandlesOwned(ws, fs)
    requires forall u :: 0 <= u < |ws| && Owns(ws[u]) ==> ws[u].h in fs.handles
    ensures HandlesApart(ws') && HandlesOwned(ws', e.fs)
  {
    forall h | h in e.fs.handles ensures exists u :: OwnerOf(ws', h, u) {
      if h in fs.handles {
        var u :| OwnerOf(ws, h, u);
        assert OwnerOf(ws', h, u);
      } else {
        assert OwnerOf(ws', h, t);
      }
    }
  }

  lemma MoveDir(c: Config, s: Broker, t: nat, e: Effect, ws': seq<Worker>, s': Broker)
    requires ControlOk(s) && FilesOk(c, s) && MoveBy(c, s, t, e, ws', s')
    ensures DirOk(s'.fs) && BoxesStored(c, s')
    ensures s'.amount == Count(s'.boxes, IsTaken())
  {
    var w := s.workers[t];
    var x := s.boxes[w.box];
    MoveOwn(c, s, t, e, ws', s');
    assert WorkerOk(s, t);
    OwnFits(c, t, w, x, s.fs, e) by { assert BoxOk(s, w.box); }
    BoxMoves(c, t, w, x, s.fs, e);
    CountUpdate(s.boxes, w.box, e.box, IsTaken());
    assert x.taken == TAKEN;
    assert Stored(c, x, s.fs);
    hide LocalStep, Awoken, WorkerFiles, WorkerOk, BoxOk, HandlesOwned, HandlesApart, Keeps;
    NewDir(s.fs, s.workers[t], x, e);
    forall d: nat | d < |s.boxes| && s'.boxes[d].taken == TAKEN ensures Stored(c, s'.boxes[d], e.fs) {
      if d != w.box { OtherStored(c, s.fs, s.workers[t], x, e, s.boxes[d]); }
    }
  }

  lemma NewDir(fs: Fs, w: Worker, x: Box, e: Effect)
    requires DirOk(fs) && FilesMove(w, x, fs, e) && x.name in fs.dir && fs.dir[x.name] == x.inode && x.inode in fs.files
    requires e.box.taken == FREE ==> e.fs.files == fs.files - {x.inode}
    ensures DirOk(e.fs)
  {
  }

  lemma OtherStored(c: Config, fs: Fs, w: Worker, x: Box, e: Effect, y: Box)
    requires DirOk(fs) && FilesMove(w, x, fs, e) && Stored(c, x, fs) && Stored(c, y, fs) && x.name != y.name
    ensures Stored(c, y, e.fs)
  {
  }

  /** Every step of a worker with a box keeps the files in order, and crashes nobody. */
  lemma MoveFiles(c: Config, s: Broker, t: nat, e: Effect, ws': seq<Worker>, s': Broker)
    requires ControlOk(s) && FilesOk(c, s) && MoveBy(c, s, t, e, ws', s')
    ensures FilesOk(c, s') && !e.w.Crashed?
  {
    MoveHandles(c, s, t, e, ws', s');
    MoveDir(c, s, t, e, ws', s');
    MoveOwn(c, s, t, e, ws', s');
    hide LocalStep, WorkerFiles, DirOk, BoxesStored, HandlesOwned, HandlesApart, Keeps, FilesMove;
    forall u: nat | u < |s'.workers| ensures WorkerFiles(c, s', u) { MoveWorkerFiles(c, s, t, e, ws', s', u); }
  }

  /** Nobody's open has failed. */
  ghost predicate AllOpened(s: Broker) {
    forall t :: 0 <= t < |s.workers| ==> Opened(s.workers[t])
  }

  lemma OwnOpened(c: Config, t: nat, w: Worker, x: Box, fs: Fs, e: Effect)
    requires Stored(c, x, fs) && LocalStep(c, t, w, x, fs, e)
    requires TfsSpec.LeastUnused(fs.handles.Keys, c.maxOpen) != -1 || Owns(w)
    ensures Opened(e.w) || !Opened(w)
  {
    OpenKeeps(c, fs, x, false);
    OpenKeeps(c, fs, x, true);
    hide Stored, Open;
  }

  /** With no more workers than handles no open fails. */
  lemma MoveOpened(c: Config, s: Broker, t: nat, e: Effect, ws': seq<Worker>, s': Broker)
    requires ControlOk(s) && FilesOk(c, s) && MoveBy(c, s, t, e, ws', s')
    requires |s.workers| <= c.maxOpen && AllOpened(s)
    ensures AllOpened(s')
  {
    hide CountsOk, MutexOk, StatusOk, WorkerFiles, DirOk, HandlesApart;
    assert WorkerOk(s, t);
    if !Owns(s.workers[t]) { HandlesSuffice(c, s.workers, s.fs, t); }
    assert Stored(c, s.boxes[s.workers[t].box], s.fs);
    AwokenEach(s.workers[t := e.w], s.workers[t].box, e.wake, ws');
    hide LocalStep, Awoken, ControlOk, FilesOk, Stored, WorkerOk, Fits;
    OwnOpened(c, t, s.workers[t], s.boxes[s.workers[t].box], s.fs, e);
    assert Opened(s.workers[t]);
  }

  // ---- entering and waking ------------------------------------------------------------

  /** A worker that is at no file yet, or is woken; the names and inodes stay. */
  lemma EnteredFiles(c: Config, s: Broker, t: nat, b: nat, s': Broker)
    requires FilesOk(c, s) && t < |s.workers| && b < |s.boxes|
    requires |s'.boxes| == |s.boxes| && |s'.workers| == |s.workers|
    requires s' == s.(boxes := s.boxes[b := s'.boxes[b]], workers := s.workers[t := s'.workers[t]], table := s'.table)
    requires s'.boxes[b] == s.boxes[b].(nSubs := s'.boxes[b].nSubs, nPubs := s'.boxes[b].nPubs)
    requires Owns(s'.workers[t]) == Owns(s.workers[t]) && (Owns(s.workers[t]) ==> s'.workers[t].h == s.workers[t].h)
    requires WorkerFiles(c, s', t)
    ensures FilesOk(c, s')
  {
    CountUpdate(s.boxes, b, s'.boxes[b], IsTaken());
    forall u: nat | u < |s'.workers| ensures WorkerFiles(c, s', u) { assert WorkerFiles(c, s, u); }
    forall h | h in s'.fs.handles ensures exists u :: OwnerOf(s'.workers, h, u) {
      var u :| OwnerOf(s.workers, h, u);
      assert OwnerOf(s'.workers, h, u);
    }
  }

  lemma CreatedFiles(fs: Fs, name: Name, newId: nat, room: bool)
    requires DirOk(fs) && newId !in fs.files
    ensures var (fs1, i) := MakeEmpty(fs, name, newId, room);
            && DirOk(fs1) && fs1.handles == fs.handles
            && (forall n :: n in fs.dir && n != name ==>
                n in fs1.dir && fs1.dir[n] == fs.dir[n] && fs1.files[fs.dir[n]] == fs.files[fs.dir[n]])
            && (i != FAILED ==> name in fs1.dir && fs1.dir[name] == i && fs1.files[i] == [])
  {
  }

  lemma CreateFiles(c: Config, s: Broker, t: nat, b: nat, name: Name, newId: nat, room: bool, s': Broker)
    requires ControlOk(s) && FilesOk(c, s) && Create(c, s, t, b, name, newId, room, s')
    ensures FilesOk(c, s')
    ensures forall d :: 0 <= d < |s.boxes| && s.boxes[d].taken == TAKEN ==>
              d != b && s'.boxes[d] == s.boxes[d] && Content(s'.fs, s.boxes[d].inode) == Content(s.fs, s.boxes[d].inode)
    ensures s'.fs.handles == s.fs.handles
  {
    var (fs1, i) := MakeEmpty(s.fs, name, newId, room);
    CreatedFiles(s.fs, name, newId, room);
    FreeSlotUnused(s, b);
    CountUpdate(s.boxes, b, s'.boxes[b], IsTaken());
    forall d: nat | d < |s.boxes| && d != b && s.boxes[d].taken == TAKEN
      ensures Stored(c, s.boxes[d], s'.fs) && s.boxes[d].name != name
        && Content(s'.fs, s.boxes[d].inode) == Content(s.fs, s.boxes[d].inode)
    {
      assert Stored(c, s.boxes[d], s.fs) && !IsBox(s, d, name);
    }
    CreateWorkers(c, s, b, s');
  }

  lemma CreateWorkers(c: Config, s: Broker, b: nat, s': Broker)
    requires ControlOk(s) && FilesOk(c, s) && b < |s.boxes| && s.boxes[b].taken == FREE
    requires s'.workers == s.workers && |s'.boxes| == |s.boxes| && s'.boxes == s.boxes[b := s'.boxes[b]]
    requires s'.fs.handles == s.fs.handles
    requires forall d: nat :: d < |s.boxes| && d != b && s.boxes[d].taken == TAKEN ==>
               Content(s'.fs, s.boxes[d].inode) == Content(s.fs, s.boxes[d].inode)
    ensures forall u: nat :: u < |s'.workers| ==> WorkerFiles(c, s', u)
  {
    forall u: nat | u < |s'.workers| ensures WorkerFiles(c, s', u) {
      assert WorkerFiles(c, s, u) && WorkerOk(s, u);
    }
  }

  lemma EnterFiles(c: Config, s: Broker, t: nat, s': Broker)
    requires ControlOk(s) && FilesOk(c, s) && Enter(c, s, t, s')
    ensures FilesOk(c, s')
  {
    if b, name :| AddSub(s, t, b, name, s') {
      EnteredFiles(c, s, t, b, s');
    } else if b, name :| AddPub(s, t, b, name, s') {
      EnteredFiles(c, s, t, b, s');
    } else if b, name :| StartRemove(s, t, b, name, s') {
      EnteredFiles(c, s, t, b, s');
    } else {
      var b, name, newId, room :| Create(c, s, t, b, name, newId, room, s');
      CreateFiles(c, s, t, b, name, newId, room, s');
    }
  }

  lemma SpuriousFiles(c: Config, s: Broker, t: nat, s': Broker)
    requires ControlOk(s) && FilesOk(c, s) && Spurious(s, t, s')
    ensures FilesOk(c, s')
  {
    assert WorkerFiles(c, s, t);
    EnteredFiles(c, s, t, s.workers[t].box, s');
  }

  lemma InitFiles(c: Config, s: Broker)
    requires Init(s) && c.msgLength > 0
    ensures FilesOk(c, s)
  {
    forall b | 0 <= b < |s.boxes| ensures !IsTaken()(s.boxes[b]) { assert EmptySlot(s.boxes[b]); }
    CountZero(s.boxes, IsTaken());
  }

  /** box_create never finds the table of open files full. */
  lemma CreateHasHandle(c: Config, s: Broker, t: nat, fs1: Fs, i: int)
    requires FilesOk(c, s) && |s.workers| <= c.maxOpen
    requires t < |s.workers| && s.workers[t].Idle? && fs1.handles == s.fs.handles
    ensures AddHandle(c, fs1, i, 0).1 != FAILED
  {
    HandlesSuffice(c, s.workers, s.fs, t);
  }
}

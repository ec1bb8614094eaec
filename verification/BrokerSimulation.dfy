/** In every run the broker's files are those of a TecnicoFS without links, and every step of
    the broker is at most two calls of it: what is proved of p1/fs carries over to runs. */
module BrokerSimulation {
  import opened TfsTypes
  import opened BrokerFs
  import Tfs = TfsSpec
  import opened SymlinkWalk
  import Laws = TfsLaws
  import opened BrokerFsView
  import opened BrokerSystem
  import opened BrokerControl
  import opened BrokerFiles
  import opened BrokerRuns

  /** The broker's files as a state of TfsSpec. */
  function Back(fs: Fs): Tfs.Fs {
    Tfs.Fs(map n | n in fs.dir :: fs.dir[n] as int, map i | i in fs.files :: Tfs.File(fs.files[i]), fs.handles)
  }

  lemma ViewBack(fs: Fs)
    ensures View(Back(fs)) == fs
  {
    assert View(Back(fs)).dir == fs.dir;
    assert View(Back(fs)).files == fs.files;
  }

  lemma BackView(a: Tfs.Fs)
    requires Plain(a)
    ensures Back(View(a)) == a
  {
    assert forall n :: n in a.dir ==> a.dir[n] in a.nodes;
    assert Back(View(a)).dir == a.dir;
    assert forall i :: i in a.nodes ==> a.nodes[i] == Tfs.File(a.nodes[i].bytes);
    assert Back(View(a)).nodes == a.nodes;
  }

  // ---- steps and calls ---------------------------------------------------------------------

  ghost predicate Fine(a: Tfs.Fs, p: Params) {
    Plain(a) && Laws.Sound(a, p)
  }

  /** At most one call, and none that leaves an offset beyond its file. */
  ghost predicate OneCall(p: Params, a: Tfs.Fs, a': Tfs.Fs) {
    a' == a || exists call :: Laws.Step(a, p, call, a') && !Laws.CallStrands(a, p, call)
  }

  ghost predicate TwoCalls(p: Params, a: Tfs.Fs, a': Tfs.Fs) {
    exists m :: OneCall(p, a, m) && OneCall(p, m, a')
  }

  lemma Called(p: Params, a: Tfs.Fs, call: Laws.Call, a': Tfs.Fs)
    requires Fine(a, p) && Laws.Step(a, p, call, a') && !Laws.CallStrands(a, p, call)
    ensures OneCall(p, a, a') && Laws.Sound(a', p)
  {
    Laws.StepSound(a, p, call, a');
  }

  lemma PlainStops(a: Tfs.Fs, name: Name)
    requires Plain(a)
    ensures Tfs.PathStops(a, Path(name))
  {
    PathName(name);
    if name in a.dir {
      var i := a.dir[name];
      assert Consistent(a) && i in a.nodes;
      assert i >= 0 && a.nodes[i].File?;
      assert !Tfs.IsLink(a, Tfs.Iterate(a, Tfs.At(i), 0));
    }
  }

  lemma OpenCalls(c: Config, p: Params, a: Tfs.Fs, name: Name, append: bool)
    requires Fine(a, p) && Matches(c, p)
    ensures var fs' := Open(c, View(a), name, append).0; OneCall(p, a, Back(fs')) && Fine(Back(fs'), p)
  {
    var mode := Mode(false, false, append);
    var a' := Tfs.Open(a, p, Path(name), mode).0;
    OpenView(a, p, c, name, append);
    BackView(a');
    PlainStops(a, name);
    hide Plain, Laws.Sound, View, Back, Open, Tfs.Open, Tfs.PathStops;
    assert Laws.Step(a, p, Laws.COpen(Path(name), mode), a');
    Called(p, a, Laws.COpen(Path(name), mode), a');
  }

  lemma CloseCalls(p: Params, a: Tfs.Fs, h: int)
    requires Fine(a, p)
    ensures var fs' := Close(View(a), h); OneCall(p, a, Back(fs')) && Fine(Back(fs'), p)
  {
    var a' := Tfs.Close(a, h).0;
    CloseView(a, h);
    BackView(a');
    hide Plain, Laws.Sound, View, Back, Close, Tfs.Close;
    assert Laws.Step(a, p, Laws.CClose(h), a');
    Called(p, a, Laws.CClose(h), a');
  }

  lemma ReadCalls(c: Config, p: Params, a: Tfs.Fs, h: int)
    requires Fine(a, p) && h in a.handles
    ensures ToRead(c, View(a), h).Some?
    ensures var fs' := Advance(View(a), h, ToRead(c, View(a), h).n); OneCall(p, a, Back(fs')) && Fine(Back(fs'), p)
  {
    Laws.SoundHandle(a, p, h);
    ReadView(a, c, h);
    var a' := Tfs.Read(a, h, c.msgLength).0.0;
    BackView(a');
    hide Plain, Laws.Sound, View, Back, ToRead, Advance, Tfs.Read, Tfs.HandleOnFile, Tfs.OffsetInFile;
    assert Laws.Step(a, p, Laws.CRead(h, c.msgLength), a');
    Called(p, a, Laws.CRead(h, c.msgLength), a');
  }

  lemma UnlinkCalls(p: Params, a: Tfs.Fs, name: Name)
    requires Fine(a, p) && !(name in a.dir && Tfs.IsOpen(a, a.dir[name]))
    ensures var fs' := Unlink(View(a), name); OneCall(p, a, Back(fs')) && Fine(Back(fs'), p)
  {
    var a' := Tfs.Unlink(a, Path(name)).0;
    UnlinkView(a, name);
    BackView(a');
    hide Plain, Laws.Sound, View, Back, Unlink, Tfs.Unlink;
    assert Laws.Step(a, p, Laws.CUnlink(Path(name)), a');
    Called(p, a, Laws.CUnlink(Path(name)), a');
  }

  lemma NothingWritten(c: Config, p: Params, a: Tfs.Fs, h: int)
    requires Fine(a, p) && h in a.handles
    ensures WriteData(View(a), h, []) == View(a)
  {
    Laws.SoundHandle(a, p, h);
    var OpenFile(i, off) := a.handles[h];
    assert Content(View(a), i) == a.nodes[i].bytes && i in View(a).files;
    assert Overwrite(a.nodes[i].bytes, off, []) == a.nodes[i].bytes;
    assert View(a).files[i := a.nodes[i].bytes] == View(a).files;
    assert a.handles[h := OpenFile(i, off + 0)] == a.handles;
  }

  /** A write that goes through, in full or in part. */
  lemma WriteCalls(c: Config, p: Params, a: Tfs.Fs, h: int, msg: seq<byte>)
    requires Fine(a, p) && Matches(c, p) && h in a.handles && |msg| == c.msgLength
    requires ToWrite(c, View(a), h) == Some(0) || Content(View(a), a.handles[h].inumber) != [] || !Tfs.NoFreeBlock(a, p)
    ensures ToWrite(c, View(a), h).Some? && ToWrite(c, View(a), h).n <= |msg|
    ensures var fs' := WriteData(View(a), h, msg[..ToWrite(c, View(a), h).n]);
            OneCall(p, a, Back(fs')) && Fine(Back(fs'), p)
  {
    Laws.SoundHandle(a, p, h);
    WriteView(a, p, c, h, msg);
    var (a', n) := Tfs.Write(a, p, h, msg, Hole(a, h));
    assert |Hole(a, h)| == Tfs.Gap(a, h);
    if ToWrite(c, View(a), h).n == 0 {
      NothingWritten(c, p, a, h);
      BackView(a);
    } else {
      assert n != -1;
      BackView(a');
      hide Plain, Laws.Sound, View, Back, ToWrite, WriteData, Content, Tfs.Write, Tfs.HandleOnFile, Tfs.Gap;
      assert Laws.Step(a, p, Laws.CWrite(h, msg), a');
      Called(p, a, Laws.CWrite(h, msg), a');
    }
  }

  // ---- steps of the broker -------------------------------------------------------------------

  /** A write to an empty file finds a block when TfsSpec does. */
  predicate WriteChosen(c: Config, p: Params, w: Worker, x: Box, fs: Fs, e: Effect) {
    w.Pub? && w.ppc == PWrite && w.h in fs.handles && Content(fs, fs.handles[w.h].inumber) == []
        && ToWrite(c, fs, w.h) != Some(0) ==>
      (e.box.published == x.published <==> Tfs.NoFreeBlock(Back(fs), p))
  }

  ghost predicate ChosenMove(c: Config, p: Params, s: Broker, t: nat, s': Broker) {
    exists e, ws' :: MoveBy(c, s, t, e, ws', s') && WriteChosen(c, p, s.workers[t], s.boxes[s.workers[t].box], s.fs, e)
  }

  /** A box is created with the inode and the room that TfsSpec finds for its file. */
  ghost predicate ChosenCreate(c: Config, p: Params, s: Broker, t: nat, s': Broker) {
    exists b, name :: Create(c, s, t, b, name, NewId(Back(s.fs), p), HasRoom(Back(s.fs), p, name), s')
  }

  /** A step in which the files have the room that they have in TfsSpec. */
  ghost predicate ChosenNext(c: Config, p: Params, s: Broker, s': Broker) {
    exists t: nat ::
      || ChosenMove(c, p, s, t, s') || ChosenCreate(c, p, s, t, s')
      || (Enter(c, s, t, s') && s'.fs == s.fs) || Spurious(s, t, s')
  }

  ghost predicate IsChosenRun(c: Config, p: Params, states: seq<Broker>) {
    && |states| > 0 && Init(states[0])
    && forall k :: 0 < k < |states| ==> ChosenNext(c, p, states[k - 1], states[k])
  }

  ghost predicate Simulates(p: Params, fs: Fs, fs': Fs) {
    TwoCalls(p, Back(fs), Back(fs')) && Fine(Back(fs'), p)
  }

  lemma OneIsTwo(p: Params, a: Tfs.Fs, a': Tfs.Fs)
    requires OneCall(p, a, a')
    ensures TwoCalls(p, a, a')
  {
    assert OneCall(p, a', a');
  }

  lemma SubSimulates(c: Config, p: Params, t: nat, w: Worker, x: Box, fs: Fs, e: Effect)
    requires w.Sub? && SubStep(c, t, w, x, fs, e) && Matches(c, p) && Fine(Back(fs), p)
    ensures OneCall(p, Back(fs), Back(e.fs)) && Fine(Back(e.fs), p)
  {
    ViewBack(fs);
    hide Fine, View, Back, OneCall;
    assert OneCall(p, Back(fs), Back(fs)) by { OneCallNone(p, Back(fs)); }
    if w.spc == SOpen {
      OpenCalls(c, p, Back(fs), x.name, false);
    } else if w.spc == SRead && w.h in fs.handles {
      BackHandles(fs);
      ReadCalls(c, p, Back(fs), w.h);
    } else if w.spc == SExit || w.spc == SBreak {
      CloseCalls(p, Back(fs), w.h);
    }
  }

  lemma OneCallNone(p: Params, a: Tfs.Fs)
    ensures OneCall(p, a, a)
  {
  }

  lemma BackHandles(fs: Fs)
    ensures Back(fs).handles == fs.handles
  {
  }

  lemma PubSimulates(c: Config, p: Params, t: nat, w: Worker, x: Box, fs: Fs, e: Effect)
    requires w.Pub? && PubStep(c, t, w, x, fs, e) && Matches(c, p) && Fine(Back(fs), p)
    requires w.ppc == PWrite ==> |w.msg| == c.msgLength && w.h in fs.handles
    requires WriteChosen(c, p, w, x, fs, e)
    ensures OneCall(p, Back(fs), Back(e.fs)) && Fine(Back(e.fs), p)
  {
    ViewBack(fs);
    BackHandles(fs);
    hide Fine, View, Back, OneCall;
    OneCallNone(p, Back(fs));
    if w.ppc == POpen {
      OpenCalls(c, p, Back(fs), x.name, true);
    } else if w.ppc == PWrite {
      if e.box.published != x.published { WriteCalls(c, p, Back(fs), w.h, w.msg); }
    } else if w.ppc == PBreak || w.ppc == PCheck {
      CloseCalls(p, Back(fs), w.h);
    }
  }

  /** The file of a box that is removed is not open. */
  lemma RemSimulates(p: Params, t: nat, w: Worker, x: Box, fs: Fs, e: Effect)
    requires w.Rem? && RemStep(t, w, x, fs, e) && Fine(Back(fs), p)
    requires e.box.taken == FREE ==>
              x.name in fs.dir && forall h :: h in fs.handles ==> fs.handles[h].inumber != fs.dir[x.name]
    requires x.taken == TAKEN
    ensures OneCall(p, Back(fs), Back(e.fs)) && Fine(Back(e.fs), p)
  {
    ViewBack(fs);
    OneCallNone(p, Back(fs));
    if e.box.taken == FREE { UnlinkCalls(p, Back(fs), x.name); }
  }

  lemma MoveSimulates(c: Config, p: Params, s: Broker, t: nat, e: Effect, ws': seq<Worker>, s': Broker)
    requires Ok(c, s) && MoveBy(c, s, t, e, ws', s')
    requires WriteChosen(c, p, s.workers[t], s.boxes[s.workers[t].box], s.fs, e)
    requires Matches(c, p) && Fine(Back(s.fs), p)
    ensures Simulates(p, s.fs, s'.fs)
  {
    var w := s.workers[t];
    var x := s.boxes[w.box];
    assert WorkerOk(s, t) && WorkerFiles(c, s, t);
    if e.box.taken == FREE { FreedBy(c, s, t, e, ws', s', w.box); }
    assert Stored(c, x, s.fs);
    hide Ok, Fine, Back, SubStep, PubStep, RemStep, Awoken, OneCall, Fits, WriteChosen;
    if w.Sub? {
      SubSimulates(c, p, t, w, x, s.fs, e);
    } else if w.Pub? {
      PubSimulates(c, p, t, w, x, s.fs, e);
    } else {
      RemSimulates(p, t, w, x, s.fs, e);
    }
    OneIsTwo(p, Back(s.fs), Back(s'.fs));
  }

  /** A name without a box has no open file. */
  lemma NotOpen(c: Config, s: Broker, name: Name)
    requires Ok(c, s) && name in s.fs.dir && forall d: nat :: d < |s.boxes| ==> !IsBox(s, d, name)
    ensures forall h :: h in s.fs.handles ==> s.fs.handles[h].inumber != s.fs.dir[name]
  {
    forall h | h in s.fs.handles ensures s.fs.handles[h].inumber != s.fs.dir[name] {
      var u :| OwnerOf(s.workers, h, u);
      assert WorkerOk(s, u);
      HandlesInOrder(c, s, u);
      assert !IsBox(s, s.workers[u].box, name);
    }
  }

  lemma NoCallSimulates(p: Params, fs: Fs)
    requires Fine(Back(fs), p)
    ensures Simulates(p, fs, fs)
  {
    OneIsTwo(p, Back(fs), Back(fs));
  }

  lemma CreateSimulates(c: Config, p: Params, s: Broker, t: nat, b: nat, name: Name, s': Broker)
    requires Ok(c, s) && Create(c, s, t, b, name, NewId(Back(s.fs), p), HasRoom(Back(s.fs), p, name), s')
    requires Matches(c, p) && Fine(Back(s.fs), p)
    ensures Simulates(p, s.fs, s'.fs)
  {
    if name in s.fs.dir { NotOpen(c, s, name); }
    hide Ok, Fine, Back, OneCall;
    NoCallSimulates(p, s.fs);
    MakeEmptyCalls(c, p, s.fs, name);
  }

  /** box_create opens the file, and closes it again if there was a handle. */
  lemma MakeEmptyCalls(c: Config, p: Params, fs: Fs, name: Name)
    requires Matches(c, p) && Fine(Back(fs), p)
    requires name in fs.dir ==> forall h :: h in fs.handles ==> fs.handles[h].inumber != fs.dir[name]
    ensures var (fs1, i) := MakeEmpty(fs, name, NewId(Back(fs), p), HasRoom(Back(fs), p, name));
            if i == FAILED then fs1 == fs
            else Simulates(p, fs, fs1)
  {
    var a := Back(fs);
    var (a', h) := Tfs.Open(a, p, Path(name), MAKE_EMPTY);
    var (fs1, i) := MakeEmpty(fs, name, NewId(a, p), HasRoom(a, p, name));
    ViewBack(fs);
    MakeEmptyView(a, p, c, name);
    PlainStops(a, name);
    if i != FAILED {
      assert !Laws.Strands(a, Path(name), MAKE_EMPTY) by {
        PathName(name);
        if name in a.dir { PlainResolves(a, name); }
      }
      assert Laws.Step(a, p, Laws.COpen(Path(name), MAKE_EMPTY), a');
      Called(p, a, Laws.COpen(Path(name), MAKE_EMPTY), a');
      if h == FAILED {
        BackView(a');
        OneIsTwo(p, a, a');
      } else {
        CloseView(a', h);
        HandleGivenBack(c, fs1, i);
        CloseCalls(p, a', h);
        assert OneCall(p, a, a') && OneCall(p, a', Back(fs1));
      }
    }
  }

  lemma HandleGivenBack(c: Config, fs: Fs, i: int)
    ensures var (fs', h) := AddHandle(c, fs, i, 0); h != FAILED ==> Close(fs', h) == fs
  {
    var (fs', h) := AddHandle(c, fs, i, 0);
    if h != FAILED { assert fs'.handles - {h} == fs.handles; }
  }

  // ---- runs -------------------------------------------------------------------------------------

  lemma ChosenIsNext(c: Config, p: Params, s: Broker, s': Broker)
    requires ChosenNext(c, p, s, s')
    ensures Next(c, s, s')
  {
    var t: nat :| || ChosenMove(c, p, s, t, s') || ChosenCreate(c, p, s, t, s')
                  || (Enter(c, s, t, s') && s'.fs == s.fs) || Spurious(s, t, s');
    if ChosenMove(c, p, s, t, s') {
      assert Move(c, s, t, s');
    } else if ChosenCreate(c, p, s, t, s') {
      assert Enter(c, s, t, s');
    }
  }

  lemma NextSimulates(c: Config, p: Params, s: Broker, s': Broker)
    requires Ok(c, s) && ChosenNext(c, p, s, s') && Matches(c, p) && Fine(Back(s.fs), p)
    ensures Simulates(p, s.fs, s'.fs)
  {
    hide Ok, Fine, Back, Simulates, LocalStep, Awoken, Enter, WriteChosen, Create;
    var t: nat :| || ChosenMove(c, p, s, t, s') || ChosenCreate(c, p, s, t, s')
                  || (Enter(c, s, t, s') && s'.fs == s.fs) || Spurious(s, t, s');
    NoCallSimulates(p, s.fs);
    if ChosenMove(c, p, s, t, s') {
      var e, ws' :| MoveBy(c, s, t, e, ws', s') && WriteChosen(c, p, s.workers[t], s.boxes[s.workers[t].box], s.fs, e);
      MoveSimulates(c, p, s, t, e, ws', s');
    } else if ChosenCreate(c, p, s, t, s') {
      var b, name :| Create(c, s, t, b, name, NewId(Back(s.fs), p), HasRoom(Back(s.fs), p, name), s');
      CreateSimulates(c, p, s, t, b, name, s');
    }
  }

  lemma ChosenRunOk(c: Config, p: Params, states: seq<Broker>, k: nat)
    requires IsChosenRun(c, p, states) && k < |states|
    requires c.msgLength > 0
    ensures Ok(c, states[k])
  {
    hide Init, Next, ChosenNext, Ok;
    forall j | 0 < j < |states| ensures Next(c, states[j - 1], states[j]) {
      assert ChosenNext(c, p, states[j - 1], states[j]);
      ChosenIsNext(c, p, states[j - 1], states[j]);
    }
    RunOk(c, states, k);
  }

  /** In every run of the broker its files start as the empty TecnicoFS and stay the view of a
      sound one without links, and every step is at most two calls of it. */
  lemma {:induction false} RunSimulates(c: Config, p: Params, states: seq<Broker>, k: nat)
    requires IsChosenRun(c, p, states) && k < |states| && Matches(c, p)
    requires c.msgLength > 0
    ensures Back(states[0].fs) == Tfs.EMPTY
    ensures View(Back(states[k].fs)) == states[k].fs && Fine(Back(states[k].fs), p)
    ensures k > 0 ==> TwoCalls(p, Back(states[k - 1].fs), Back(states[k].fs))
  {
    ViewBack(states[k].fs);
    if k > 0 {
      RunSimulates(c, p, states, k - 1);
      ChosenRunOk(c, p, states, k - 1);
      hide Init, ChosenNext, Ok, Fine, View, Back, TwoCalls;
      assert ChosenNext(c, p, states[k - 1], states[k]);
      NextSimulates(c, p, states[k - 1], states[k]);
    }
  }
}

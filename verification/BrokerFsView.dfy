/** The calls of the broker are those of a TecnicoFS without links: what p1/fs proves of
    its arrays carries over to the broker's files. */
module BrokerFsView {
  import opened TfsTypes
  import opened BrokerFs
  import Tfs = TfsSpec
  import opened SymlinkWalk

  /** No links: every name has a file of its own, and is not empty. */
  ghost predicate Plain(a: Tfs.Fs) {
    && Consistent(a)
    && [] !in a.dir
    && (forall i :: i in a.nodes ==> i >= 0 && a.nodes[i].File?)
    && (forall m, n :: m in a.dir && n in a.dir && a.dir[m] == a.dir[n] ==> m == n)
  }

  function View(a: Tfs.Fs): Fs {
    Fs(map n | n in a.dir && a.dir[n] >= 0 :: a.dir[n],
       map i | i in a.nodes && a.nodes[i].File? :: a.nodes[i].bytes,
       a.handles)
  }

  function Path(name: Name): Name {
    [SLASH] + name
  }

  predicate Matches(c: Config, p: Params) {
    c.maxOpen == p.maxOpen && c.blockSize == p.blockSize
  }

  lemma PlainResolves(a: Tfs.Fs, name: Name)
    requires Plain(a) && name in a.dir
    ensures Tfs.Resolve(a, a.dir[name]) == Tfs.At(a.dir[name])
  {
    StoppedAtResolve(a, a.dir[name], 0);
  }

  lemma PathName(name: Name)
    ensures ValidPathname(Path(name)) <==> name != []
    ensures Path(name)[1..] == name
  {
  }

  lemma OpenView(a: Tfs.Fs, p: Params, c: Config, name: Name, append: bool)
    requires Plain(a) && Matches(c, p)
    ensures var (a', h) := Tfs.Open(a, p, Path(name), Mode(false, false, append));
            Plain(a') && Open(c, View(a), name, append) == (View(a'), h)
  {
    PathName(name);
    if name in a.dir { PlainResolves(a, name); }
  }

  lemma CloseView(a: Tfs.Fs, h: int)
    requires Plain(a)
    ensures Plain(Tfs.Close(a, h).0) && Close(View(a), h) == View(Tfs.Close(a, h).0)
  {
  }

  /** Reading: without a handle there is nothing, beyond the end of the file the subtraction
      wraps around, and otherwise the bytes and the new offset are those of TfsSpec.Read. */
  lemma ReadView(a: Tfs.Fs, c: Config, h: int)
    requires Plain(a)
    ensures h !in a.handles ==> ToRead(c, View(a), h) == NoHandle
    ensures !Tfs.OffsetInFile(a, h) <==> ToRead(c, View(a), h) == Underflow
    ensures h in a.handles && Tfs.OffsetInFile(a, h) ==>
              var ((a', n), bytes) := Tfs.Read(a, h, c.msgLength);
              && ToRead(c, View(a), h) == Some(n) && ReadData(View(a), h, n) == bytes
              && Plain(a') && Advance(View(a), h, n) == View(a')
  {
  }

  function Hole(a: Tfs.Fs, h: int): seq<byte> {
    seq(Tfs.Gap(a, h), _ => 0)
  }

  /** The gap before the offset, if there is one, is what the block held, and zeros here. */
  lemma OverwriteView(a: Tfs.Fs, h: int, bytes: seq<byte>)
    requires Plain(a) && h in a.handles
    ensures var OpenFile(i, off) := a.handles[h];
            && i in a.nodes && a.nodes[i].File? && Content(View(a), i) == a.nodes[i].bytes
            && off <= |a.nodes[i].bytes + Hole(a, h)|
            && Overwrite(Content(View(a), i), off, bytes) == Tfs.Overwrite(a.nodes[i].bytes + Hole(a, h), off, bytes)
  {
    var OpenFile(i, off) := a.handles[h];
    assert off <= |a.nodes[i].bytes| ==> a.nodes[i].bytes + Hole(a, h) == a.nodes[i].bytes;
  }

  /** A file is rewritten and its handle moves on. */
  lemma RewriteView(a: Tfs.Fs, h: int, content: seq<byte>, off: nat)
    requires Plain(a) && h in a.handles
    ensures var i := a.handles[h].inumber;
            var a' := a.(nodes := a.nodes[i := Tfs.File(content)], handles := a.handles[h := OpenFile(i, off)]);
            && Plain(a')
            && View(a') == View(a).(files := View(a).files[i := content], handles := a.handles[h := OpenFile(i, off)])
  {
    var i := a.handles[h].inumber;
    var a' := a.(nodes := a.nodes[i := Tfs.File(content)], handles := a.handles[h := OpenFile(i, off)]);
    assert View(a').files == View(a).files[i := content];
  }

  lemma WriteAmount(a: Tfs.Fs, p: Params, c: Config, h: int, msg: seq<byte>)
    requires Plain(a) && Matches(c, p) && |msg| == c.msgLength && h in a.handles && a.handles[h].offset <= p.blockSize
    ensures var (a', n) := Tfs.Write(a, p, h, msg, Hole(a, h));
            && ToWrite(c, View(a), h).Some? && ToWrite(c, View(a), h).n <= |msg|
            && if n == -1 then a' == a && Content(View(a), a.handles[h].inumber) == [] && Tfs.NoFreeBlock(a, p)
               else ToWrite(c, View(a), h) == Some(n)
  {
  }

  /** Writing at any offset in the block; beyond it the subtraction wraps around. */
  lemma WriteView(a: Tfs.Fs, p: Params, c: Config, h: int, msg: seq<byte>)
    requires Plain(a) && Matches(c, p) && |msg| == c.msgLength
    ensures h !in a.handles ==> ToWrite(c, View(a), h) == NoHandle
    ensures h in a.handles && a.handles[h].offset > p.blockSize ==> ToWrite(c, View(a), h) == Underflow
    ensures h in a.handles && a.handles[h].offset <= p.blockSize ==>
              var (a', n) := Tfs.Write(a, p, h, msg, Hole(a, h));
              && ToWrite(c, View(a), h).Some? && ToWrite(c, View(a), h).n <= |msg|
              && Plain(a')
              && if n == -1 then a' == a && Content(View(a), a.handles[h].inumber) == [] && Tfs.NoFreeBlock(a, p)
                 else ToWrite(c, View(a), h) == Some(n) && (n > 0 ==> WriteData(View(a), h, msg[..n]) == View(a'))
  {
    if h in a.handles && a.handles[h].offset <= p.blockSize {
      WriteAmount(a, p, c, h, msg);
      var OpenFile(i, off) := a.handles[h];
      var n := Tfs.Write(a, p, h, msg, Hole(a, h)).1;
      if n > 0 {
        OverwriteView(a, h, msg[..n]);
        hide Overwrite, Tfs.Overwrite, Hole, ToWrite, Content, Consistent;
        RewriteView(a, h, Tfs.Overwrite(a.nodes[i].bytes + Hole(a, h), off, msg[..n]), off + n);
        hide View, Plain;
      }
    }
  }

  lemma RemovePlain(a: Tfs.Fs, name: Name)
    requires Plain(a) && name in a.dir && !Tfs.IsOpen(a, a.dir[name])
    ensures var a' := Tfs.RemoveName(a, name);
            Plain(a') && a'.nodes == a.nodes - {a.dir[name]} && a'.dir == a.dir - {name}
  {
    var a' := Tfs.RemoveName(a, name);
    assert a'.dir == a.dir - {name} && a'.handles == a.handles;
    assert forall n :: n in a'.dir ==> a'.dir[n] != a.dir[name];
    assert a'.nodes == a.nodes - {a.dir[name]};
    hide Tfs.RemoveName;
    forall i | i in a'.nodes ensures exists n :: n in a'.dir && a'.dir[n] == i {
      var n :| n in a.dir && a.dir[n] == i;
      assert n in a'.dir;
    }
  }

  /** Unlinking removes the name and its file. That is TfsSpec.Unlink, but for a file that is
      open: p1/fs refuses, p2/fs does not. */
  lemma UnlinkView(a: Tfs.Fs, name: Name)
    requires Plain(a)
    ensures Unlink(View(a), name) == View(if name in a.dir then Tfs.RemoveName(a, name) else a)
    ensures name in a.dir && Tfs.IsOpen(a, a.dir[name]) <==> Unlink(View(a), name) != View(Tfs.Unlink(a, Path(name)).0)
    ensures !(name in a.dir && Tfs.IsOpen(a, a.dir[name])) ==> Plain(Tfs.Unlink(a, Path(name)).0)
  {
    PathName(name);
    if name in a.dir {
      assert a.nodes[a.dir[name]].File? && a.dir[name] >= 0;
      RemovedView(a, name);
      assert name in View(a).dir && name !in Unlink(View(a), name).dir;
      if !Tfs.IsOpen(a, a.dir[name]) { RemovePlain(a, name); }
    }
  }

  lemma RemovedView(a: Tfs.Fs, name: Name)
    requires Plain(a) && name in a.dir
    ensures Unlink(View(a), name) == View(Tfs.RemoveName(a, name))
  {
    var a' := Tfs.RemoveName(a, name);
    assert a'.dir == a.dir - {name} && a'.handles == a.handles;
    assert forall n :: n in a'.dir ==> a'.dir[n] != a.dir[name];
    assert a'.nodes == a.nodes - {a.dir[name]};
    assert a.nodes[a.dir[name]].File? && a.dir[name] >= 0;
    hide Tfs.RemoveName, Consistent;
    assert Unlink(View(a), name).dir == View(a').dir;
    assert Unlink(View(a), name).files == View(a').files;
  }

  /** The inode and the room that TfsSpec finds for a new file. */
  function NewId(a: Tfs.Fs, p: Params): nat {
    var id := Tfs.LeastUnused(Tfs.UsedIds(a), p.maxInodes);
    if id == -1 then 0 else id
  }

  predicate HasRoom(a: Tfs.Fs, p: Params, name: Name) {
    Tfs.LeastUnused(Tfs.UsedIds(a), p.maxInodes) != -1 && Tfs.CanAdd(a, p, name)
  }

  const MAKE_EMPTY := Mode(true, true, false)

  /** The file that box_create makes, or makes empty, open or not. */
  lemma MakeEmptyView(a: Tfs.Fs, p: Params, c: Config, name: Name)
    requires Plain(a) && Matches(c, p)
    ensures var (fs1, i) := MakeEmpty(View(a), name, NewId(a, p), HasRoom(a, p, name));
            var (a', h) := Tfs.Open(a, p, Path(name), MAKE_EMPTY);
            Plain(a') && if i == FAILED then h == -1 && a' == a else AddHandle(c, fs1, i, 0) == (View(a'), h)
  {
    PathName(name);
    if name in a.dir {
      PlainResolves(a, name);
      TruncateView(a, name);
      HandleView(Tfs.Truncate(a, a.dir[name]), p, c, a.dir[name]);
    } else {
      var (a1, id) := Tfs.CreateFile(a, p, name);
      if id != -1 {
        CreateView(a, p, name);
        HandleView(a1, p, c, id);
      }
    }
  }

  lemma TruncateView(a: Tfs.Fs, name: Name)
    requires Plain(a) && name in a.dir
    ensures var a' := Tfs.Truncate(a, a.dir[name]);
            Plain(a') && View(a') == View(a).(files := View(a).files[a.dir[name] := []])
  {
  }

  function Added(a: Tfs.Fs, name: Name, id: nat): Tfs.Fs {
    a.(dir := a.dir[name := id], nodes := a.nodes[id := Tfs.File([])])
  }

  lemma AddedConsistent(a: Tfs.Fs, name: Name, id: nat)
    requires Consistent(a) && name !in a.dir && id !in a.nodes && id > 0
    ensures Consistent(Added(a, name, id))
  {
    var a' := Added(a, name, id);
    assert forall n :: n in a'.dir ==> a'.dir[n] == if n == name then id else a.dir[n];
    assert forall n :: n in a.dir ==> a.dir[n] != id;
    forall i | i in a'.nodes ensures exists n :: n in a'.dir && a'.dir[n] == i {
      if i == id { assert name in a'.dir && a'.dir[name] == i; } else {
        var n :| n in a.dir && a.dir[n] == i;
        assert n in a'.dir && a'.dir[n] == i;
      }
    }
  }

  lemma AddedPlain(a: Tfs.Fs, name: Name, id: nat)
    requires Plain(a) && name !in a.dir && name != [] && id !in a.nodes && id > 0
    ensures Plain(Added(a, name, id))
  {
    var a' := Added(a, name, id);
    AddedConsistent(a, name, id);
    assert forall n :: n in a.dir ==> a.dir[n] != id;
    hide Consistent;
    forall m, n | m in a'.dir && n in a'.dir && a'.dir[m] == a'.dir[n] ensures m == n {
      if m != name && n != name { assert a.dir[m] == a.dir[n]; }
    }
  }

  lemma AddedView(a: Tfs.Fs, name: Name, id: nat)
    requires forall n :: n in a.dir ==> a.dir[n] >= 0
    ensures View(Added(a, name, id)) == View(a).(dir := View(a).dir[name := id], files := View(a).files[id := []])
  {
    var a' := Added(a, name, id);
    assert View(a').dir == View(a).dir[name := id];
    assert View(a').files == View(a).files[id := []];
  }

  lemma CreateView(a: Tfs.Fs, p: Params, name: Name)
    requires Plain(a) && name !in a.dir && Tfs.CreateFile(a, p, name).1 != -1
    ensures var (a', id) := Tfs.CreateFile(a, p, name);
            && Plain(a') && id >= 0
            && View(a') == View(a).(dir := View(a).dir[name := id], files := View(a).files[id := []])
  {
    var (a', id) := Tfs.CreateFile(a, p, name);
    assert id > 0 && id !in a.nodes && a' == Added(a, name, id);
    assert forall n :: n in a.dir ==> a.dir[n] >= 0;
    AddedPlain(a, name, id);
    AddedView(a, name, id);
    hide Plain, Tfs.CreateFile, Added, View;
  }

  lemma HandleView(a: Tfs.Fs, p: Params, c: Config, id: int)
    requires Plain(a) && Matches(c, p) && id in a.nodes
    ensures var (a', h) := Tfs.AddHandle(a, p, id, 0); Plain(a') && AddHandle(c, View(a), id, 0) == (View(a'), h)
  {
  }
}

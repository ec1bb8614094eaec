/** Laws of the file system that its users rely on, over the abstract calls that
    the array code refines. */
module TfsLaws {
  import opened TfsTypes
  import opened TfsSpec
  import opened SymlinkWalk

  // ---- runs -----------------------------------------------------------------------

  datatype Call =
    | COpen(name: CString, mode: Mode)
    | CClose(h: int)
    | CWrite(h: int, buffer: seq<byte>)
    | CRead(h: int, len: nat)
    | CSymLink(target: CString, linkName: CString)
    | CLink(target: CString, linkName: CString)
    | CUnlink(name: CString)
    | CImport(source: Source, dest: CString)

  /** The state between calls: consistent, and every offset inside its file. */
  ghost predicate Sound(a: Fs, p: Params) {
    && Consistent(a)
    && OffsetsInFiles(a)
    && (forall i :: i in a.nodes && a.nodes[i].File? ==> |a.nodes[i].bytes| <= p.blockSize)
  }

  /** The open cuts a file short of an offset that some handle has reached. */
  ghost predicate Strands(a: Fs, name: CString, mode: Mode) {
    && mode.trunc && ValidPathname(name) && name[1..] in a.dir
    && exists h :: h in a.handles && a.handles[h].offset > 0 && Resolve(a, a.dir[name[1..]]) == At(a.handles[h].inumber)
  }

  /** How much of the destination an import leaves: nothing if there is no handle or no
      block for it. */
  function ImportSize(a: Fs, p: Params, source: Source, dest: CString): nat
    requires source.Readable?
  {
    var (a1, h) := Open(a, p, dest, IMPORT_MODE);
    if h == -1 || (source.bytes != [] && NoFreeBlock(a1, p)) then 0 else Min(|source.bytes|, p.blockSize)
  }

  /** The import leaves less than some handle has reached. */
  ghost predicate ImportStrands(a: Fs, p: Params, source: Source, dest: CString) {
    && source.Readable? && ValidPathname(dest) && dest[1..] in a.dir
    && exists h :: h in a.handles && a.handles[h].offset > ImportSize(a, p, source, dest)
                   && Resolve(a, a.dir[dest[1..]]) == At(a.handles[h].inumber)
  }

  /** A call leaves an offset beyond the end of its file. */
  ghost predicate CallStrands(a: Fs, p: Params, c: Call) {
    || (c.COpen? && Strands(a, c.name, c.mode))
    || (c.CImport? && ImportStrands(a, p, c.source, c.dest))
  }

  /** A call and its effect: what the methods of TecnicoFs.Tfs require and ensure. */
  ghost predicate Step(a: Fs, p: Params, c: Call, a': Fs) {
    match c
    case COpen(name, mode) => PathStops(a, name) && a' == Open(a, p, name, mode).0
    case CClose(h) => a' == Close(a, h).0
    case CWrite(h, buffer) =>
      HandleOnFile(a, p, h) && exists hole :: |hole| == Gap(a, h) && a' == Write(a, p, h, buffer, hole).0
    case CRead(h, len) => HandleOnFile(a, p, h) && OffsetInFile(a, h) && a' == Read(a, h, len).0.0
    case CSymLink(target, linkName) =>
      1 <= |target| < p.blockSize && |linkName| >= 1 && a' == SymLink(a, p, target, linkName).0
    case CLink(target, linkName) => |linkName| >= 1 && a' == HardLink(a, p, target, linkName).0
    case CUnlink(name) => a' == Unlink(a, name).0
    case CImport(source, dest) => PathStops(a, dest) && a' == Import(a, p, source, dest).0
  }

  lemma SoundHandle(a: Fs, p: Params, h: int)
    requires Sound(a, p)
    ensures HandleOnFile(a, p, h) && OffsetInFile(a, h) && Gap(a, h) == 0
  {
  }

  lemma ResolveFile(a: Fs, p: Params, name: CString)
    requires Sound(a, p) && ValidPathname(name) && name[1..] in a.dir && PathStops(a, name)
    ensures var w := Resolve(a, a.dir[name[1..]]); w.At? ==> w.id in a.nodes && a.nodes[w.id].File?
  {
    var id := a.dir[name[1..]];
    var k: nat :| !IsLink(a, Iterate(a, At(id), k));
    StoppedAtResolve(a, id, k);
  }

  lemma AddHandleSound(a: Fs, p: Params, id: int, offset: nat)
    requires Sound(a, p) && id in a.nodes && a.nodes[id].File? && offset <= |a.nodes[id].bytes|
    ensures Sound(AddHandle(a, p, id, offset).0, p)
  {
  }

  lemma TruncateSound(a: Fs, p: Params, id: int)
    requires Sound(a, p) && id in a.nodes && a.nodes[id].File?
    requires forall h :: h in a.handles && a.handles[h].inumber == id ==> a.handles[h].offset == 0
    ensures Sound(Truncate(a, id), p)
  {
  }

  lemma NodeAddedSound(a: Fs, p: Params, name: CString, id: int, n: Node)
    requires Sound(a, p) && id != ROOT_DIR_INUM && id !in a.nodes && name !in a.dir && (n.Link? || n.bytes == [])
    ensures Sound(a.(dir := a.dir[name := id], nodes := a.nodes[id := n]), p)
  {
    var a' := a.(dir := a.dir[name := id], nodes := a.nodes[id := n]);
    forall i | i in a'.nodes ensures exists m :: m in a'.dir && a'.dir[m] == i {
      if i == id { assert a'.dir[name] == id; } else {
        var m :| m in a.dir && a.dir[m] == i;
        assert a'.dir[m] == i;
      }
    }
    forall m, k | m in a'.dir && k in a'.dir && a'.dir[m] == a'.dir[k] && a'.nodes[a'.dir[m]].Link? ensures m == k {
      if m in a.dir && k in a.dir { assert a.dir[m] in a.nodes && a.dir[k] in a.nodes; }
    }
  }

  lemma NameAddedSound(a: Fs, p: Params, name: CString, id: int)
    requires Sound(a, p) && name !in a.dir && id in a.nodes && a.nodes[id].File?
    ensures Sound(a.(dir := a.dir[name := id]), p)
  {
    var a' := a.(dir := a.dir[name := id]);
    forall i | i in a'.nodes ensures exists m :: m in a'.dir && a'.dir[m] == i {
      var m :| m in a.dir && a.dir[m] == i;
      assert a'.dir[m] == i;
    }
  }

  lemma RemoveNameSound(a: Fs, p: Params, name: CString)
    requires Sound(a, p) && name in a.dir
    requires IsLink(a, At(a.dir[name])) || !IsOpen(a, a.dir[name])
    ensures Sound(RemoveName(a, name), p)
  {
    var a' := RemoveName(a, name);
    forall i | i in a'.nodes ensures exists m :: m in a'.dir && a'.dir[m] == i {
      var m :| m in a.dir && a.dir[m] == i;
      if m != name { assert a'.dir[m] == i; } else { assert i in a'.dir.Values; }
    }
    forall m | m in a'.dir ensures a'.dir[m] in a'.nodes {
      assert a'.dir[m] in a'.dir.Values;
    }
    forall h | h in a'.handles ensures a'.handles[h].inumber in a'.nodes {
      assert h in a.handles;
    }
  }

  lemma OpenSound(a: Fs, p: Params, name: CString, mode: Mode)
    requires Sound(a, p) && PathStops(a, name) && !Strands(a, name, mode)
    ensures Sound(Open(a, p, name, mode).0, p)
  {
    if ValidPathname(name) && name[1..] in a.dir {
      var w := Resolve(a, a.dir[name[1..]]);
      ResolveFile(a, p, name);
      if w.At? {
        if mode.trunc { TruncateSound(a, p, w.id); }
        var a1 := if mode.trunc then Truncate(a, w.id) else a;
        AddHandleSound(a1, p, w.id, if mode.append then FileSize(a1, w.id) else 0);
      }
    } else if ValidPathname(name) && mode.creat {
      var (a1, id) := CreateFile(a, p, name[1..]);
      if id != -1 {
        NodeAddedSound(a, p, name[1..], id, File([]));
        AddHandleSound(a1, p, id, 0);
      }
    }
  }

  lemma WriteSound(a: Fs, p: Params, h: int, buffer: seq<byte>, hole: seq<byte>)
    requires Sound(a, p) && HandleOnFile(a, p, h) && |hole| == Gap(a, h)
    ensures Sound(Write(a, p, h, buffer, hole).0, p)
  {
    SoundHandle(a, p, h);
  }

  lemma ReadSound(a: Fs, p: Params, h: int, len: nat)
    requires Sound(a, p)
    ensures HandleOnFile(a, p, h) && OffsetInFile(a, h) && Sound(Read(a, h, len).0.0, p)
  {
    SoundHandle(a, p, h);
  }

  lemma SymLinkSound(a: Fs, p: Params, target: CString, linkName: CString)
    requires Sound(a, p) && |target| >= 1 && |linkName| >= 1
    ensures Sound(SymLink(a, p, target, linkName).0, p)
  {
    hide Sound;
    var id := LeastUnused(UsedIds(a), p.maxInodes);
    if SymLink(a, p, target, linkName).1 == 0 { NodeAddedSound(a, p, linkName[1..], id, Link(target[1..])); }
  }

  lemma HardLinkSound(a: Fs, p: Params, target: CString, linkName: CString)
    requires Sound(a, p) && |linkName| >= 1
    ensures Sound(HardLink(a, p, target, linkName).0, p)
  {
    if HardLink(a, p, target, linkName).1 == 0 { NameAddedSound(a, p, linkName[1..], a.dir[target[1..]]); }
  }

  lemma UnlinkSound(a: Fs, p: Params, name: CString)
    requires Sound(a, p)
    ensures Sound(Unlink(a, name).0, p)
  {
    if Unlink(a, name).1 == 0 { RemoveNameSound(a, p, name[1..]); }
  }

  // ---- importing --------------------------------------------------------------------------

  function Refilled(a: Fs, id: int, content: seq<byte>): Fs {
    a.(nodes := a.nodes[id := File(content)])
  }

  lemma RefilledSound(a: Fs, p: Params, id: int, content: seq<byte>)
    requires Sound(a, p) && id in a.nodes && a.nodes[id].File? && |content| <= p.blockSize
    ensures Consistent(Refilled(a, id, content))
    ensures Sound(Refilled(a, id, content), p) <==> OffsetsInFiles(Refilled(a, id, content))
    ensures OffsetsInFiles(Refilled(a, id, content)) <==>
              forall h :: h in a.handles && a.handles[h].inumber == id ==> a.handles[h].offset <= |content|
  {
    var a' := Refilled(a, id, content);
    if OffsetsInFiles(a') {
      forall h | h in a.handles && a.handles[h].inumber == id ensures a.handles[h].offset <= |content| {
        assert h in a'.handles && OffsetInFile(a', h);
      }
    }
  }

  /** The handle that the import takes is given back. */
  lemma ImportFills(a: Fs, p: Params, id: int, bytes: seq<byte>)
    ensures var (a1, h) := AddHandle(a, p, id, 0);
            h != -1 ==> Close(Filled(a1, h, bytes), h).0 == Refilled(a, id, bytes) && Close(a1, h).0 == a
  {
    var (a1, h) := AddHandle(a, p, id, 0);
    if h != -1 {
      assert a1.handles - {h} == a.handles;
      assert Filled(a1, h, bytes).handles - {h} == a.handles;
    }
  }

  /** Importing over a file that is there. */
  lemma ImportOver(a: Fs, p: Params, source: Source, dest: CString, id: int)
    requires Sound(a, p) && PathStops(a, dest) && source.Readable? && ValidPathname(dest)
    requires dest[1..] in a.dir && Resolve(a, a.dir[dest[1..]]) == At(id)
    ensures id in a.nodes && a.nodes[id].File? && ImportSize(a, p, source, dest) <= |source.bytes|
    ensures Import(a, p, source, dest).0 == Refilled(a, id, source.bytes[..ImportSize(a, p, source, dest)])
  {
    ResolveFile(a, p, dest);
    var n := ImportSize(a, p, source, dest);
    ImportFills(Truncate(a, id), p, id, source.bytes[..n]);
    assert Refilled(Truncate(a, id), id, source.bytes[..n]) == Refilled(a, id, source.bytes[..n]);
    assert source.bytes[..0] == [];
  }

  lemma OpenNew(a: Fs, p: Params, dest: CString)
    requires ValidPathname(dest) && dest[1..] !in a.dir
    ensures var (a1, id) := CreateFile(a, p, dest[1..]);
            && Open(a, p, dest, IMPORT_MODE) == (if id == -1 then (a, -1) else AddHandle(a1, p, id, 0))
            && (id == -1 ==> a1 == a) && (id != -1 ==> id in a1.nodes && a1.nodes[id] == File([]))
  {
  }

  /** Importing under a new name. */
  lemma ImportNew(a: Fs, p: Params, source: Source, dest: CString)
    requires source.Readable? && ValidPathname(dest) && dest[1..] !in a.dir
    ensures var (a1, id) := CreateFile(a, p, dest[1..]);
            && ImportSize(a, p, source, dest) <= |source.bytes|
            && Import(a, p, source, dest).0 ==
               if id == -1 then a else Refilled(a1, id, source.bytes[..ImportSize(a, p, source, dest)])
  {
    var (a1, id) := CreateFile(a, p, dest[1..]);
    OpenNew(a, p, dest);
    hide Open, CreateFile, NoFreeBlock;
    var n := ImportSize(a, p, source, dest);
    if id != -1 {
      ImportFills(a1, p, id, source.bytes[..n]);
      assert a1.nodes[id := File([])] == a1.nodes;
      assert source.bytes[..0] == [];
      hide Close, Filled;
    }
  }

  lemma ImportedOffsets(a: Fs, p: Params, source: Source, dest: CString)
    requires Sound(a, p) && PathStops(a, dest)
    ensures var a' := Import(a, p, source, dest).0;
            && (Sound(a', p) <==> OffsetsInFiles(a')) && (OffsetsInFiles(a') <==> !ImportStrands(a, p, source, dest))
  {
    if source.Readable? && ValidPathname(dest) {
      var n := ImportSize(a, p, source, dest);
      if dest[1..] in a.dir {
        var w := Resolve(a, a.dir[dest[1..]]);
        if w.At? {
          ImportOver(a, p, source, dest, w.id);
          RefilledSound(a, p, w.id, source.bytes[..n]);
        }
      } else {
        ImportNew(a, p, source, dest);
        var (a1, id) := CreateFile(a, p, dest[1..]);
        if id != -1 {
          NodeAddedSound(a, p, dest[1..], id, File([]));
          RefilledSound(a1, p, id, source.bytes[..n]);
          assert forall h :: h in a.handles ==> a.handles[h].inumber in a.nodes;
        }
      }
    }
  }

  lemma ImportSound(a: Fs, p: Params, source: Source, dest: CString)
    requires Sound(a, p) && PathStops(a, dest) && !ImportStrands(a, p, source, dest)
    ensures Sound(Import(a, p, source, dest).0, p)
  {
    ImportedOffsets(a, p, source, dest);
  }

  /** Every call that strands no offset keeps the state sound. */
  lemma StepSound(a: Fs, p: Params, c: Call, a': Fs)
    requires Sound(a, p) && Step(a, p, c, a')
    requires !CallStrands(a, p, c)
    ensures Sound(a', p)
  {
    match c
    case COpen(name, mode) => OpenSound(a, p, name, mode);
    case CClose(h) =>
    case CWrite(h, buffer) =>
      var hole :| |hole| == Gap(a, h) && a' == Write(a, p, h, buffer, hole).0;
      WriteSound(a, p, h, buffer, hole);
    case CRead(h, len) => ReadSound(a, p, h, len);
    case CSymLink(target, linkName) => SymLinkSound(a, p, target, linkName);
    case CLink(target, linkName) => HardLinkSound(a, p, target, linkName);
    case CUnlink(name) => UnlinkSound(a, p, name);
    case CImport(source, dest) => ImportSound(a, p, source, dest);
  }

  /** A run of calls from the empty file system that never strands an offset. */
  ghost predicate IsRun(states: seq<Fs>, calls: seq<Call>, p: Params) {
    && |states| == |calls| + 1
    && states[0] == EMPTY
    && (forall k :: 0 <= k < |calls| ==> Step(states[k], p, calls[k], states[k + 1]))
    && (forall k :: 0 <= k < |calls| ==> !CallStrands(states[k], p, calls[k]))
  }

  /** In every such run no offset is ever beyond the end of its file, and no handle ever
      refers to a link or to a deleted node. */
  lemma {:induction false} RunsStaySound(states: seq<Fs>, calls: seq<Call>, p: Params, k: nat)
    requires IsRun(states, calls, p) && k < |states|
    ensures Sound(states[k], p)
  {
    if k > 0 {
      RunsStaySound(states, calls, p, k - 1);
      assert Step(states[k - 1], p, calls[k - 1], states[k - 1 + 1]);
      StepSound(states[k - 1], p, calls[k - 1], states[k]);
    }
  }

  /** An open leaves an offset beyond the end of its file exactly when it truncates a
      file that another handle has advanced into. */
  lemma OpenStrandsIff(a: Fs, p: Params, name: CString, mode: Mode)
    requires Sound(a, p) && PathStops(a, name)
    ensures OffsetsInFiles(Open(a, p, name, mode).0) <==> !Strands(a, name, mode)
  {
    if Strands(a, name, mode) {
      var h :| h in a.handles && a.handles[h].offset > 0 && Resolve(a, a.dir[name[1..]]) == At(a.handles[h].inumber);
      var a' := Open(a, p, name, mode).0;
      assert h in a'.handles && a'.handles[h] == a.handles[h];
      assert !OffsetInFile(a', h);
    } else {
      OpenSound(a, p, name, mode);
    }
  }

  /** An import does exactly when some handle on the destination has advanced beyond what
      the import leaves there. */
  lemma ImportStrandsIff(a: Fs, p: Params, source: Source, dest: CString)
    requires Sound(a, p) && PathStops(a, dest)
    ensures OffsetsInFiles(Import(a, p, source, dest).0) <==> !ImportStrands(a, p, source, dest)
  {
    ImportedOffsets(a, p, source, dest);
  }

  // ---- they happen ------------------------------------------------------------------------

  const DEMO_PATH: CString := [SLASH, 97]
  const DEMO_NAME: CString := [97]
  const CREATE := Mode(true, false, false)
  const TRUNCATE := Mode(false, true, false)

  /** Room for one more inode, block and name than the root needs. */
  predicate RoomForOne(p: Params) {
    p.maxInodes >= 2 && p.maxBlocks >= 2 && p.blockSize >= DIR_ENTRY_SIZE
  }

  function Demo(bytes: seq<byte>, offset: nat): Fs {
    Fs(map[DEMO_NAME := 1], map[1 := File(bytes)], map[0 := OpenFile(1, offset)])
  }

  lemma EmptyCreates(p: Params)
    requires RoomForOne(p)
    ensures LeastUnused(UsedIds(EMPTY), p.maxInodes) == 1 && (p.maxOpen > 0 ==> LeastUnused({}, p.maxOpen) == 0)
    ensures CanAdd(EMPTY, p, DEMO_NAME) && !NoFreeBlock(EMPTY, p)
    ensures DEMO_PATH[1..] == DEMO_NAME
  {
    assert 1 !in UsedIds(EMPTY) && 0 in UsedIds(EMPTY);
    assert BlockUsers(EMPTY) == {};
    assert p.MaxDirEntries() >= 1;
  }

  /** A file is created and a byte written to it. */
  lemma DemoReached(p: Params)
    requires RoomForOne(p) && p.maxOpen > 0
    ensures IsRun([EMPTY, Demo([], 0), Demo([7], 1)], [COpen(DEMO_PATH, CREATE), CWrite(0, [7])], p)
  {
    EmptyCreates(p);
    var a, a1, a2 := EMPTY, Demo([], 0), Demo([7], 1);
    assert Open(a, p, DEMO_PATH, CREATE).0 == a1;
    assert Step(a, p, COpen(DEMO_PATH, CREATE), a1);
    DemoWritten(p);
    assert Step(a1, p, CWrite(0, [7]), a2);
  }

  lemma DemoWritten(p: Params)
    requires RoomForOne(p)
    ensures Gap(Demo([], 0), 0) == 0 && HandleOnFile(Demo([], 0), p, 0)
    ensures Write(Demo([], 0), p, 0, [7], []).0 == Demo([7], 1)
  {
    var a: Fs := Demo([], 0);
    var buffer: seq<byte> := [7];
    assert BlockUsers(a) == {} && !NoFreeBlock(a, p);
    assert buffer[..1] == buffer && Overwrite([] + [], 0, buffer) == buffer;
    assert Demo([7], 1).nodes == a.nodes[1 := File(buffer)];
  }

  /** From the empty file system, two calls lead to where a truncating open leaves a handle
      beyond the end of its file. */
  lemma StrandedExample(p: Params)
    requires RoomForOne(p) && p.maxOpen > 0
    ensures IsRun([EMPTY, Demo([], 0), Demo([7], 1)], [COpen(DEMO_PATH, CREATE), CWrite(0, [7])], p)
    ensures Sound(Demo([7], 1), p) && !OffsetsInFiles(Open(Demo([7], 1), p, DEMO_PATH, TRUNCATE).0)
  {
    DemoReached(p);
    var a := Demo([7], 1);
    RunsStaySound([EMPTY, Demo([], 0), a], [COpen(DEMO_PATH, CREATE), CWrite(0, [7])], p, 2);
    assert DEMO_PATH[1..] == DEMO_NAME && a.dir[DEMO_NAME] == 1;
    assert !IsLink(a, Iterate(a, At(1), 0));
    StoppedAtResolve(a, 1, 0);
    assert 0 in a.handles && a.handles[0].offset > 0;
    assert Strands(a, DEMO_PATH, TRUNCATE);
    OpenStrandsIff(a, p, DEMO_PATH, TRUNCATE);
  }

  function SelfLink(): Fs {
    Fs(map[DEMO_NAME := 1], map[1 := Link(DEMO_NAME)], map[])
  }

  lemma {:induction false} SelfLinkLoops(k: nat)
    ensures Iterate(SelfLink(), At(1), k) == At(1)
  {
    if k > 0 { SelfLinkLoops(k - 1); }
  }

  /** From the empty file system, one successful tfs_sym_link leads to a sound state in which
      opening the link never returns. */
  lemma LoopingExample(p: Params)
    requires RoomForOne(p)
    ensures SymLink(EMPTY, p, DEMO_PATH, DEMO_PATH) == (SelfLink(), 0)
    ensures IsRun([EMPTY, SelfLink()], [CSymLink(DEMO_PATH, DEMO_PATH)], p)
    ensures Sound(SelfLink(), p) && !PathStops(SelfLink(), DEMO_PATH)
  {
    EmptyCreates(p);
    assert Step(EMPTY, p, CSymLink(DEMO_PATH, DEMO_PATH), SelfLink());
    RunsStaySound([EMPTY, SelfLink()], [CSymLink(DEMO_PATH, DEMO_PATH)], p, 1);
    forall k: nat ensures IsLink(SelfLink(), Iterate(SelfLink(), At(1), k)) { SelfLinkLoops(k); }
  }
}

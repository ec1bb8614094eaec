/** What each call answers and what it leaves behind: exactly when it succeeds, what its result
    is, and that nothing else changes, said of names, bytes and handles one by one. */
module TfsAnswers {
  import opened TfsTypes
  import opened TfsSpec
  import opened SymlinkWalk
  import opened TfsLaws
  import opened TfsRoundTrip

  /** The path leads to a name that is there. */
  predicate PathThere(a: Fs, path: CString) {
    |path| > 1 && path[0] == 47 && path[1..] in a.dir
  }

  /** A new name of 1 to 39 bytes, and an entry for it. */
  predicate NewName(a: Fs, p: Params, name: CString) {
    0 < |name| < 40 && name !in a.dir && |a.dir| < p.blockSize / 44
  }

  /** The smallest free handle. */
  ghost predicate FirstFreeHandle(a: Fs, p: Params, h: int) {
    0 <= h < p.maxOpen && h !in a.handles && forall j :: 0 <= j < h ==> j in a.handles
  }

  ghost predicate HandlesFull(a: Fs, p: Params) {
    forall h :: 0 <= h < p.maxOpen ==> h in a.handles
  }

  /** The smallest inode that is neither the root's nor a node's. */
  ghost predicate FirstFreeInode(a: Fs, p: Params, id: int) {
    0 < id < p.maxInodes && id !in a.nodes && forall j :: 0 < j < id ==> j in a.nodes
  }

  ghost predicate InodesFull(a: Fs, p: Params) {
    forall id :: 0 < id < p.maxInodes ==> id in a.nodes
  }

  // ---- opening and closing ---------------------------------------------------------------

  lemma HandleAnswers(a: Fs, p: Params, id: int, offset: nat)
    ensures var (a', h) := AddHandle(a, p, id, offset);
            if HandlesFull(a, p) then h == -1 && a' == a
            else h != -1 && FirstFreeHandle(a, p, h) && a' == a.(handles := a.handles[h := OpenFile(id, offset)])
  {
    var h := LeastUnused(a.handles.Keys, p.maxOpen);
    if h != -1 { assert h !in a.handles; }
  }

  /** Opening a path that leads to a file, in every mode: emptied if and only if it is to be
      truncated, and the handle at its end if it is to be appended to, created or not. */
  lemma OpenThereAnswers(a: Fs, p: Params, path: CString, id: int, mode: Mode)
    requires Sound(a, p) && Opens(a, path, id)
    ensures id in a.nodes && a.nodes[id].File?
    ensures var (a', h) := Open(a, p, path, mode);
            && a'.dir == a.dir
            && a'.nodes == (if mode.trunc then a.nodes[id := File([])] else a.nodes)
            && (if HandlesFull(a, p) then h == -1 && a'.handles == a.handles
                else FirstFreeHandle(a, p, h)
                     && a'.handles ==
                        a.handles[h := OpenFile(id, if mode.append && !mode.trunc then |a.nodes[id].bytes| else 0)])
  {
    ResolveFile(a, p, path);
    var a1 := if mode.trunc then Truncate(a, id) else a;
    HandleAnswers(a1, p, id, if mode.append then FileSize(a1, id) else 0);
  }

  /** The open has made an empty file of this name. */
  ghost predicate OpenedNew(a: Fs, p: Params, name: CString, id: int, a': Fs, h: int) {
    && FirstFreeInode(a, p, id)
    && a'.dir == a.dir[name := id] && a'.nodes == a.nodes[id := File([])]
    && if HandlesFull(a, p) then h == -1 && a'.handles == a.handles
       else FirstFreeHandle(a, p, h) && a'.handles == a.handles[h := OpenFile(id, 0)]
  }

  /** Opening a path to a name that is not there: without TFS_O_CREAT, a new name and a free inode
      nothing happens, and otherwise there is an empty file, whatever else the mode asks for. */
  lemma OpenNewAnswers(a: Fs, p: Params, path: CString, mode: Mode)
    requires !PathThere(a, path)
    ensures var (a', h) := Open(a, p, path, mode);
            if |path| <= 1 || path[0] != 47 || !mode.creat || InodesFull(a, p) || !NewName(a, p, path[1..]) then
              h == -1 && a' == a
            else exists id :: OpenedNew(a, p, path[1..], id, a', h)
  {
    if |path| > 1 && path[0] == 47 && mode.creat {
      var (a1, id) := CreateFile(a, p, path[1..]);
      InodeAnswers(a, p);
      hide LeastUnused, UsedIds, InodesFull, FirstFreeInode, HandlesFull, FirstFreeHandle, AddHandle, Resolve, OpenNode;
      if id != -1 {
        HandleAnswers(a1, p, id, 0);
        SameHandles(a, a1, p);
        assert Open(a, p, path, mode) == AddHandle(a1, p, id, 0);
        assert OpenedNew(a, p, path[1..], id, AddHandle(a1, p, id, 0).0, AddHandle(a1, p, id, 0).1);
      } else { assert InodesFull(a, p) || !NewName(a, p, path[1..]); }
    }
  }

  lemma SameHandles(a: Fs, a1: Fs, p: Params)
    requires a1.handles == a.handles
    ensures HandlesFull(a1, p) == HandlesFull(a, p)
    ensures forall h :: FirstFreeHandle(a1, p, h) == FirstFreeHandle(a, p, h)
  {
  }

  lemma InodeAnswers(a: Fs, p: Params)
    ensures var id := LeastUnused(UsedIds(a), p.maxInodes);
            if InodesFull(a, p) then id == -1 else id != -1 && FirstFreeInode(a, p, id)
  {
    var id := LeastUnused(UsedIds(a), p.maxInodes);
    if id != -1 {
      assert id !in UsedIds(a);
      forall j | 0 < j < id ensures j in a.nodes { assert j in UsedIds(a); }
    } else {
      forall j | 0 < j < p.maxInodes ensures j in a.nodes { assert j in UsedIds(a); }
    }
  }

  /** After k links this path leads to a name that is not there. */
  predicate Breaks(a: Fs, path: CString, k: nat) {
    PathThere(a, path) && Iterate(a, At(a.dir[path[1..]]), k) == Broken
  }

  /** Opening such a path changes nothing. */
  lemma OpenBrokenAnswers(a: Fs, p: Params, path: CString, mode: Mode, k: nat)
    requires Sound(a, p) && Breaks(a, path, k)
    ensures Open(a, p, path, mode) == (a, -1)
  {
    StoppedAtResolve(a, a.dir[path[1..]], k);
  }

  /** A path to a name whose walk along links stops leads to a file, or breaks. */
  lemma OpensOrBreaks(a: Fs, p: Params, path: CString)
    requires Sound(a, p) && PathThere(a, path) && PathStops(a, path)
    ensures (exists id :: Opens(a, path, id)) || exists k: nat :: Breaks(a, path, k)
  {
    var w := Resolve(a, a.dir[path[1..]]);
    if w == Broken { assert Breaks(a, path, |a.dir|); } else { assert Opens(a, path, w.id); }
  }

  lemma CloseAnswers(a: Fs, h: int)
    ensures var (a', ret) := Close(a, h);
            && a'.dir == a.dir && a'.nodes == a.nodes
            && ret == (if h in a.handles then 0 else -1)
            && h !in a'.handles
            && forall j :: j != h ==> (j in a'.handles <==> j in a.handles)
                                      && (j in a.handles ==> a'.handles[j] == a.handles[j])
  {
  }

  // ---- reading and writing ------------------------------------------------------------------

  /** The file of an open handle after n bytes of a buffer have been written at the offset: these
      bytes there, every other byte as it was, and up to an offset beyond the end the hole. */
  predicate BytesWritten(before: seq<byte>, off: nat, bytes: seq<byte>, n: nat, hole: seq<byte>, after: seq<byte>)
    requires n <= |bytes| && |hole| == if off > |before| then off - |before| else 0
  {
    && |after| == (if off + n > |before| then off + n else |before|)
    && forall k :: 0 <= k < |after| ==>
         after[k] == if off <= k < off + n then bytes[k - off]
                     else if k < |before| then before[k] else hole[k - |before|]
  }

  /** Fails if and only if the handle is not open, or its file is empty, there is something to
      write, and no block for it. */
  lemma WriteAnswers(a: Fs, p: Params, h: int, buffer: seq<byte>, hole: seq<byte>)
    requires HandleOnFile(a, p, h) && |hole| == Gap(a, h)
    ensures var (a', ret) := Write(a, p, h, buffer, hole);
            if h !in a.handles then ret == -1 && a' == a
            else
              var OpenFile(id, off) := a.handles[h];
              var n := if |buffer| < p.blockSize - off then |buffer| else p.blockSize - off;
              if n > 0 && a.nodes[id].bytes == [] && BlocksUsed(a) >= p.maxBlocks then ret == -1 && a' == a
              else if n == 0 then ret == 0 && a' == a
              else
                && ret == n && a'.dir == a.dir
                && a'.handles == a.handles[h := OpenFile(id, off + n)]
                && id in a'.nodes && a'.nodes[id].File? && a'.nodes == a.nodes[id := a'.nodes[id]]
                && BytesWritten(a.nodes[id].bytes, off, buffer, n, hole, a'.nodes[id].bytes)
  {
  }

  /** Returns what the file holds from the offset on, and moves the offset past it. */
  lemma ReadAnswers(a: Fs, h: int, len: nat)
    requires OffsetInFile(a, h)
    requires h in a.handles ==> a.handles[h].inumber in a.nodes && a.nodes[a.handles[h].inumber].File?
    ensures var ((a', ret), data) := Read(a, h, len);
            if h !in a.handles then ret == -1 && data == [] && a' == a
            else
              var OpenFile(id, off) := a.handles[h];
              var bytes := a.nodes[id].bytes;
              && ret == |data| == (if len < |bytes| - off then len else |bytes| - off)
              && (forall k :: 0 <= k < |data| ==> data[k] == bytes[off + k])
              && a' == a.(handles := a.handles[h := OpenFile(id, off + ret)])
  {
  }

  // ---- links ------------------------------------------------------------------------------

  /** Makes a link if and only if there are an inode, a block and a new name for it; whether its
      target is there does not matter. */
  lemma SymLinkAnswers(a: Fs, p: Params, target: CString, linkName: CString)
    requires |target| >= 1 && |linkName| >= 1
    ensures var (a', ret) := SymLink(a, p, target, linkName);
            if InodesFull(a, p) || BlocksUsed(a) >= p.maxBlocks || !NewName(a, p, linkName[1..]) then
              ret == -1 && a' == a
            else
              && ret == 0
              && exists id ::
                   && FirstFreeInode(a, p, id)
                   && a' == a.(dir := a.dir[linkName[1..] := id], nodes := a.nodes[id := Link(target[1..])])
  {
    InodeAnswers(a, p);
  }

  /** Adds a name if and only if the target is a path to a file, not to a link, and there is a new
      name; what the file holds and who has it open do not matter. */
  lemma HardLinkAnswers(a: Fs, p: Params, target: CString, linkName: CString)
    requires Consistent(a) && |linkName| >= 1
    ensures var (a', ret) := HardLink(a, p, target, linkName);
            if PathThere(a, target) && a.nodes[a.dir[target[1..]]].File? && NewName(a, p, linkName[1..]) then
              ret == 0 && a' == a.(dir := a.dir[linkName[1..] := a.dir[target[1..]]])
            else ret == -1 && a' == a
  {
  }

  /** Removes a name if and only if the path leads to one, of a link or of a file that no handle is
      on; then that name is gone, and its node if it was the last one. */
  lemma UnlinkAnswers(a: Fs, path: CString)
    requires Consistent(a)
    ensures var (a', ret) := Unlink(a, path);
            if PathThere(a, path)
               && var id := a.dir[path[1..]];
                  a.nodes[id].Link? || forall h :: h in a.handles ==> a.handles[h].inumber != id
            then
              var id := a.dir[path[1..]];
              && ret == 0 && a'.handles == a.handles
              && (forall n :: n in a'.dir <==> n in a.dir && n != path[1..])
              && (forall n :: n in a'.dir ==> a'.dir[n] == a.dir[n])
              && (forall i :: i in a'.nodes <==>
                    i in a.nodes && (i != id || exists n :: n in a.dir && a.dir[n] == id && n != path[1..]))
              && (forall i :: i in a'.nodes ==> a'.nodes[i] == a.nodes[i])
            else ret == -1 && a' == a
  {
    var (a', ret) := Unlink(a, path);
    if ret == 0 {
      var id := a.dir[path[1..]];
      if id in (a.dir - {path[1..]}).Values {
        var n :| n in a.dir - {path[1..]} && (a.dir - {path[1..]})[n] == id;
        assert n in a.dir && a.dir[n] == id && n != path[1..];
      } else {
        forall n | n in a.dir && n != path[1..] ensures a.dir[n] != id {
          assert (a.dir - {path[1..]})[n] == a.dir[n];
        }
      }
    }
  }

  lemma NewNodeUndone(a: Fs, name: CString, id: int, n: Node)
    requires Consistent(a) && name !in a.dir && id !in a.nodes
    ensures RemoveName(a.(dir := a.dir[name := id], nodes := a.nodes[id := n]), name) == a
  {
    assert a.dir[name := id] - {name} == a.dir && a.nodes[id := n] - {id} == a.nodes;
    assert id !in a.dir.Values;
  }

  /** Removing a link that has just been made gives the old state back. */
  lemma UnlinkUndoesSymLink(a: Fs, p: Params, target: CString, linkName: CString)
    requires Consistent(a) && |target| >= 1 && ValidPathname(linkName)
    requires SymLink(a, p, target, linkName).1 == 0
    ensures Unlink(SymLink(a, p, target, linkName).0, linkName) == (a, 0)
  {
    SymLinkAnswers(a, p, target, linkName);
    var id := SymLink(a, p, target, linkName).0.dir[linkName[1..]];
    hide Consistent;
    NewNodeUndone(a, linkName[1..], id, Link(target[1..]));
    hide RemoveName, SymLink;
  }

  /** Removing a name that has just been added gives the old state back, if and only if no handle
      is on the file; otherwise the name stays. */
  lemma UnlinkUndoesHardLink(a: Fs, p: Params, target: CString, linkName: CString)
    requires Consistent(a) && ValidPathname(linkName) && HardLink(a, p, target, linkName).1 == 0
    ensures var a1 := HardLink(a, p, target, linkName).0;
            if exists h :: h in a.handles && a.handles[h].inumber == a.dir[target[1..]] then
              Unlink(a1, linkName) == (a1, -1)
            else Unlink(a1, linkName) == (a, 0)
  {
    var a1 := HardLink(a, p, target, linkName).0;
    var name := linkName[1..];
    assert a1.dir - {name} == a.dir;
    assert a.dir[target[1..]] in a.dir.Values;
  }

  // ---- importing ---------------------------------------------------------------------------

  /** What an import leaves in its destination: as much of the source as fits a block, or nothing
      if there is no handle or no block for it. */
  predicate Imported(p: Params, handle: bool, block: bool, bytes: seq<byte>, content: seq<byte>, ret: int) {
    if !handle || (bytes != [] && !block) then ret == -1 && content == []
    else
      && ret == 0 && |content| == (if |bytes| < p.blockSize then |bytes| else p.blockSize)
      && forall k :: 0 <= k < |content| ==> content[k] == bytes[k]
  }

  /** There is a block for this file once it is empty. */
  predicate BlockLeft(a: Fs, p: Params, id: int) {
    BlocksUsed(a.(nodes := a.nodes[id := File([])])) < p.maxBlocks
  }

  /** Importing over a file that is there: names, other nodes and handles stay. */
  lemma ImportThereAnswers(a: Fs, p: Params, bytes: seq<byte>, dest: CString, id: int)
    requires Sound(a, p) && Opens(a, dest, id)
    ensures var (a', ret) := Import(a, p, Readable(bytes), dest);
            exists content ::
              && a' == a.(nodes := a.nodes[id := File(content)])
              && Imported(p, !HandlesFull(a, p), BlockLeft(a, p, id), bytes, content, ret)
  {
    ImportOver(a, p, Readable(bytes), dest, id);
    OpenThereAnswers(a, p, dest, id, IMPORT_MODE);
    var content := bytes[..ImportSize(a, p, Readable(bytes), dest)];
    var a2 := Open(a, p, dest, IMPORT_MODE).0;
    SameBlocks(a2, a.(nodes := a.nodes[id := File([])]));
    hide Open, Close, Filled, BlocksUsed, Sound, Opens;
    assert Imported(p, !HandlesFull(a, p), BlockLeft(a, p, id), bytes, content, Import(a, p, Readable(bytes), dest).1);
  }

  /** What an import under a new name leaves: the name, an inode for it, and the contents. */
  ghost predicate ImportedNew(a: Fs, p: Params, bytes: seq<byte>, name: CString, id: int, content: seq<byte>,
                              a': Fs, ret: int)
  {
    && FirstFreeInode(a, p, id)
    && a' == a.(dir := a.dir[name := id], nodes := a.nodes[id := File(content)])
    && Imported(p, !HandlesFull(a, p), BlockLeft(a, p, id), bytes, content, ret)
  }

  /** Importing under a new name happens if and only if it could be created. */
  lemma ImportNewAnswers(a: Fs, p: Params, bytes: seq<byte>, dest: CString)
    requires !PathThere(a, dest)
    ensures var (a', ret) := Import(a, p, Readable(bytes), dest);
            if |dest| <= 1 || dest[0] != 47 || InodesFull(a, p) || !NewName(a, p, dest[1..]) then ret == -1 && a' == a
            else exists id, content :: ImportedNew(a, p, bytes, dest[1..], id, content, a', ret)
  {
    if |dest| > 1 && dest[0] == 47 {
      InodeAnswers(a, p);
      OpenNew(a, p, dest);
      var (a1, id) := CreateFile(a, p, dest[1..]);
      if id == -1 {
        hide AddHandle, Close, Filled, BlocksUsed;
        assert Import(a, p, Readable(bytes), dest) == (a, -1);
      } else {
        ImportNew(a, p, Readable(bytes), dest);
        ImportsNew(a, p, bytes, dest, a1, id);
      }
    }
  }

  lemma ImportsNew(a: Fs, p: Params, bytes: seq<byte>, dest: CString, a1: Fs, id: int)
    requires |dest| >= 1 && ImportSize(a, p, Readable(bytes), dest) <= |bytes| && FirstFreeInode(a, p, id)
    requires a1 == a.(dir := a.dir[dest[1..] := id], nodes := a.nodes[id := File([])])
    requires Open(a, p, dest, IMPORT_MODE) == AddHandle(a1, p, id, 0)
    requires Import(a, p, Readable(bytes), dest).0 ==
             Refilled(a1, id, bytes[..ImportSize(a, p, Readable(bytes), dest)])
    ensures ImportedNew(a, p, bytes, dest[1..], id, bytes[..ImportSize(a, p, Readable(bytes), dest)],
                        Import(a, p, Readable(bytes), dest).0, Import(a, p, Readable(bytes), dest).1)
  {
    CreatedImports(a, p, bytes, dest, a1, id);
    hide Open, ImportSize, AddHandle, Imported, FirstFreeInode, Import, HandlesFull, BlockLeft, OpenNode, CreateFile;
    hide BlockUsers, BlocksUsed, NoFreeBlock, CanAdd, Resolve, Iterate, Follow, LeastUnused, UsedIds;
    hide FileSize, Truncate;
    var content := bytes[..ImportSize(a, p, Readable(bytes), dest)];
    SetTwice(a.nodes, id, File([]), File(content));
    assert ImportedNew(a, p, bytes, dest[1..], id, content,
                       Import(a, p, Readable(bytes), dest).0, Import(a, p, Readable(bytes), dest).1);
  }

  lemma SetTwice(m: map<int, Node>, k: int, u: Node, v: Node)
    ensures m[k := u][k := v] == m[k := v]
  {
  }

  /** Once the open has made an empty file. */
  lemma CreatedImports(a: Fs, p: Params, bytes: seq<byte>, dest: CString, a1: Fs, id: int)
    requires |dest| >= 1 && ImportSize(a, p, Readable(bytes), dest) <= |bytes|
    requires a1 == a.(dir := a.dir[dest[1..] := id], nodes := a.nodes[id := File([])])
    requires Open(a, p, dest, IMPORT_MODE) == AddHandle(a1, p, id, 0)
    ensures Imported(p, !HandlesFull(a, p), BlockLeft(a, p, id), bytes,
                     bytes[..ImportSize(a, p, Readable(bytes), dest)], Import(a, p, Readable(bytes), dest).1)
  {
    var (a2, h) := AddHandle(a1, p, id, 0);
    HandleAnswers(a1, p, id, 0);
    SameBlocks(a2, a.(nodes := a.nodes[id := File([])]));
    SameHandles(a, a1, p);
    hide Open, BlocksUsed, Close, Filled, AddHandle, FirstFreeHandle, HandlesFull, BlockUsers, LeastUnused, Resolve;
    assert BlockLeft(a, p, id) == !NoFreeBlock(a2, p);
  }

  lemma SameBlocks(a: Fs, b: Fs)
    requires a.nodes == b.nodes
    ensures BlocksUsed(a) == BlocksUsed(b)
  {
    assert BlockUsers(a) == BlockUsers(b);
  }

  /** Without a source that can be read, or with a broken link for a destination, nothing happens. */
  lemma ImportNothingAnswers(a: Fs, p: Params, source: Source, dest: CString, k: nat)
    requires Sound(a, p)
    requires source.Readable? ==> Breaks(a, dest, k)
    ensures Import(a, p, source, dest) == (a, -1)
  {
    if source.Readable? { OpenBrokenAnswers(a, p, dest, IMPORT_MODE, k); }
  }
}

/** The tables of p1/fs/state.c as arrays changed in place, with the scans and
    allocators over them, and the calls of p1/fs/operations.c on top. */
module TecnicoFs {
  import opened TfsTypes
  import opened TfsSpec
  import opened TfsDisk
  import opened TfsDirProofs
  import opened TfsDiskProofs
  import opened TfsContentProofs

  class Tfs {
    const params: Params
    const inodeTable: array<Inode>
    const freeInodeTs: array<AllocState>
    const fsData: array<Block>
    const freeBlocks: array<AllocState>
    const openFileTable: array<OpenFile>
    const freeOpenFileEntries: array<AllocState>

    ghost function Repr(): set<object> {
      {inodeTable, freeInodeTs, fsData, freeBlocks, openFileTable, freeOpenFileEntries}
    }

    /** The tables have the configured sizes and are separate objects. */
    ghost predicate Layout() {
      && inodeTable.Length == freeInodeTs.Length == params.maxInodes
      && fsData.Length == freeBlocks.Length == params.maxBlocks
      && openFileTable.Length == freeOpenFileEntries.Length == params.maxOpen
      && params.blockSize > 0
      && freeInodeTs != freeBlocks && freeInodeTs != freeOpenFileEntries && freeBlocks != freeOpenFileEntries
    }

    /** The tables as one value. */
    ghost function Snap(): Disk
      reads Repr()
    {
      Disk(inodeTable[..], freeInodeTs[..], fsData[..], freeBlocks[..], openFileTable[..], freeOpenFileEntries[..])
    }

    ghost predicate Valid()
      reads Repr()
    {
      Layout() && Fsck(Snap(), params)
    }

    /** What the users of the file system see. */
    ghost function View(): Fs
      reads Repr()
    {
      Abs(Snap())
    }

    /** state_init: everything is free; the blocks hold what the memory that malloc returned
        happens to hold. */
    constructor StateInit(p: Params, memory: seq<seq<byte>>)
      requires p.blockSize > 0 && |memory| == p.maxBlocks
      requires forall b :: 0 <= b < p.maxBlocks ==> |memory[b]| == p.blockSize
      ensures Layout() && params == p && fresh(Repr())
      ensures forall i :: 0 <= i < p.maxInodes ==> freeInodeTs[i] == FREE
      ensures forall b :: 0 <= b < p.maxBlocks ==> freeBlocks[b] == FREE && fsData[b] == Bytes(memory[b])
      ensures forall h :: 0 <= h < p.maxOpen ==> freeOpenFileEntries[h] == FREE
    {
      params := p;
      inodeTable := new Inode[p.maxInodes];
      freeInodeTs := new AllocState[p.maxInodes](_ => FREE);
      fsData := new Block[p.maxBlocks](b requires 0 <= b < p.maxBlocks => Bytes(memory[b]));
      freeBlocks := new AllocState[p.maxBlocks](_ => FREE);
      openFileTable := new OpenFile[p.maxOpen];
      freeOpenFileEntries := new AllocState[p.maxOpen](_ => FREE);
    }

    // ---- allocators ------------------------------------------------------------

    method InodeAlloc() returns (inumber: int)
      requires Layout()
      modifies freeInodeTs
      ensures inumber == FirstFree(old(freeInodeTs[..]))
      ensures freeInodeTs[..] == if inumber == -1 then old(freeInodeTs[..]) else old(freeInodeTs[..])[inumber := TAKEN]
    {
      for i := 0 to freeInodeTs.Length
        invariant forall j :: 0 <= j < i ==> freeInodeTs[j] == TAKEN
        invariant freeInodeTs[..] == old(freeInodeTs[..])
      {
        if freeInodeTs[i] == FREE {
          freeInodeTs[i] := TAKEN;
          return i;
        }
      }
      return -1;
    }

    method DataBlockAlloc() returns (b: int)
      requires Layout()
      modifies freeBlocks
      ensures b == FirstFree(old(freeBlocks[..]))
      ensures freeBlocks[..] == if b == -1 then old(freeBlocks[..]) else old(freeBlocks[..])[b := TAKEN]
    {
      for i := 0 to freeBlocks.Length
        invariant forall j :: 0 <= j < i ==> freeBlocks[j] == TAKEN
        invariant freeBlocks[..] == old(freeBlocks[..])
      {
        if freeBlocks[i] == FREE {
          freeBlocks[i] := TAKEN;
          return i;
        }
      }
      return -1;
    }

    method DataBlockFree(b: int)
      requires Layout() && 0 <= b < params.maxBlocks
      modifies freeBlocks
      ensures freeBlocks[..] == old(freeBlocks[..])[b := FREE]
    {
      freeBlocks[b] := FREE;
    }

    /** Frees the inode, and its block if it has contents. */
    method InodeDelete(i: int)
      requires Layout() && 0 <= i < params.maxInodes && freeInodeTs[i] == TAKEN
      requires inodeTable[i].size > 0 ==> 0 <= inodeTable[i].dataBlock < params.maxBlocks
      modifies freeInodeTs, freeBlocks
      ensures freeInodeTs[..] == old(freeInodeTs[..])[i := FREE]
      ensures freeBlocks[..] ==
              if inodeTable[i].size > 0 then old(freeBlocks[..])[inodeTable[i].dataBlock := FREE]
              else old(freeBlocks[..])
    {
      if inodeTable[i].size > 0 {
        DataBlockFree(inodeTable[i].dataBlock);
      }
      freeInodeTs[i] := FREE;
    }

    /** Gives the inode a whole block, or deletes it again if there is none. */
    method InodeCreateAux(i: int) returns (ret: int)
      requires Layout() && 0 <= i < params.maxInodes && freeInodeTs[i] == TAKEN
      modifies inodeTable, freeInodeTs, freeBlocks
      ensures var b := FirstFree(old(freeBlocks[..]));
              if b == -1 then
                && ret == -1
                && inodeTable[..] == old(inodeTable[..])[i := old(inodeTable[i]).(size := 0, dataBlock := -1)]
                && freeInodeTs[..] == old(freeInodeTs[..])[i := FREE]
                && freeBlocks[..] == old(freeBlocks[..])
              else
                && ret == 0
                && inodeTable[..] ==
                   old(inodeTable[..])[i := old(inodeTable[i]).(size := params.blockSize, dataBlock := b)]
                && freeInodeTs[..] == old(freeInodeTs[..])
                && freeBlocks[..] == old(freeBlocks[..])[b := TAKEN]
    {
      var b := DataBlockAlloc();
      if b == -1 {
        inodeTable[i] := inodeTable[i].(size := 0, dataBlock := -1);
        InodeDelete(i);
        return -1;
      }
      inodeTable[i] := inodeTable[i].(size := params.blockSize, dataBlock := b);
      return 0;
    }

    /** inode_create(T_FILE) */
    method InodeCreateFile() returns (i: int)
      requires Layout()
      modifies inodeTable, freeInodeTs
      ensures i == FirstFree(old(freeInodeTs[..]))
      ensures i == -1 ==> freeInodeTs[..] == old(freeInodeTs[..]) && inodeTable[..] == old(inodeTable[..])
      ensures i != -1 ==> freeInodeTs[..] == old(freeInodeTs[..])[i := TAKEN]
                          && inodeTable[..] == old(inodeTable[..])[i := Inode(T_FILE, 0, -1, 1)]
    {
      i := InodeAlloc();
      if i != -1 {
        inodeTable[i] := Inode(T_FILE, 0, -1, 1);
      }
    }

    /** inode_create(T_SYMLINK) */
    method InodeCreateSymlink() returns (i: int)
      requires Layout()
      modifies inodeTable, freeInodeTs, freeBlocks
      ensures var n, b := FirstFree(old(freeInodeTs[..])), FirstFree(old(freeBlocks[..]));
              && i == (if b == -1 then -1 else n)
              && (n == -1 ==> freeInodeTs[..] == old(freeInodeTs[..]) && inodeTable[..] == old(inodeTable[..])
                              && freeBlocks[..] == old(freeBlocks[..]))
              && (n != -1 && b == -1 ==>
                    && freeInodeTs[..] == old(freeInodeTs[..]) && freeBlocks[..] == old(freeBlocks[..])
                    && inodeTable[..] == old(inodeTable[..])[n := Inode(T_SYMLINK, 0, -1, 1)])
              && (n != -1 && b != -1 ==>
                    && freeInodeTs[..] == old(freeInodeTs[..])[n := TAKEN]
                    && freeBlocks[..] == old(freeBlocks[..])[b := TAKEN]
                    && inodeTable[..] == old(inodeTable[..])[n := Inode(T_SYMLINK, params.blockSize, b, 1)])
    {
      i := InodeAlloc();
      if i != -1 {
        inodeTable[i] := Inode(T_SYMLINK, 0, -1, 1);
        var ret := InodeCreateAux(i);
        if ret == -1 {
          i := -1;
        }
      }
    }

    // ---- the directory -----------------------------------------------------------

    /** The block of the root directory, read as entries. */
    ghost predicate HasRoot()
      reads Repr()
    {
      Layout() && RootFound(Snap(), params)
    }

    function RootBlockNumber(): int
      requires Layout() && params.maxInodes > 0
      reads inodeTable
    {
      inodeTable[ROOT_DIR_INUM].dataBlock
    }

    method FindInDir(name: CString) returns (inumber: int)
      requires HasRoot()
      ensures inumber == LookupIn(Dir(Snap()), name)
    {
      var es := fsData[RootBlockNumber()].entries;
      for i := 0 to |es|
        invariant forall j :: 0 <= j < i ==> !Matches(es[j], name)
      {
        if es[i].inumber != -1 && es[i].name == name {
          return es[i].inumber;
        }
      }
      return -1;
    }

    method AddDirEntry(name: CString, inumber: int) returns (ret: int)
      requires HasRoot()
      modifies fsData
      ensures var es := old(Dir(Snap()));
              if 1 <= |name| <= MAX_FILE_NAME - 1 && !Clashes(es, name) && FirstSlot(es) != -1 then
                && ret == 0
                && fsData[..] ==
                   old(fsData[..])[RootBlockNumber() := Entries(es[FirstSlot(es) := DirEntry(name, inumber)])]
              else
                ret == -1 && fsData[..] == old(fsData[..])
    {
      if |name| == 0 || |name| > MAX_FILE_NAME - 1 {
        return -1;
      }
      var root := RootBlockNumber();
      var es := fsData[root].entries;
      var index := -1;
      for i := 0 to |es|
        invariant -1 <= index < i
        invariant index == -1 ==> forall j :: 0 <= j < i ==> Used(es[j])
        invariant index >= 0 ==> !Used(es[index]) && forall j :: 0 <= j < index ==> Used(es[j])
        invariant forall j :: 0 <= j < i && j != index ==> es[j].name != name
      {
        if es[i].inumber == -1 && index < 0 {
          index := i;
        } else if es[i].name == name {
          assert i != FirstSlot(es);
          return -1;
        }
      }
      if index >= 0 {
        assert index == FirstSlot(es);
        fsData[root] := Entries(es[index := DirEntry(name, inumber)]);
        return 0;
      }
      return -1;
    }

    /** Frees the first entry with this name, free or not. (The comparison would run on past a
        name of 40 bytes.) */
    method ClearDirEntry(name: CString) returns (ret: int)
      requires HasRoot()
      requires |name| < MAX_FILE_NAME || forall k :: 0 <= k < |Dir(Snap())| ==> |Dir(Snap())[k].name| < MAX_FILE_NAME
      modifies fsData
      ensures var es := old(Dir(Snap()));
              var k := FirstNamed(es, name);
              if k == -1 then
                ret == -1 && fsData[..] == old(fsData[..])
              else
                ret == 0 && fsData[..] == old(fsData[..])[RootBlockNumber() := Entries(es[k := FREE_ENTRY])]
    {
      var root := RootBlockNumber();
      var es := fsData[root].entries;
      for i := 0 to |es|
        invariant forall j :: 0 <= j < i ==> es[j].name != name
      {
        if es[i].name == name {
          fsData[root] := Entries(es[i := FREE_ENTRY]);
          return 0;
        }
      }
      return -1;
    }

    // ---- the open-file table ---------------------------------------------------------

    method AddToOpenFileTable(inumber: int, offset: nat) returns (h: int)
      requires Layout()
      modifies openFileTable, freeOpenFileEntries
      ensures h == FirstFree(old(freeOpenFileEntries[..]))
      ensures h == -1 ==>
                && freeOpenFileEntries[..] == old(freeOpenFileEntries[..])
                && openFileTable[..] == old(openFileTable[..])
      ensures h != -1 ==> freeOpenFileEntries[..] == old(freeOpenFileEntries[..])[h := TAKEN]
                          && openFileTable[..] == old(openFileTable[..])[h := OpenFile(inumber, offset)]
    {
      for i := 0 to freeOpenFileEntries.Length
        invariant forall j :: 0 <= j < i ==> freeOpenFileEntries[j] == TAKEN
        invariant freeOpenFileEntries[..] == old(freeOpenFileEntries[..]) && openFileTable[..] == old(openFileTable[..])
      {
        if freeOpenFileEntries[i] == FREE {
          freeOpenFileEntries[i] := TAKEN;
          openFileTable[i] := OpenFile(inumber, offset);
          return i;
        }
      }
      return -1;
    }

    method FileIsOpen(inumber: int) returns (open: bool)
      requires Layout()
      ensures open <==> IsOpen(View(), inumber)
    {
      for i := 0 to freeOpenFileEntries.Length
        invariant forall h :: 0 <= h < i && freeOpenFileEntries[h] == TAKEN ==> openFileTable[h].inumber != inumber
      {
        if freeOpenFileEntries[i] == TAKEN && openFileTable[i].inumber == inumber {
          assert i in Handles(Snap());
          return true;
        }
      }
      return false;
    }

    /** get_open_file_entry finds an entry for this handle. */
    predicate IsOpenHandle(h: int)
      requires Layout()
      reads Repr()
      ensures IsOpenHandle(h) <==> InUse(Snap(), h)
    {
      0 <= h < params.maxOpen && freeOpenFileEntries[h] == TAKEN
    }

    // ---- directories ------------------------------------------------------------------

    /** inode_create(T_DIRECTORY): every entry of the block becomes free, and keeps the name
        that the bytes of the block spell. */
    method InodeCreateDirectory() returns (i: int)
      requires Layout()
      requires forall b :: 0 <= b < params.maxBlocks && freeBlocks[b] == FREE ==>
                fsData[b].Bytes? && |fsData[b].data| == params.blockSize
      modifies inodeTable, freeInodeTs, freeBlocks, fsData
      ensures var n, b := FirstFree(old(freeInodeTs[..])), FirstFree(old(freeBlocks[..]));
              if n == -1 then
                && i == -1
                && freeInodeTs[..] == old(freeInodeTs[..]) && inodeTable[..] == old(inodeTable[..])
                && freeBlocks[..] == old(freeBlocks[..]) && fsData[..] == old(fsData[..])
              else if b == -1 then
                && i == -1
                && freeInodeTs[..] == old(freeInodeTs[..])
                && freeBlocks[..] == old(freeBlocks[..]) && fsData[..] == old(fsData[..])
                && inodeTable[..] ==
                   old(inodeTable[..])[n := old(inodeTable[n]).(nodeType := T_DIRECTORY, size := 0, dataBlock := -1)]
              else
                && i == n
                && freeInodeTs[..] == old(freeInodeTs[..])[n := TAKEN]
                && freeBlocks[..] == old(freeBlocks[..])[b := TAKEN]
                && inodeTable[..] ==
                   old(inodeTable[..])[n := Inode(T_DIRECTORY, params.blockSize, b, old(inodeTable[n].hardLinks))]
                && fsData[..] ==
                   old(fsData[..])[b := Entries(EmptyEntries(old(fsData[b].data), params.MaxDirEntries()))]
    {
      i := InodeAlloc();
      if i != -1 {
        inodeTable[i] := inodeTable[i].(nodeType := T_DIRECTORY);
        var ret := InodeCreateAux(i);
        if ret == -1 {
          return -1;
        }
        var b := inodeTable[i].dataBlock;
        var es := [];
        for k := 0 to params.MaxDirEntries()
          invariant es == EmptyEntries(fsData[b].data, k)
        {
          es := es + [DirEntry(NameAt(fsData[b].data, k), -1)];
        }
        fsData[b] := Entries(es);
      }
    }

    // ---- p1/fs/operations.c -------------------------------------------------------------

    /** tfs_init on freshly allocated tables: fails only if there is no inode or no block.
        The tables are consistent, and show nothing, exactly when the memory of the first block
        spells no names: the source sets the entries free and leaves their names. */
    method TfsInit() returns (ret: int)
      requires Layout()
      requires forall i :: 0 <= i < params.maxInodes ==> freeInodeTs[i] == FREE
      requires forall b :: 0 <= b < params.maxBlocks ==>
                 freeBlocks[b] == FREE && fsData[b].Bytes? && |fsData[b].data| == params.blockSize
      requires forall h :: 0 <= h < params.maxOpen ==> freeOpenFileEntries[h] == FREE
      modifies Repr()
      ensures ret == if params.maxInodes > 0 && params.maxBlocks > 0 then 0 else -1
      ensures ret == 0 ==> (Valid() <==> SpellsNothing(old(fsData[0].data), params.MaxDirEntries()))
      ensures ret == 0 && Valid() ==> View() == EMPTY
      ensures ret == 0 ==> HasRoot() && Dir(Snap()) == EmptyEntries(old(fsData[0].data), params.MaxDirEntries())
    {
      ghost var first := if params.maxBlocks > 0 then fsData[0].data else [];
      var root := InodeCreateDirectory();
      if root != ROOT_DIR_INUM {
        return -1;
      }
      SpellsNothingIff(first, params.MaxDirEntries());
      if SpellsNothing(first, params.MaxDirEntries()) {
        InitialFsck(Snap(), params);
      } else {
        assert Dir(Snap()) == EmptyEntries(first, params.MaxDirEntries());
        NamedSlot(Snap(), params, first);
      }
      return 0;
    }

    method TfsLookup(name: CString) returns (inumber: int)
      requires Valid()
      ensures inumber == if ValidPathname(name) && name[1..] in View().dir then View().dir[name[1..]] else -1
      ensures inumber != -1 ==>
                && inumber in View().nodes && 0 < inumber < params.maxInodes
                && (IsLink(View(), At(inumber)) <==> inodeTable[inumber].nodeType == T_SYMLINK)
                && (!IsLink(View(), At(inumber)) ==> LiveFile(Snap(), inumber))
    {
      if !ValidPathname(name) {
        return -1;
      }
      ghost var d := Snap();
      FsckRoot(d, params);
      inumber := FindInDir(name[1..]);
      LookupAgrees(Dir(d), name[1..]);
      if name[1..] in Abs(d).dir {
        NamedNode(d, params, name[1..]);
        NodeTypes(d, params, inumber);
      }
    }

    method GetSymlinkInumber(i: int) returns (inumber: int)
      requires Valid() && IsLink(View(), At(i))
      ensures Follow(View(), At(i)) == if inumber == -1 then Broken else At(inumber)
    {
      assert 0 <= i < params.maxInodes && i != ROOT_DIR_INUM && Live(Snap(), i);
      assert NodeOk(Snap(), params, i);
      BlockOfLink(Snap(), params, i);
      var name := StrAt(fsData[inodeTable[i].dataBlock].data, 1);
      inumber := FindInDir(name);
      LookupAgrees(Dir(Snap()), name);
      FsckConsistent(Snap(), params);
    }

    /** The loop of tfs_open: from a node to the file at the end of its links. */
    method FollowLinks(i: int) returns (inumber: int)
      requires Valid() && i in View().nodes && WalkStops(View(), i)
      ensures Resolve(View(), i) == if inumber == -1 then Broken else At(inumber)
      ensures inumber != -1 ==> LiveFile(Snap(), inumber)
    {
      ghost var d := Snap();
      ghost var bound: nat :| !IsLink(Abs(d), Iterate(Abs(d), At(i), bound));
      ghost var k: nat := 0;
      inumber := i;
      OnWalkTypes(d, params, i, k, inumber);
      while inodeTable[inumber].nodeType == T_SYMLINK
        invariant 0 <= inumber < params.maxInodes && d.inodes[inumber] == inodeTable[inumber]
        invariant OnWalk(d, params, i, k, inumber)
        decreases bound - k
      {
        OnWalkTypes(d, params, i, k, inumber);
        OnWalkBound(d, params, i, k, inumber, bound);
        var next := GetSymlinkInumber(inumber);
        OnWalkStep(d, params, i, k, inumber, next);
        if next == -1 {
          return -1;
        }
        k := k + 1;
        inumber := next;
        OnWalkTypes(d, params, i, k, inumber);
      }
      OnWalkEnd(d, params, i, k, inumber);
    }

    /** The creating branch of tfs_open, up to the open-file table. */
    method CreateFile(name: CString) returns (i: int)
      requires Valid()
      modifies Repr()
      ensures Valid()
      ensures (View(), i) == TfsSpec.CreateFile(old(View()), params, name)
      ensures i != -1 ==> LiveFile(Snap(), i)
    {
      hide Fsck, RootFound, Abs;
      ghost var d := Snap();
      InodeAllocAgrees(d, params);
      CanAddAgrees(d, params, name);
      i := InodeCreateFile();
      if i == -1 {
        assert Snap() == d;
        return -1;
      }
      assert Snap() == InodeFilled(d, i, Inode(T_FILE, 0, -1, 1));
      InodeFilledRoot(d, params, i, Inode(T_FILE, 0, -1, 1));
      var valid := AddDirEntry(name, i);
      if valid == -1 {
        InodeDelete(i);
        assert freeInodeTs[..] == d.inodeTaken;
        FileUndone(d, Snap(), params, i, Inode(T_FILE, 0, -1, 1));
        return -1;
      }
      assert Snap() == FileAdded(d, i, FirstSlot(Dir(d)), name);
      FileCreated(d, params, i, name);
    }

    /** Lines 113-118 of tfs_open. */
    method TruncateFile(i: int)
      requires Valid() && LiveFile(Snap(), i)
      modifies inodeTable, freeBlocks
      ensures Valid() && LiveFile(Snap(), i)
      ensures View() == Truncate(old(View()), i)
    {
      ghost var d := Snap();
      TruncatedRefines(d, params, i);
      if inodeTable[i].size > 0 {
        DataBlockFree(inodeTable[i].dataBlock);
        inodeTable[i] := inodeTable[i].(size := 0);
      }
      assert Snap() == Truncated(d, i);
    }

    method AddHandle(i: int, offset: nat) returns (h: int)
      requires Valid() && HandleOk(Snap(), params, OpenFile(i, offset))
      modifies openFileTable, freeOpenFileEntries
      ensures Valid()
      ensures (View(), h) == TfsSpec.AddHandle(old(View()), params, i, offset)
    {
      ghost var d := Snap();
      HandleAllocAgrees(d, params);
      h := AddToOpenFileTable(i, offset);
      if h == -1 {
        assert Snap() == d;
      } else {
        HandleSetRefines(d, params, h, OpenFile(i, offset));
        assert Snap() == HandleSet(d, h, OpenFile(i, offset));
      }
    }

    /** tfs_open. It returns exactly when the walk along the links of the path ends. */
    method TfsOpen(name: CString, mode: Mode) returns (ret: int)
      requires Valid() && PathStops(View(), name)
      modifies Repr()
      ensures Valid()
      ensures (View(), ret) == TfsSpec.Open(old(View()), params, name, mode)
    {
      hide Fsck, RootFound;
      if !ValidPathname(name) {
        return -1;
      }
      var inumber := TfsLookup(name);
      if inumber >= 0 {
        inumber := FollowLinks(inumber);
        if inumber == -1 {
          return -1;
        }
        // the directory check of line 106 cannot succeed
        assert inodeTable[inumber].nodeType != T_DIRECTORY;
        if mode.trunc {
          TruncateFile(inumber);
        }
        FileSizeAgrees(Snap(), params, inumber);
        var offset := if mode.append then inodeTable[inumber].size else 0;
        ret := AddHandle(inumber, offset);
      } else if mode.creat {
        inumber := CreateFile(name[1..]);
        if inumber == -1 {
          return -1;
        }
        ret := AddHandle(inumber, 0);
      } else {
        ret := -1;
      }
    }

    method TfsClose(h: int) returns (ret: int)
      requires Valid()
      modifies freeOpenFileEntries
      ensures Valid()
      ensures (View(), ret) == TfsSpec.Close(old(View()), h)
    {
      if !IsOpenHandle(h) {
        return -1;
      }
      ghost var d := Snap();
      HandleFreedRefines(d, params, h);
      freeOpenFileEntries[h] := FREE;
      assert Snap() == HandleFreed(d, h);
      return 0;
    }

    /** Lines 170-179 of tfs_sym_link: an inode whose block holds the target. */
    method CreateLinkInode(target: CString) returns (i: int)
      requires Valid() && 1 <= |target| < params.blockSize
      modifies inodeTable, freeInodeTs, freeBlocks, fsData
      ensures var d := old(Snap());
              var n, b := FirstFree(d.inodeTaken), FirstFree(d.blockTaken);
              if n == -1 || b == -1 then
                i == -1 && Valid() && View() == old(View())
              else
                && i == n && d.blocks[b].Bytes? && |d.blocks[b].data| == params.blockSize
                && Snap() == LinkFilled(d, params, n, b, Stored(target, d.blocks[b].data))
    {
      ghost var d := Snap();
      ghost var n, b := FirstFree(d.inodeTaken), FirstFree(d.blockTaken);
      i := InodeCreateSymlink();
      if i == -1 {
        if n == -1 {
          assert Snap() == d;
        } else {
          FileUndone(d, Snap(), params, n, Inode(T_SYMLINK, 0, -1, 1));
        }
        return -1;
      }
      UntakenShape(d, params);
      var block := inodeTable[i].dataBlock;
      fsData[block] := Bytes(Stored(target, fsData[block].data));
      assert Snap() == LinkFilled(d, params, n, b, Stored(target, d.blocks[b].data));
    }

    /** tfs_sym_link. The target must fit in a block with its terminator. */
    method TfsSymLink(target: CString, linkName: CString) returns (ret: int)
      requires Valid()
      requires 1 <= |target| < params.blockSize && |linkName| >= 1
      modifies Repr()
      ensures Valid()
      ensures (View(), ret) == TfsSpec.SymLink(old(View()), params, target, linkName)
    {
      hide Fsck, RootFound;
      ghost var d := Snap();
      InodeAllocAgrees(d, params);
      BlockAllocAgrees(d, params);
      CanAddAgrees(d, params, linkName[1..]);
      var i := CreateLinkInode(target);
      if i == -1 {
        return -1;
      }
      ghost var b := FirstFree(d.blockTaken);
      ghost var content := Stored(target, d.blocks[b].data);
      LinkFilledRoot(d, params, i, b, content);
      var valid := AddDirEntry(linkName[1..], i);
      if valid == -1 {
        InodeDelete(i);
        assert freeInodeTs[..] == d.inodeTaken && freeBlocks[..] == d.blockTaken;
        LinkUndone(d, Snap(), params, i, Inode(T_SYMLINK, params.blockSize, b, 1), b, content);
        return -1;
      }
      StoredTarget(target, d.blocks[b].data);
      assert Snap() == LinkAdded(d, params, i, b, content, FirstSlot(Dir(d)), linkName[1..]);
      LinkAddedRefines(d, params, i, b, content, FirstSlot(Dir(d)), linkName[1..]);
      return 0;
    }

    /** Lines 213-220 of tfs_link: one more entry, one more link. */
    method AddName(i: int, name: CString) returns (ret: int)
      requires Valid() && LiveFile(Snap(), i)
      modifies inodeTable, fsData
      ensures Valid()
      ensures ret == if CanAdd(old(View()), params, name) then 0 else -1
      ensures View() == if ret == 0 then old(View()).(dir := old(View()).dir[name := i]) else old(View())
    {
      hide Fsck, RootFound;
      ghost var d := Snap();
      FsckRoot(d, params);
      CanAddAgrees(d, params, name);
      var added := AddDirEntry(name, i);
      if added == -1 {
        assert Snap() == d;
        return -1;
      }
      inodeTable[i] := inodeTable[i].(hardLinks := inodeTable[i].hardLinks + 1);
      ghost var k := FirstSlot(Dir(d));
      assert Snap() == Relinked(d, i, d.inodes[i].hardLinks + 1, k, DirEntry(name, i));
      NameAddedRefines(d, params, i, k, name);
      return 0;
    }

    /** tfs_link */
    method TfsLink(target: CString, linkName: CString) returns (ret: int)
      requires Valid() && |linkName| >= 1
      modifies inodeTable, fsData
      ensures Valid()
      ensures (View(), ret) == TfsSpec.HardLink(old(View()), params, target, linkName)
    {
      hide Fsck, RootFound;
      var i := TfsLookup(target);
      if i == -1 {
        return -1;
      }
      if inodeTable[i].nodeType == T_SYMLINK {
        return -1;
      }
      ret := AddName(i, linkName[1..]);
    }

    /** Lines 351-363 of tfs_unlink: one link less, and no inode without links. */
    method DropLink(i: int, ghost k: int) returns (ret: int)
      requires Valid() && i in View().nodes && 0 <= i < params.maxInodes
      requires 0 <= k < |Dir(Snap())| && Dir(Snap())[k].inumber == i
      requires IsLink(View(), At(i)) <==> inodeTable[i].nodeType == T_SYMLINK
      modifies inodeTable, freeInodeTs, freeBlocks
      ensures ShapedBlock(old(Snap()), i)
      ensures if !IsLink(old(View()), At(i)) && IsOpen(old(View()), i) then ret == -1 && Snap() == old(Snap())
              else ret == 0 && Snap() == LinkDropped(old(Snap()), i)
    {
      hide Fsck, RootFound;
      ghost var d := Snap();
      LinkCounts(d, params, i, k);
      var open := FileIsOpen(i);
      // the directory check of line 343 cannot succeed
      assert inodeTable[i].nodeType != T_DIRECTORY;
      if inodeTable[i].nodeType == T_SYMLINK {
        InodeDelete(i);
      } else {
        if open {
          return -1;
        }
        inodeTable[i] := inodeTable[i].(hardLinks := inodeTable[i].hardLinks - 1);
        if inodeTable[i].hardLinks == 0 {
          InodeDelete(i);
        }
      }
      return 0;
    }

    /** Lines 337-366 of tfs_unlink, for a name that was found. */
    method RemoveEntry(i: int, name: CString) returns (ret: int)
      requires Valid() && name != [] && name in View().dir && View().dir[name] == i
      requires i in View().nodes && 0 < i < params.maxInodes
      requires IsLink(View(), At(i)) <==> inodeTable[i].nodeType == T_SYMLINK
      modifies inodeTable, freeInodeTs, freeBlocks, fsData
      ensures Valid()
      ensures var a := old(View());
              if !IsLink(a, At(i)) && IsOpen(a, i) then ret == -1 && View() == a
              else ret == 0 && View() == RemoveName(a, name)
    {
      hide Fsck, RootFound;
      ghost var d := Snap();
      ghost var k := FindEntry(Dir(d), name);
      NamedNode(d, params, name);
      ret := DropLink(i, k);
      if ret == -1 {
        return;
      }
      LinkDroppedRoot(d, params, i, k);
      FsckNames(d, params, name);
      var cleared := ClearDirEntry(name);
      // the assertion of lines 364-365 holds
      assert cleared == 0;
      assert Snap() == WithDir(LinkDropped(d, i), Dir(d)[k := FREE_ENTRY]);
      EntryClearedRefines(d, params, i, k);
    }

    /** tfs_unlink */
    method TfsUnlink(target: CString) returns (ret: int)
      requires Valid()
      modifies inodeTable, freeInodeTs, freeBlocks, fsData
      ensures Valid()
      ensures (View(), ret) == TfsSpec.Unlink(old(View()), target)
    {
      var i := TfsLookup(target);
      if i == -1 {
        return -1;
      }
      ret := RemoveEntry(i, target[1..]);
    }

    // ---- contents ------------------------------------------------------------------------

    /** The block of a file that is about to be written, allocated if the file is empty. */
    method BlockForWrite(i: int) returns (b: int)
      requires Valid() && LiveFile(Snap(), i)
      modifies inodeTable, freeBlocks
      ensures var d := old(Snap());
              if d.inodes[i].size == 0 && NoFreeBlock(Abs(d), params) then b == -1 && Snap() == d
              else
                && 0 <= b < params.maxBlocks && fsData[b].Bytes? && |fsData[b].data| == params.blockSize
                && (if d.inodes[i].size > 0 then b == d.inodes[i].dataBlock else d.blockTaken[b] == FREE)
                && inodeTable[..] == d.inodes[i := d.inodes[i].(dataBlock := b)]
                && freeBlocks[..] == d.blockTaken[b := TAKEN]
    {
      ghost var d := Snap();
      LiveFileShape(d, params, i);
      UntakenShape(d, params);
      BlockAllocAgrees(d, params);
      if inodeTable[i].size == 0 {
        b := DataBlockAlloc();
        if b == -1 {
          assert Snap() == d;
          return -1;
        }
        inodeTable[i] := inodeTable[i].(dataBlock := b);
      } else {
        b := inodeTable[i].dataBlock;
        assert BlockTaken(d, b) && RootBlock(d) != b;
        assert DataAt(d, b) == fsData[b].data;
      }
    }

    /** Lines 258-272 of tfs_write: the bytes go to the file's block, and the offset and the size
        move. */
    method StoreBytes(h: int, b: int, bytes: seq<byte>, ghost d: Disk)
      requires Layout() && 0 <= h < params.maxOpen && 0 <= openFileTable[h].inumber < params.maxInodes
      requires 0 <= b < params.maxBlocks && |d.inodes| == params.maxInodes && |d.blockTaken| == params.maxBlocks
      requires fsData[b].Bytes? && openFileTable[h].offset + |bytes| <= |fsData[b].data|
      requires var i := openFileTable[h].inumber;
               Snap() == d.(inodes := d.inodes[i := d.inodes[i].(dataBlock := b)],
                            blockTaken := d.blockTaken[b := TAKEN])
      modifies inodeTable, fsData, openFileTable
      ensures InUse(d, h) ==>
                var f := d.files[h];
                var content := Splice(d.blocks[b].data, f.offset, bytes);
                Snap() == HandleSet(Written(d, f.inumber, b, content, NewSize(d, h, |bytes|)),
                                    h, OpenFile(f.inumber, f.offset + |bytes|))
    {
      var i, offset := openFileTable[h].inumber, openFileTable[h].offset;
      fsData[b] := Bytes(Splice(fsData[b].data, offset, bytes));
      openFileTable[h] := openFileTable[h].(offset := offset + |bytes|);
      if offset + |bytes| > inodeTable[i].size {
        inodeTable[i] := inodeTable[i].(size := offset + |bytes|);
      }
    }

    /** tfs_write. Bytes between the end of the file and the offset, if there are
        any, are whatever the block held. */
    method TfsWrite(h: int, buffer: seq<byte>) returns (ret: int, ghost hole: seq<byte>)
      requires Valid()
      modifies inodeTable, freeBlocks, fsData, openFileTable
      ensures Valid()
      ensures HandleOnFile(old(View()), params, h) && |hole| == Gap(old(View()), h)
      ensures (View(), ret) == TfsSpec.Write(old(View()), params, h, buffer, hole)
    {
      hide Fsck, Abs, Splice, Overwrite;
      ghost var d := Snap();
      HandleAgrees(d, params, h);
      hole := seq(Gap(Abs(d), h), _ => 0);
      if !IsOpenHandle(h) {
        return -1, hole;
      }
      var i, offset := openFileTable[h].inumber, openFileTable[h].offset;
      var toWrite := |buffer|;
      if toWrite + offset > params.blockSize {
        toWrite := params.blockSize - offset;
      }
      if toWrite > 0 {
        var b := BlockForWrite(i);
        if b == -1 {
          return -1, hole;
        }
        hole := if offset > inodeTable[i].size then fsData[b].data[inodeTable[i].size..offset] else [];
        StoreBytes(h, b, buffer[..toWrite], d);
        WriteRefines(d, params, h, b, buffer[..toWrite], hole);
      } else {
        assert Snap() == d;
      }
      return toWrite, hole;
    }

    /** tfs_read. The offset must lie inside the file, as it does unless the file was
        truncated through another handle (OpenStrandsIff); beyond it, the size_t
        subtraction of line 301 would wrap. */
    method TfsRead(h: int, len: nat) returns (ret: int, buffer: seq<byte>)
      requires Valid() && OffsetInFile(View(), h)
      modifies openFileTable
      ensures Valid() && HandleOnFile(old(View()), params, h)
      ensures ((View(), ret), buffer) == TfsSpec.Read(old(View()), h, len)
    {
      hide Fsck, Abs;
      ghost var d := Snap();
      HandleAgrees(d, params, h);
      if !IsOpenHandle(h) {
        return -1, [];
      }
      var i, offset := openFileTable[h].inumber, openFileTable[h].offset;
      var toRead := inodeTable[i].size - offset;
      if toRead > len {
        toRead := len;
      }
      ReadRefines(d, params, h, toRead);
      buffer := [];
      if toRead > 0 {
        buffer := fsData[inodeTable[i].dataBlock].data[offset..offset + toRead];
        openFileTable[h] := openFileTable[h].(offset := offset + toRead);
      }
      assert Snap() == HandleMoved(d, h, offset + toRead);
      assert toRead == Min(len, FileSize(Abs(d), i) - offset);
      assert buffer == Abs(d).nodes[i].bytes[offset..offset + toRead];
      return toRead, buffer;
    }

    /** tfs_copy_from_external_fs: reads the source 127 bytes at a time. */
    method TfsCopyFromExternal(source: Source, dest: CString) returns (ret: int)
      requires Valid() && PathStops(View(), dest)
      modifies Repr()
      ensures Valid()
      ensures (View(), ret) == TfsSpec.Import(old(View()), params, source, dest)
    {
      hide Fsck, Abs, TfsSpec.Open;
      if source.Unreadable? {
        return -1;
      }
      OpenedEmpty(Snap(), params, dest);
      var h := TfsOpen(dest, IMPORT_MODE);
      if h == -1 {
        return -1;
      }
      ghost var a1 := View();
      var bytes := source.bytes;
      var read := 0;
      ghost var written := 0;
      FilledNothing(a1, h);
      while read < |bytes|
        invariant Valid() && 0 <= read <= |bytes|
        invariant written == Min(read, params.blockSize)
        invariant View() == Filled(a1, h, bytes[..written])
        invariant read > 0 ==> !NoFreeBlock(a1, params)
      {
        var chunk := bytes[read..Min(read + 127, |bytes|)];
        ImportStep(a1, params, h, bytes, read, written);
        var n, hole := TfsWrite(h, chunk);
        if n == -1 {
          var closed := TfsClose(h);
          return -1;
        }
        written := written + n;
        read := read + |chunk|;
        if n != |chunk| {
          break;
        }
      }
      assert bytes[..written] == bytes[..Min(|bytes|, params.blockSize)];
      var closed := TfsClose(h);
      return 0;
    }
  }
}

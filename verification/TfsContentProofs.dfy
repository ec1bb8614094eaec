/** Truncating, writing, opening and closing: the effect on the tables, and what
    the allocation bitmaps say about the abstract file system. */
module TfsContentProofs {
  import opened Counting
  import opened TfsTypes
  import opened TfsSpec
  import opened TfsDisk
  import opened TfsDirProofs
  import opened TfsDiskProofs
  import opened SymlinkWalk

  // ---- truncating --------------------------------------------------------------

  function Truncated(d: Disk, i: nat): Disk
    requires i < |d.inodes| && ShapedBlock(d, i)
  {
    if d.inodes[i].size > 0
    then d.(inodes := d.inodes[i := d.inodes[i].(size := 0)], blockTaken := d.blockTaken[d.inodes[i].dataBlock := FREE])
    else d
  }

  lemma LiveFileShape(d: Disk, p: Params, i: nat)
    requires Fsck(d, p) && LiveFile(d, i)
    ensures ShapedBlock(d, i)
    ensures HasBlock(d, i) ==> BlockTaken(d, d.inodes[i].dataBlock) && d.inodes[i].dataBlock != RootBlock(d)
    ensures HasBlock(d, i) ==> |DataAt(d, d.inodes[i].dataBlock)| == p.blockSize
  {
    RootOwned(d, p);
    if HasBlock(d, i) { assert BlockTaken(d, d.inodes[i].dataBlock); }
  }

  lemma TruncatedNodes(d: Disk, p: Params, i: nat)
    requires Fsck(d, p) && LiveFile(d, i) && ShapedBlock(d, i)
    ensures Nodes(Truncated(d, i)) == Nodes(d)[i := File([])]
    ensures NodesOk(Truncated(d, i), p)
    ensures Dir(Truncated(d, i)) == Dir(d)
  {
    var d' := Truncated(d, i);
    RootOwned(d, p);
    forall j | j != 0 && Live(d, j)
      ensures NodeOk(d', p, j) && (j != i ==> NodeOf(d', d'.inodes[j]) == NodeOf(d, d.inodes[j]))
    {
      assert NodeOk(d, p, j);
    }
  }

  /** Truncating empties the file and frees its block. */
  lemma TruncatedRefines(d: Disk, p: Params, i: nat)
    requires Fsck(d, p) && LiveFile(d, i)
    ensures ShapedBlock(d, i) && Fsck(Truncated(d, i), p)
    ensures Abs(Truncated(d, i)) == Truncate(Abs(d), i)
  {
    LiveFileShape(d, p, i);
    var d' := Truncated(d, i);
    TruncatedNodes(d, p, i);
    OwnerDropped(d, d', i);
    NamesKept(d, d');
    HandlesKept(d, d', p);
  }

  lemma NamesKept(d: Disk, d': Disk)
    requires NamesLive(d) && Dir(d') == Dir(d)
    requires forall j :: Live(d, j) ==> Live(d', j)
    ensures NamesLive(d')
  {
  }

  // ---- writing -----------------------------------------------------------------

  /** File i now has this size, and block b holds its contents. */
  function Written(d: Disk, i: nat, b: nat, content: seq<byte>, size: nat): Disk
    requires i < |d.inodes| && b < |d.blocks| == |d.blockTaken|
  {
    d.(inodes := d.inodes[i := d.inodes[i].(size := size, dataBlock := b)],
       blocks := d.blocks[b := Bytes(content)],
       blockTaken := d.blockTaken[b := TAKEN])
  }

  ghost predicate CanWrite(d: Disk, p: Params, i: nat, b: nat, content: seq<byte>, size: nat) {
    && Fsck(d, p) && LiveFile(d, i)
    && 0 < size <= p.blockSize == |content|
    && b < |d.blocks|
    && (if d.inodes[i].size > 0 then d.inodes[i].dataBlock == b else d.blockTaken[b] == FREE)
  }

  lemma WrittenDir(d: Disk, p: Params, i: nat, b: nat, content: seq<byte>, size: nat)
    requires CanWrite(d, p, i, b, content, size)
    ensures Dir(Written(d, i, b, content, size)) == Dir(d)
    ensures RootOk(Written(d, i, b, content, size), p)
    ensures ShapeOk(Written(d, i, b, content, size), p)
  {
    LiveFileShape(d, p, i);
    RootOwned(d, p);
  }

  lemma WrittenKeeps(d: Disk, p: Params, i: nat, b: nat, content: seq<byte>, size: nat, j: int)
    requires CanWrite(d, p, i, b, content, size)
    requires j != ROOT_DIR_INUM && j != i && Live(d, j)
    ensures var d' := Written(d, i, b, content, size);
            && Live(d', j) && d'.inodes[j] == d.inodes[j]
            && NodeOf(d', d'.inodes[j]) == NodeOf(d, d.inodes[j]) && NodeOk(d', p, j)
  {
    WrittenDir(d, p, i, b, content, size);
    assert NodeOk(d, p, j);
    if HasBlock(d, j) {
      assert BlockTaken(d, d.inodes[j].dataBlock);
      if HasBlock(d, i) { assert d.inodes[j].dataBlock != b; }
      assert DataAt(Written(d, i, b, content, size), d.inodes[j].dataBlock) == DataAt(d, d.inodes[j].dataBlock);
    }
  }

  lemma WrittenNodes(d: Disk, p: Params, i: nat, b: nat, content: seq<byte>, size: nat)
    requires CanWrite(d, p, i, b, content, size)
    ensures Nodes(Written(d, i, b, content, size)) == Nodes(d)[i := File(content[..size])]
    ensures NodesOk(Written(d, i, b, content, size), p)
  {
    var d' := Written(d, i, b, content, size);
    WrittenDir(d, p, i, b, content, size);
    forall j | j != 0 && Live(d, j)
      ensures Live(d', j) && (j != i ==> NodeOf(d', d'.inodes[j]) == NodeOf(d, d.inodes[j])) && NodeOk(d', p, j)
    {
      if j != i { WrittenKeeps(d, p, i, b, content, size, j); } else { assert NodeOk(d, p, i); }
    }
    assert DataAt(d', b) == content;
  }

  lemma WrittenOwners(d: Disk, p: Params, i: nat, b: nat, content: seq<byte>, size: nat)
    requires CanWrite(d, p, i, b, content, size)
    ensures OwnersOk(Written(d, i, b, content, size))
  {
    var d' := Written(d, i, b, content, size);
    LiveFileShape(d, p, i);
    if d.inodes[i].size > 0 {
      assert d'.blockTaken == d.blockTaken;
      OwnersKept(d, d');
    } else {
      OwnerAdded(d, d', i, b);
    }
  }

  /** A write gives the file its new contents. */
  lemma WrittenRefines(d: Disk, p: Params, i: nat, b: nat, content: seq<byte>, size: nat)
    requires CanWrite(d, p, i, b, content, size)
    ensures Fsck(Written(d, i, b, content, size), p)
    ensures Abs(Written(d, i, b, content, size)) ==
            Abs(d).(nodes := Abs(d).nodes[i := File(content[..size])])
  {
    var d' := Written(d, i, b, content, size);
    WrittenDir(d, p, i, b, content, size);
    WrittenNodes(d, p, i, b, content, size);
    WrittenOwners(d, p, i, b, content, size);
    NamesKept(d, d');
    HandlesKept(d, d', p);
  }

  // ---- the open-file table --------------------------------------------------------

  function HandleSet(d: Disk, h: nat, f: OpenFile): Disk
    requires h < |d.files| == |d.fileTaken|
  {
    d.(files := d.files[h := f], fileTaken := d.fileTaken[h := TAKEN])
  }

  function HandleFreed(d: Disk, h: nat): Disk
    requires h < |d.fileTaken|
  {
    d.(fileTaken := d.fileTaken[h := FREE])
  }

  /** Only the open-file table differs. */
  predicate SameFiles(d: Disk, d': Disk) {
    && d'.inodes == d.inodes && d'.inodeTaken == d.inodeTaken
    && d'.blocks == d.blocks && d'.blockTaken == d.blockTaken
    && |d'.files| == |d.files| && |d'.fileTaken| == |d.fileTaken|
  }

  lemma SameFilesNodes(d: Disk, d': Disk, p: Params)
    requires NodesOk(d, p) && SameFiles(d, d')
    ensures NodesOk(d', p) && Nodes(d') == Nodes(d) && Dir(d') == Dir(d)
  {
    forall j | j != ROOT_DIR_INUM && Live(d, j)
      ensures NodeOk(d', p, j) && NodeOf(d', d'.inodes[j]) == NodeOf(d, d.inodes[j])
    {
      assert NodeOk(d, p, j);
    }
  }

  lemma SameFilesFsck(d: Disk, d': Disk, p: Params)
    requires Fsck(d, p) && SameFiles(d, d') && HandlesOk(d', p)
    ensures Fsck(d', p)
    ensures Abs(d') == Abs(d).(handles := Handles(d'))
  {
    SameFilesNodes(d, d', p);
    OwnersKept(d, d');
    NamesKept(d, d');
  }

  lemma HandleSetOk(d: Disk, p: Params, h: nat, f: OpenFile)
    requires HandlesOk(d, p) && h < |d.files| == |d.fileTaken| && HandleOk(d, p, f)
    ensures HandlesOk(HandleSet(d, h, f), p)
    ensures Handles(HandleSet(d, h, f)) == Handles(d)[h := f]
  {
    var d' := HandleSet(d, h, f);
    forall g | 0 <= g < |d'.files| && InUse(d', g) ensures HandleOk(d', p, d'.files[g]) {
      if g != h { assert InUse(d, g); }
    }
  }

  lemma HandleFreedOk(d: Disk, p: Params, h: nat)
    requires HandlesOk(d, p) && InUse(d, h)
    ensures HandlesOk(HandleFreed(d, h), p)
    ensures Handles(HandleFreed(d, h)) == Handles(d) - {h}
  {
    var d' := HandleFreed(d, h);
    forall g | 0 <= g < |d'.files| && InUse(d', g) ensures HandleOk(d', p, d'.files[g]) {
      assert InUse(d, g);
    }
  }

  lemma HandleSetRefines(d: Disk, p: Params, h: nat, f: OpenFile)
    requires Fsck(d, p) && h < |d.files| && HandleOk(d, p, f)
    ensures Fsck(HandleSet(d, h, f), p)
    ensures Abs(HandleSet(d, h, f)) == Abs(d).(handles := Abs(d).handles[h := f])
  {
    HandleSetOk(d, p, h, f);
    SameFilesFsck(d, HandleSet(d, h, f), p);
  }

  lemma HandleFreedRefines(d: Disk, p: Params, h: nat)
    requires Fsck(d, p) && InUse(d, h)
    ensures Fsck(HandleFreed(d, h), p)
    ensures Abs(HandleFreed(d, h)) == Abs(d).(handles := Abs(d).handles - {h})
  {
    HandleFreedOk(d, p, h);
    SameFilesFsck(d, HandleFreed(d, h), p);
  }

  // ---- what the bitmaps say -------------------------------------------------------

  /** First fit in the inode bitmap is the least unused number. */
  lemma InodeAllocAgrees(d: Disk, p: Params)
    requires Fsck(d, p)
    ensures FirstFree(d.inodeTaken) == LeastUnused(UsedIds(Abs(d)), p.maxInodes)
  {
    assert forall i :: 0 <= i < |d.inodeTaken| ==> (d.inodeTaken[i] == TAKEN <==> i in UsedIds(Abs(d)));
    var r, u := FirstFree(d.inodeTaken), LeastUnused(UsedIds(Abs(d)), p.maxInodes);
    if u != -1 { assert d.inodeTaken[u] != TAKEN; }
  }

  /** First fit in the open-file bitmap is the least unused handle. */
  lemma HandleAllocAgrees(d: Disk, p: Params)
    requires Fsck(d, p)
    ensures FirstFree(d.fileTaken) == LeastUnused(Abs(d).handles.Keys, p.maxOpen)
  {
    assert forall h :: 0 <= h < |d.fileTaken| ==> (d.fileTaken[h] == TAKEN <==> h in Abs(d).handles.Keys);
    var r, u := FirstFree(d.fileTaken), LeastUnused(Abs(d).handles.Keys, p.maxOpen);
    if u != -1 { assert d.fileTaken[u] != TAKEN; }
  }

  function TakenBlocks(d: Disk): set<int> {
    set b | 0 <= b < |d.blockTaken| && BlockTaken(d, b)
  }

  function Owners(d: Disk): set<int> {
    set i | 0 <= i < |d.inodes| && HasBlock(d, i)
  }

  /** An inode other than the root owns a block exactly when its node needs one. */
  lemma OwnersAreUsers(d: Disk, p: Params)
    requires Fsck(d, p)
    ensures Owners(d) == {ROOT_DIR_INUM} + BlockUsers(Abs(d))
  {
    forall i | i != ROOT_DIR_INUM && Live(d, i) ensures HasBlock(d, i) <==> UsesBlock(NodeOf(d, d.inodes[i])) {
      assert NodeOk(d, p, i);
      if d.inodes[i].nodeType == T_FILE { LiveFileShape(d, p, i); }
    }
    assert HasBlock(d, 0);
  }

  /** The blocks in use are exactly those that the owners' inodes point at. */
  lemma OwnersMatchBlocks(d: Disk)
    requires OwnersOk(d)
    ensures |TakenBlocks(d)| == |Owners(d)|
  {
    var owners := Owners(d);
    var own := map i | i in owners :: d.inodes[i].dataBlock;
    forall b | b in TakenBlocks(d) ensures exists i :: i in owners && own[i] == b {
      var i :| Owns(d, i, b);
      assert i in owners && own[i] == b;
    }
    SameSize(owners, TakenBlocks(d), own);
  }

  /** Conservation: one block for the directory, each link and each non-empty file. */
  lemma BlocksConserved(d: Disk, p: Params)
    requires Fsck(d, p)
    ensures |TakenBlocks(d)| == BlocksUsed(Abs(d))
  {
    OwnersMatchBlocks(d);
    OwnersAreUsers(d, p);
  }

  /** There is no free block exactly when the nodes in use need all of them. */
  lemma BlockAllocAgrees(d: Disk, p: Params)
    requires Fsck(d, p)
    ensures FirstFree(d.blockTaken) == -1 <==> NoFreeBlock(Abs(d), p)
  {
    BlocksConserved(d, p);
    RangeSubset(TakenBlocks(d), p.maxBlocks);
    var r := FirstFree(d.blockTaken);
    if r == -1 {
      assert TakenBlocks(d) == Range(p.maxBlocks);
    } else {
      assert r in Range(p.maxBlocks) && r !in TakenBlocks(d);
    }
  }

  // ---- what the tables guarantee of the abstract file system ----------------------

  lemma NamedNode(d: Disk, p: Params, n: CString)
    requires Fsck(d, p) && n in DirMap(Dir(d))
    ensures DirMap(Dir(d))[n] in Nodes(d)
    ensures FindEntry(Dir(d), n) != -1 && Dir(d)[FindEntry(Dir(d), n)].inumber == DirMap(Dir(d))[n]
  {
    LookupAgrees(Dir(d), n);
  }

  lemma NodeNamed(d: Disk, p: Params, i: int)
    requires Fsck(d, p) && i in Nodes(d)
    ensures exists n :: n in DirMap(Dir(d)) && DirMap(Dir(d))[n] == i
  {
    assert NodeOk(d, p, i);
    var k := CountWitness(Dir(d), Naming(i));
    LookupFound(Dir(d), k);
  }

  lemma LinkNamedOnce(d: Disk, p: Params, m: CString, n: CString)
    requires Fsck(d, p) && m in DirMap(Dir(d)) && n in DirMap(Dir(d))
    requires DirMap(Dir(d))[m] == DirMap(Dir(d))[n] && DirMap(Dir(d))[m] in Nodes(d)
    requires Nodes(d)[DirMap(Dir(d))[m]].Link?
    ensures m == n
  {
    var i := DirMap(Dir(d))[m];
    assert NodeOk(d, p, i);
    NamedNode(d, p, m);
    NamedNode(d, p, n);
    CountMember(Dir(d), FindEntry(Dir(d), m), Naming(i));
    assert Naming(i)(Dir(d)[FindEntry(Dir(d), n)]);
  }

  lemma NamesHaveNodes(d: Disk, p: Params)
    requires Fsck(d, p)
    ensures forall n :: n in Abs(d).dir ==> Abs(d).dir[n] in Abs(d).nodes
    ensures forall i :: i in Abs(d).nodes ==> exists n :: n in Abs(d).dir && Abs(d).dir[n] == i
  {
    var a := Abs(d);
    hide Fsck, Nodes, DirMap;
    forall n | n in a.dir ensures a.dir[n] in a.nodes { NamedNode(d, p, n); }
    forall i | i in a.nodes ensures exists n :: n in a.dir && a.dir[n] == i { NodeNamed(d, p, i); }
  }

  lemma LinksNamedOnce(d: Disk, p: Params)
    requires Fsck(d, p)
    ensures var a := Abs(d);
            forall m, n :: m in a.dir && n in a.dir && a.dir[m] == a.dir[n] ==>
              a.dir[m] in a.nodes && a.nodes[a.dir[m]].Link? ==> m == n
  {
    var a := Abs(d);
    hide Fsck, Nodes, DirMap;
    forall m, n | m in a.dir && n in a.dir && a.dir[m] == a.dir[n] && a.dir[m] in a.nodes && a.nodes[a.dir[m]].Link?
      ensures m == n
    {
      LinkNamedOnce(d, p, m, n);
    }
  }

  lemma HandlesOnFiles(d: Disk, p: Params)
    requires Fsck(d, p)
    ensures ROOT_DIR_INUM !in Abs(d).nodes
    ensures var a := Abs(d);
            forall h :: h in a.handles ==> a.handles[h].inumber in a.nodes && a.nodes[a.handles[h].inumber].File?
  {
    var a := Abs(d);
    forall h | h in a.handles ensures a.handles[h].inumber in a.nodes && a.nodes[a.handles[h].inumber].File? {
      assert HandleOk(d, p, d.files[h]);
    }
  }

  lemma FsckConsistent(d: Disk, p: Params)
    requires Fsck(d, p)
    ensures Consistent(Abs(d))
  {
    NamesHaveNodes(d, p);
    LinksNamedOnce(d, p);
    HandlesOnFiles(d, p);
    hide Fsck, Abs;
  }

  /** A node is a link or a file as its inode's type says. */
  lemma NodeTypes(d: Disk, p: Params, i: int)
    requires Fsck(d, p) && i in Nodes(d)
    ensures 0 < i < |d.inodes|
    ensures IsLink(Abs(d), At(i)) <==> d.inodes[i].nodeType == T_SYMLINK
    ensures !IsLink(Abs(d), At(i)) ==> LiveFile(d, i)
  {
    assert NodeOk(d, p, i);
  }

  /** After k steps from node i the loop of tfs_open is at this inumber. */
  ghost predicate OnWalk(d: Disk, p: Params, i: int, k: nat, inumber: int) {
    && Fsck(d, p)
    && i in Nodes(d) && inumber in Nodes(d)
    && Iterate(Abs(d), At(i), k) == At(inumber)
  }

  lemma OnWalkTypes(d: Disk, p: Params, i: int, k: nat, inumber: int)
    requires OnWalk(d, p, i, k, inumber)
    ensures 0 < inumber < |d.inodes|
    ensures IsLink(Abs(d), At(inumber)) <==> d.inodes[inumber].nodeType == T_SYMLINK
  {
    NodeTypes(d, p, inumber);
  }

  lemma OnWalkBound(d: Disk, p: Params, i: int, k: nat, inumber: int, bound: nat)
    requires OnWalk(d, p, i, k, inumber) && IsLink(Abs(d), At(inumber))
    requires !IsLink(Abs(d), Iterate(Abs(d), At(i), bound))
    ensures k < bound
  {
    if k >= bound { WalkStays(Abs(d), At(i), bound, k); }
  }

  lemma OnWalkStep(d: Disk, p: Params, i: int, k: nat, inumber: int, next: int)
    requires OnWalk(d, p, i, k, inumber)
    requires Follow(Abs(d), At(inumber)) == if next == -1 then Broken else At(next)
    ensures next == -1 ==> Resolve(Abs(d), i) == Broken
    ensures next != -1 ==> OnWalk(d, p, i, k + 1, next)
  {
    FsckConsistent(d, p);
    if next == -1 {
      StoppedAtResolve(Abs(d), i, k + 1);
    } else {
      WalkStaysInNodes(Abs(d), i, k + 1);
    }
  }

  lemma OnWalkEnd(d: Disk, p: Params, i: int, k: nat, inumber: int)
    requires OnWalk(d, p, i, k, inumber)
    requires 0 <= inumber < |d.inodes| && d.inodes[inumber].nodeType != T_SYMLINK
    ensures Resolve(Abs(d), i) == At(inumber) && LiveFile(d, inumber)
  {
    NodeTypes(d, p, inumber);
    FsckConsistent(d, p);
    StoppedAtResolve(Abs(d), i, k);
  }

  lemma FileSizeAgrees(d: Disk, p: Params, i: int)
    requires Fsck(d, p) && LiveFile(d, i)
    ensures i in Abs(d).nodes && Abs(d).nodes[i].File?
    ensures FileSize(Abs(d), i) == d.inodes[i].size <= p.blockSize
  {
    assert NodeOk(d, p, i);
    LiveFileShape(d, p, i);
  }

  lemma BlockOfLink(d: Disk, p: Params, i: int)
    requires Fsck(d, p) && IsLink(Abs(d), At(i))
    ensures 0 <= d.inodes[i].dataBlock < |d.blocks| && d.blocks[d.inodes[i].dataBlock].Bytes?
  {
    RootOwned(d, p);
    assert NodeOk(d, p, i);
    assert HasBlock(d, i);
  }

  /** A directory with free entries only, in the first inode and the first block. */
  ghost predicate Initial(d: Disk, p: Params) {
    && ShapeOk(d, p) && p.maxInodes > 0 && p.maxBlocks > 0
    && (forall i :: 0 <= i < p.maxInodes ==> d.inodeTaken[i] == if i == 0 then TAKEN else FREE)
    && (forall b :: 0 <= b < p.maxBlocks ==> d.blockTaken[b] == if b == 0 then TAKEN else FREE)
    && (forall h :: 0 <= h < p.maxOpen ==> d.fileTaken[h] == FREE)
    && d.inodes[0].nodeType == T_DIRECTORY && d.inodes[0].size == p.blockSize && d.inodes[0].dataBlock == 0
    && d.blocks[0] == Entries(seq(p.MaxDirEntries(), _ => FREE_ENTRY))
    && (forall b :: 0 < b < p.maxBlocks ==> d.blocks[b].Bytes? && |d.blocks[b].data| == p.blockSize)
  }

  lemma InitialFsck(d: Disk, p: Params)
    requires Initial(d, p)
    ensures Fsck(d, p) && Abs(d) == EMPTY
  {
    assert OwnersOk(d) by {
      forall b | BlockTaken(d, b) ensures exists i :: Owns(d, i, b) { assert Owns(d, 0, b); }
    }
    assert DirMap(Dir(d)) == map[];
    assert Nodes(d) == map[];
    assert Handles(d) == map[];
  }

  /** A free slot with a name is not consistent. */
  lemma NamedSlot(d: Disk, p: Params, data: seq<byte>)
    requires p.MaxDirEntries() * DIR_ENTRY_SIZE <= |data| && !SpellsNothing(data, p.MaxDirEntries())
    requires Dir(d) == EmptyEntries(data, p.MaxDirEntries())
    ensures !Fsck(d, p)
  {
    var k :| 0 <= k < p.MaxDirEntries() && data[k * DIR_ENTRY_SIZE] != 0;
    assert Dir(d)[k].name == NameAt(data, k) != [];
    assert !EntryOk(Dir(d)[k]);
  }

  // ---- the states in the middle of a creation --------------------------------------

  /** add_dir_entry succeeds exactly when the name can be added. */
  lemma CanAddAgrees(d: Disk, p: Params, name: CString)
    requires Fsck(d, p)
    ensures 1 <= |name| <= MAX_FILE_NAME - 1 && !Clashes(Dir(d), name) && FirstSlot(Dir(d)) != -1 <==>
              CanAdd(Abs(d), p, name)
  {
    LookupAgrees(Dir(d), name);
    DirectoryFull(Dir(d));
    if name != [] { FsckNames(d, p, name); }
  }

  /** In consistent tables only entries in use have names. */
  lemma FsckNames(d: Disk, p: Params, name: CString)
    requires Fsck(d, p) && name != []
    ensures Clashes(Dir(d), name) <==> FindEntry(Dir(d), name) != -1
    ensures FirstNamed(Dir(d), name) == FindEntry(Dir(d), name)
    ensures FindEntry(Dir(d), name) != -1 ==> |name| < MAX_FILE_NAME
  {
    CleanNames(Dir(d), name);
    var k := FindEntry(Dir(d), name);
    if k != -1 { assert EntryOk(Dir(d)[k]); }
  }

  /** What CreateFile leaves when the name can be added. */
  lemma FileCreated(d: Disk, p: Params, i: int, name: CString)
    requires Fsck(d, p) && i == FirstFree(d.inodeTaken) != -1
    requires 1 <= |name| <= MAX_FILE_NAME - 1 && !Clashes(Dir(d), name) && FirstSlot(Dir(d)) != -1
    ensures i > 0 && var d' := FileAdded(d, i, FirstSlot(Dir(d)), name);
            && Fsck(d', p) && LiveFile(d', i)
            && Abs(d') == Abs(d).(dir := Abs(d).dir[name := i], nodes := Abs(d).nodes[i := File([])])
  {
    FsckNames(d, p, name);
    LookupAgrees(Dir(d), name);
    FileAddedRefines(d, p, i, FirstSlot(Dir(d)), name);
    hide Fsck, Abs;
  }

  function InodeFilled(d: Disk, i: nat, n: Inode): Disk
    requires i < |d.inodes| == |d.inodeTaken|
  {
    d.(inodes := d.inodes[i := n], inodeTaken := d.inodeTaken[i := TAKEN])
  }

  function LinkFilled(d: Disk, p: Params, i: nat, b: nat, content: seq<byte>): Disk
    requires i < |d.inodes| == |d.inodeTaken| && b < |d.blocks| == |d.blockTaken|
  {
    InodeFilled(d, i, Inode(T_SYMLINK, p.blockSize, b, 1)).(
      blocks := d.blocks[b := Bytes(content)], blockTaken := d.blockTaken[b := TAKEN])
  }

  ghost predicate FreeInode(d: Disk, p: Params, i: int) {
    Fsck(d, p) && i == FirstFree(d.inodeTaken) && i != -1
  }

  lemma FsckRoot(d: Disk, p: Params)
    requires Fsck(d, p)
    ensures RootFound(d, p) && ShapeOk(d, p) && Distinct(Dir(d)) && |d.inodes| > 0
  {
  }

  lemma InodeFilledRoot(d: Disk, p: Params, i: int, n: Inode)
    requires FreeInode(d, p, i)
    ensures i > 0
    ensures RootFound(InodeFilled(d, i, n), p) && Dir(InodeFilled(d, i, n)) == Dir(d)
  {
    RootOwned(d, p);
  }

  lemma LinkFilledRoot(d: Disk, p: Params, i: int, b: int, content: seq<byte>)
    requires FreeInode(d, p, i) && b == FirstFree(d.blockTaken) && b != -1 && |content| == p.blockSize
    ensures i > 0 && b != RootBlock(d)
    ensures RootFound(LinkFilled(d, p, i, b, content), p) && Dir(LinkFilled(d, p, i, b, content)) == Dir(d)
  {
    RootOwned(d, p);
  }

  /** Undoing the first half of a creation restores what is in use. */
  lemma FileUndone(d: Disk, d': Disk, p: Params, i: int, n: Inode)
    requires FreeInode(d, p, i)
    requires d' == d.(inodes := d.inodes[i := n])
    ensures Fsck(d', p) && Abs(d') == Abs(d)
  {
    UntakenShape(d, p);
    RolledBack(d, d', p);
  }

  lemma LinkUndone(d: Disk, d': Disk, p: Params, i: int, n: Inode, b: int, content: seq<byte>)
    requires FreeInode(d, p, i) && b == FirstFree(d.blockTaken) && b != -1 && |content| == p.blockSize
    requires d' == d.(inodes := d.inodes[i := n], blocks := d.blocks[b := Bytes(content)])
    ensures Fsck(d', p) && Abs(d') == Abs(d)
  {
    UntakenShape(d, p);
    RolledBack(d, d', p);
  }

  lemma UntakenShape(d: Disk, p: Params)
    requires Fsck(d, p)
    ensures forall b :: 0 <= b < |d.blocks| && !BlockTaken(d, b) ==>
              d.blocks[b].Bytes? && |d.blocks[b].data| == p.blockSize
  {
    RootOwned(d, p);
  }

  /** strcpy of a target to the start of a block. */
  function Stored(target: CString, data: seq<byte>): (r: seq<byte>)
    requires |target| < |data|
    ensures |r| == |data|
  {
    target + [0] + data[|target| + 1..]
  }

  lemma StoredTarget(target: CString, data: seq<byte>)
    requires 1 <= |target| < |data|
    ensures 0 in Stored(target, data) && StrAt(Stored(target, data), 1) == target[1..]
  {
    StrAtStored(target, data[|target| + 1..], 1);
    assert Stored(target, data)[|target|] == 0;
  }

  lemma LinkCounts(d: Disk, p: Params, i: int, k: int)
    requires Fsck(d, p) && i in Nodes(d)
    requires 0 <= k < |Dir(d)| && Dir(d)[k].inumber == i
    ensures d.inodes[i].nodeType != T_DIRECTORY
    ensures d.inodes[i].hardLinks >= 1
    ensures d.inodes[i].nodeType == T_SYMLINK ==> d.inodes[i].hardLinks == 1
    ensures ShapedBlock(d, i)
  {
    assert NodeOk(d, p, i);
    if HasBlock(d, i) { assert BlockTaken(d, d.inodes[i].dataBlock); }
  }

  /** When tfs_unlink deletes the inode, nothing else names it and no handle uses it. */
  lemma LastNameUnused(d: Disk, p: Params, i: int, k: int)
    requires Fsck(d, p) && i in Nodes(d) && d.inodes[i].hardLinks == 1
    requires 0 <= k < |Dir(d)| && Dir(d)[k].inumber == i
    requires d.inodes[i].nodeType == T_SYMLINK || !IsOpen(Abs(d), i)
    ensures CanDrop(d, p, i, k)
  {
    forall h | InUse(d, h) ensures d.files[h].inumber != i {
      assert HandleOk(d, p, d.files[h]);
      assert h in Abs(d).handles;
    }
  }

  /** tfs_unlink before the directory entry is cleared. */
  function LinkDropped(d: Disk, i: nat): Disk
    requires i < |d.inodes| == |d.inodeTaken| && ShapedBlock(d, i)
  {
    var n := d.inodes[i];
    if n.nodeType == T_SYMLINK || n.hardLinks == 1 then
      var links := if n.nodeType == T_SYMLINK then n.hardLinks else 0;
      var d1 := d.(inodes := d.inodes[i := n.(hardLinks := links)], inodeTaken := d.inodeTaken[i := FREE]);
      if n.size > 0 then d1.(blockTaken := d.blockTaken[n.dataBlock := FREE]) else d1
    else
      d.(inodes := d.inodes[i := n.(hardLinks := n.hardLinks - 1)])
  }

  lemma LinkDroppedRoot(d: Disk, p: Params, i: int, k: int)
    requires Fsck(d, p) && i in Nodes(d) && ShapedBlock(d, i)
    requires 0 <= k < |Dir(d)| && Dir(d)[k].inumber == i
    ensures RootFound(LinkDropped(d, i), p) && Dir(LinkDropped(d, i)) == Dir(d)
  {
    RootOwned(d, p);
  }

  lemma EntryClearedShape(d: Disk, p: Params, i: int, k: int)
    requires Fsck(d, p) && i in Nodes(d) && ShapedBlock(d, i)
    requires 0 <= k < |Dir(d)| && Dir(d)[k].inumber == i
    requires d.inodes[i].nodeType != T_DIRECTORY && d.inodes[i].hardLinks >= 1
    requires d.inodes[i].nodeType == T_SYMLINK ==> d.inodes[i].hardLinks == 1
    ensures WithDir(LinkDropped(d, i), Dir(d)[k := FREE_ENTRY]) ==
            if d.inodes[i].hardLinks > 1 then Relinked(d, i, d.inodes[i].hardLinks - 1, k, FREE_ENTRY)
            else NodeDropped(d, i, if d.inodes[i].nodeType == T_SYMLINK then d.inodes[i].hardLinks else 0, k)
  {
  }

  /** tfs_unlink as a whole: the name goes, and with the last name the node. */
  lemma EntryClearedRefines(d: Disk, p: Params, i: int, k: int)
    requires Fsck(d, p) && i in Nodes(d) && ShapedBlock(d, i)
    requires 0 <= k < |Dir(d)| && Dir(d)[k].inumber == i
    requires d.inodes[i].nodeType == T_SYMLINK || !IsOpen(Abs(d), i)
    ensures Fsck(WithDir(LinkDropped(d, i), Dir(d)[k := FREE_ENTRY]), p)
    ensures Dir(d)[k].name in Abs(d).dir
    ensures Abs(WithDir(LinkDropped(d, i), Dir(d)[k := FREE_ENTRY])) == RemoveName(Abs(d), Dir(d)[k].name)
  {
    LinkCounts(d, p, i, k);
    EntryClearedShape(d, p, i, k);
    if d.inodes[i].hardLinks > 1 {
      NameDroppedRefines(d, p, i, k);
    } else {
      LastNameUnused(d, p, i, k);
      NodeDroppedRefines(d, p, i, if d.inodes[i].nodeType == T_SYMLINK then d.inodes[i].hardLinks else 0, k);
    }
  }

  // ---- reading and writing through a handle ------------------------------------------

  lemma HandleAgrees(d: Disk, p: Params, h: int)
    requires Fsck(d, p)
    ensures h in Abs(d).handles <==> InUse(d, h)
    ensures HandleOnFile(Abs(d), p, h)
    ensures InUse(d, h) ==>
              && Abs(d).handles[h] == d.files[h] && HandleOk(d, p, d.files[h]) && LiveFile(d, d.files[h].inumber)
              && FileSize(Abs(d), d.files[h].inumber) == d.inodes[d.files[h].inumber].size <= p.blockSize
  {
    if InUse(d, h) {
      assert HandleOk(d, p, d.files[h]);
      FileSizeAgrees(d, p, d.files[h].inumber);
    }
  }

  /** The first bytes of the new block contents are the file with the bytes written over it. */
  lemma SpliceIsOverwrite(data: seq<byte>, size: nat, off: nat, bytes: seq<byte>, hole: seq<byte>)
    requires size <= |data| && off + |bytes| <= |data|
    requires hole == if off > size then data[size..off] else []
    ensures var size' := if off + |bytes| > size then off + |bytes| else size;
            Splice(data, off, bytes)[..size'] == Overwrite(data[..size] + hole, off, bytes)
  {
  }

  function NewSize(d: Disk, h: nat, n: nat): nat
    requires h < |d.files| && 0 <= d.files[h].inumber < |d.inodes|
  {
    var size := d.inodes[d.files[h].inumber].size;
    if d.files[h].offset + n > size then d.files[h].offset + n else size
  }

  lemma WriteRefines(d: Disk, p: Params, h: int, b: nat, bytes: seq<byte>, hole: seq<byte>)
    requires Fsck(d, p) && InUse(d, h) && b < |d.blocks|
    requires d.blocks[b].Bytes? && |d.blocks[b].data| == p.blockSize
    requires LiveFile(d, d.files[h].inumber)
    requires var n := d.inodes[d.files[h].inumber]; if n.size > 0 then n.dataBlock == b else d.blockTaken[b] == FREE
    requires 0 < |bytes| && d.files[h].offset + |bytes| <= p.blockSize
    requires d.inodes[d.files[h].inumber].size <= p.blockSize
    requires hole == if d.files[h].offset > d.inodes[d.files[h].inumber].size
                     then d.blocks[b].data[d.inodes[d.files[h].inumber].size..d.files[h].offset] else []
    ensures var f := d.files[h];
            var d' := HandleSet(Written(d, f.inumber, b, Splice(d.blocks[b].data, f.offset, bytes),
                NewSize(d, h, |bytes|)),
                                h, OpenFile(f.inumber, f.offset + |bytes|));
            && Fsck(d', p) && f.inumber in Abs(d).nodes && Abs(d).nodes[f.inumber].File?
            && f.offset <= |Abs(d).nodes[f.inumber].bytes + hole|
            && Abs(d') == Abs(d).(
                 nodes := Abs(d).nodes[f.inumber :=
                     File(Overwrite(Abs(d).nodes[f.inumber].bytes + hole, f.offset, bytes))],
                 handles := Abs(d).handles[h := OpenFile(f.inumber, f.offset + |bytes|)])
  {
    hide Fsck, Abs;
    FsckRoot(d, p);
    var f := d.files[h];
    var content := Splice(d.blocks[b].data, f.offset, bytes);
    var size := NewSize(d, h, |bytes|);
    BytesOfFile(d, p, f.inumber, b);
    SpliceIsOverwrite(d.blocks[b].data, d.inodes[f.inumber].size, f.offset, bytes, hole);
    WrittenRefines(d, p, f.inumber, b, content, size);
    WrittenHandle(d, p, h, b, content, size, f.offset + |bytes|);
  }

  /** The write and the move of the offset that goes with it. */
  lemma WrittenHandle(d: Disk, p: Params, h: int, b: nat, content: seq<byte>, size: nat, offset: nat)
    requires InUse(d, h) && d.files[h].inumber >= 0 && CanWrite(d, p, d.files[h].inumber, b, content, size)
    requires offset <= p.blockSize
    requires |d.blocks| == |d.blockTaken|
    ensures var f := d.files[h];
            var d1 := Written(d, f.inumber, b, content, size);
            var d' := HandleSet(d1, h, OpenFile(f.inumber, offset));
            Fsck(d', p) && Abs(d') == Abs(d1).(handles := Abs(d).handles[h := OpenFile(f.inumber, offset)])
  {
    hide Fsck;
    var f := d.files[h];
    var d1 := Written(d, f.inumber, b, content, size);
    WrittenRefines(d, p, f.inumber, b, content, size);
    FsckRoot(d1, p);
    HandleSetRefines(d1, p, h, OpenFile(f.inumber, offset));
  }

  lemma BytesOfFile(d: Disk, p: Params, i: int, b: nat)
    requires Fsck(d, p) && LiveFile(d, i) && b < |d.blocks|
    requires d.inodes[i].size > 0 ==> d.inodes[i].dataBlock == b
    requires d.blocks[b].Bytes? && |d.blocks[b].data| == p.blockSize
    ensures i in Abs(d).nodes && d.inodes[i].size <= p.blockSize
    ensures Abs(d).nodes[i] == File(d.blocks[b].data[..d.inodes[i].size])
  {
    assert NodeOk(d, p, i);
  }

  function HandleMoved(d: Disk, h: nat, offset: nat): Disk
    requires h < |d.files| == |d.fileTaken|
  {
    d.(files := d.files[h := d.files[h].(offset := offset)])
  }

  /** A read moves the offset and returns bytes of the file, from its own block. */
  lemma ReadRefines(d: Disk, p: Params, h: int, n: nat)
    requires Fsck(d, p) && InUse(d, h) && LiveFile(d, d.files[h].inumber)
    requires d.files[h].offset + n <= d.inodes[d.files[h].inumber].size <= p.blockSize
    ensures Fsck(HandleMoved(d, h, d.files[h].offset + n), p)
    ensures h in Abs(d).handles && Abs(HandleMoved(d, h, d.files[h].offset + n)) == Advance(Abs(d), h, n)
    ensures n > 0 ==>
              var f := d.files[h];
              var b := d.inodes[f.inumber].dataBlock;
              && 0 <= b < |d.blocks| && d.blocks[b].Bytes? && |d.blocks[b].data| == p.blockSize
              && f.inumber in Abs(d).nodes && Abs(d).nodes[f.inumber].File?
              && f.offset + n <= |Abs(d).nodes[f.inumber].bytes|
              && d.blocks[b].data[f.offset..f.offset + n] == Abs(d).nodes[f.inumber].bytes[f.offset..f.offset + n]
  {
    hide Fsck;
    var f := d.files[h];
    assert HandleOk(d, p, OpenFile(f.inumber, f.offset + n));
    FsckRoot(d, p);
    HandleSetRefines(d, p, h, OpenFile(f.inumber, f.offset + n));
    assert HandleSet(d, h, OpenFile(f.inumber, f.offset + n)) == HandleMoved(d, h, f.offset + n);
    if n > 0 {
      LiveFileShape(d, p, f.inumber);
      BytesOfFile(d, p, f.inumber, d.inodes[f.inumber].dataBlock);
    }
  }

  // ---- importing a file -------------------------------------------------------------

  /** The handle is at the start of an empty file. */
  ghost predicate AtEmptyFile(a: Fs, h: int) {
    && h in a.handles && a.handles[h].offset == 0
    && a.handles[h].inumber in a.nodes && a.nodes[a.handles[h].inumber] == File([])
  }

  lemma AddHandleAtStart(a: Fs, p: Params, id: int)
    requires id in a.nodes && a.nodes[id] == File([])
    ensures var (a1, h) := AddHandle(a, p, id, 0); h != -1 ==> AtEmptyFile(a1, h)
  {
  }

  /** Opening to import gives a handle at the start of an empty file. */
  lemma OpenedEmpty(d: Disk, p: Params, name: CString)
    requires Fsck(d, p)
    ensures var (a1, h) := Open(Abs(d), p, name, IMPORT_MODE); h != -1 ==> AtEmptyFile(a1, h)
  {
    hide Fsck;
    var a := Abs(d);
    if ValidPathname(name) && name[1..] in a.dir {
      var w := Resolve(a, a.dir[name[1..]]);
      if w.At? { AddHandleAtStart(Truncate(a, w.id), p, w.id); }
    } else if ValidPathname(name) {
      var (a1, id) := CreateFile(a, p, name[1..]);
      if id != -1 { AddHandleAtStart(a1, p, id); }
    }
  }

  lemma FilledNothing(a: Fs, h: int)
    requires AtEmptyFile(a, h)
    ensures forall bytes: seq<byte> :: Filled(a, h, bytes[..0]) == a
  {
    forall bytes: seq<byte> ensures Filled(a, h, bytes[..0]) == a {
      assert bytes[..0] == [];
      assert a.nodes[a.handles[h].inumber := File([])] == a.nodes;
      assert a.handles[h := OpenFile(a.handles[h].inumber, 0)] == a.handles;
    }
  }

  lemma AppendChunk(bytes: seq<byte>, w: nat, n: nat)
    requires w + n <= |bytes|
    ensures Overwrite(bytes[..w] + [], w, bytes[w..w + n]) == bytes[..w + n]
  {
  }

  lemma NothingToFit(a1: Fs, p: Params, h: int, bytes: seq<byte>, written: nat, chunk: seq<byte>, hole: seq<byte>)
    requires AtEmptyFile(a1, h) && written <= |bytes| && hole == []
    requires written == p.blockSize
    ensures Write(Filled(a1, h, bytes[..written]), p, h, chunk, hole) == (Filled(a1, h, bytes[..written]), 0)
  {
  }

  /** One chunk: what is written so far grows by what still fits. */
  lemma ImportStep(a1: Fs, p: Params, h: int, bytes: seq<byte>, read: nat, written: nat)
    requires AtEmptyFile(a1, h)
    requires read < |bytes| && written == Min(read, p.blockSize)
    requires p.blockSize > 0 && read > 0 ==> !NoFreeBlock(a1, p)
    ensures var a := Filled(a1, h, bytes[..written]);
            var chunk := bytes[read..Min(read + 127, |bytes|)];
            && HandleOnFile(a, p, h) && Gap(a, h) == 0
            && (forall hole :: |hole| == 0 ==>
                 Write(a, p, h, chunk, hole) ==
                 if read == 0 && NoFreeBlock(a1, p) && p.blockSize > 0 then (a, -1)
                 else (Filled(a1, h, bytes[..Min(read + |chunk|, p.blockSize)]),
                     Min(read + |chunk|, p.blockSize) - written))
  {
    var a := Filled(a1, h, bytes[..written]);
    var chunk := bytes[read..Min(read + 127, |bytes|)];
    var n := Min(|chunk|, p.blockSize - written);
    if written == 0 { FilledNothing(a1, h); }
    forall hole: seq<byte> | |hole| == 0
      ensures Write(a, p, h, chunk, hole) ==
              if read == 0 && NoFreeBlock(a1, p) && p.blockSize > 0 then (a, -1)
              else (Filled(a1, h, bytes[..Min(read + |chunk|, p.blockSize)]),
                  Min(read + |chunk|, p.blockSize) - written)
    {
      assert hole == [];
      if written == p.blockSize {
        NothingToFit(a1, p, h, bytes, written, chunk, hole);
      } else {
        var id := a1.handles[h].inumber;
        assert written == 0 ==> a == a1;
        assert FileSize(a, id) == written;
        assert chunk[..n] == bytes[written..written + n];
        AppendChunk(bytes, written, n);
        if !(read == 0 && NoFreeBlock(a1, p)) {
          var r := Write(a, p, h, chunk, hole);
          assert Overwrite(a.nodes[id].bytes + hole, written, chunk[..n]) == bytes[..written + n];
          assert r.0.nodes == a.nodes[id := File(bytes[..written + n])];
          assert r.0 == Filled(a1, h, bytes[..written + n]);
        }
      }
    }
  }
}

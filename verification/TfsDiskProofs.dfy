/** Each way the calls change the tables keeps them consistent and changes the
    abstract file system in the intended way. */
module TfsDiskProofs {
  import opened Counting
  import opened TfsTypes
  import opened TfsSpec
  import opened TfsDisk
  import opened TfsDirProofs

  function RootBlock(d: Disk): int
    requires |d.inodes| > 0
  {
    d.inodes[0].dataBlock
  }

  lemma RootOwned(d: Disk, p: Params)
    requires Fsck(d, p)
    ensures Owns(d, 0, RootBlock(d))
    ensures BlockTaken(d, RootBlock(d))
    ensures forall i :: i != 0 && HasBlock(d, i) ==> d.inodes[i].dataBlock != RootBlock(d)
  {
    assert HasBlock(d, 0);
  }

  // ---- what a change that leaves a table alone keeps --------------------------

  ghost predicate SameOwners(d: Disk, d': Disk) {
    && |d.blocks| == |d'.blocks| && d.blockTaken == d'.blockTaken
    && (forall i :: HasBlock(d, i) <==> HasBlock(d', i))
    && (forall i :: HasBlock(d, i) ==> d'.inodes[i].dataBlock == d.inodes[i].dataBlock)
  }

  lemma OwnersKept(d: Disk, d': Disk)
    requires OwnersOk(d) && SameOwners(d, d')
    ensures OwnersOk(d')
  {
    forall b | BlockTaken(d', b) ensures exists j :: Owns(d', j, b) {
      assert BlockTaken(d, b);
      var j :| Owns(d, j, b);
      assert Owns(d', j, b);
    }
  }

  lemma HandlesKept(d: Disk, d': Disk, p: Params)
    requires HandlesOk(d, p) && d'.files == d.files && d'.fileTaken == d.fileTaken
    requires forall i :: i != ROOT_DIR_INUM && Live(d, i) && d.inodes[i].nodeType == T_FILE ==>
              Live(d', i) && d'.inodes[i].nodeType == T_FILE
    ensures HandlesOk(d', p)
  {
    forall h | 0 <= h < |d'.files| && InUse(d', h) ensures HandleOk(d', p, d'.files[h]) {
      assert InUse(d, h);
    }
  }

  lemma NamesLiveKept(d: Disk, d': Disk, k: nat, e: DirEntry)
    requires NamesLive(d) && k < |Dir(d)| && Dir(d') == Dir(d)[k := e]
    requires forall j :: 0 <= j < |Dir(d)| && j != k && Used(Dir(d)[j]) && Live(d, Dir(d)[j].inumber) ==>
              Live(d', Dir(d)[j].inumber)
    requires Used(e) ==> e.inumber != ROOT_DIR_INUM && Live(d', e.inumber)
    ensures NamesLive(d')
  {
  }

  // ---- creating a node -------------------------------------------------------

  /** The tables after inode i (and block b, for a link) and slot k are filled. */
  function FileAdded(d: Disk, i: nat, k: nat, name: CString): Disk
    requires 0 < i < |d.inodes| == |d.inodeTaken| && k < |Dir(d)|
  {
    WithDir(d.(inodes := d.inodes[i := Inode(T_FILE, 0, -1, 1)], inodeTaken := d.inodeTaken[i := TAKEN]),
            Dir(d)[k := DirEntry(name, i)])
  }

  ghost predicate CanFill(d: Disk, p: Params, i: nat, k: nat, name: CString) {
    && Fsck(d, p)
    && 0 < i < |d.inodes| && d.inodeTaken[i] == FREE
    && k < |Dir(d)| && !Used(Dir(d)[k])
    && 1 <= |name| <= MAX_FILE_NAME - 1
    && name !in DirMap(Dir(d))
  }

  /** No entry names an inode that is not live. */
  lemma FreeUnnamed(d: Disk, p: Params, i: nat)
    requires Fsck(d, p) && i < |d.inodes| && d.inodeTaken[i] == FREE
    ensures Count(Dir(d), Naming(i)) == 0
  {
    CountZero(Dir(d), Naming(i));
    forall k | 0 <= k < |Dir(d)| ensures !Naming(i)(Dir(d)[k]) {
      assert Used(Dir(d)[k]) ==> Live(d, Dir(d)[k].inumber);
    }
  }

  lemma FileAddedNodes(d: Disk, p: Params, i: nat, k: nat, name: CString)
    requires CanFill(d, p, i, k, name)
    ensures Nodes(FileAdded(d, i, k, name)) == Nodes(d)[i := File([])]
  {
    var d' := FileAdded(d, i, k, name);
    RootOwned(d, p);
    forall j | j != 0 && Live(d, j)
      ensures Live(d', j) && NodeOf(d', d'.inodes[j]) == NodeOf(d, d.inodes[j])
    {
      assert NodeOk(d, p, j);
    }
  }

  lemma FileAddedNodesOk(d: Disk, p: Params, i: nat, k: nat, name: CString)
    requires CanFill(d, p, i, k, name)
    ensures NodesOk(FileAdded(d, i, k, name), p)
  {
    var d' := FileAdded(d, i, k, name);
    var e := DirEntry(name, i);
    RootOwned(d, p);
    FreeUnnamed(d, p, i);
    forall j | 0 <= j < |d'.inodes| && j != ROOT_DIR_INUM && Live(d', j)
      ensures NodeOk(d', p, j)
    {
      NamingChanged(Dir(d), k, e, j);
      if j != i { assert NodeOk(d, p, j); }
    }
  }

  lemma FileAddedFsck(d: Disk, p: Params, i: nat, k: nat, name: CString)
    requires CanFill(d, p, i, k, name)
    ensures Fsck(FileAdded(d, i, k, name), p)
  {
    var d' := FileAdded(d, i, k, name);
    RootOwned(d, p);
    EntryAdded(Dir(d), k, DirEntry(name, i));
    FileAddedNodesOk(d, p, i, k, name);
    OwnersKept(d, d');
    assert Dir(d') == Dir(d)[k := DirEntry(name, i)];
    assert RootOk(d', p);
    NamesLiveKept(d, d', k, DirEntry(name, i));
    HandlesKept(d, d', p);
  }

  /** A new empty file under a new name. */
  lemma FileAddedRefines(d: Disk, p: Params, i: nat, k: nat, name: CString)
    requires CanFill(d, p, i, k, name)
    ensures Fsck(FileAdded(d, i, k, name), p)
    ensures Abs(FileAdded(d, i, k, name)) ==
            Abs(d).(dir := Abs(d).dir[name := i], nodes := Abs(d).nodes[i := File([])])
  {
    FileAddedFsck(d, p, i, k, name);
    FileAddedNodes(d, p, i, k, name);
    EntryAdded(Dir(d), k, DirEntry(name, i));
  }

  function LinkAdded(d: Disk, p: Params, i: nat, b: nat, content: seq<byte>, k: nat, name: CString): Disk
    requires 0 < i < |d.inodes| == |d.inodeTaken| && b < |d.blocks| == |d.blockTaken| && k < |Dir(d)|
  {
    WithDir(d.(inodes := d.inodes[i := Inode(T_SYMLINK, p.blockSize, b, 1)],
               inodeTaken := d.inodeTaken[i := TAKEN],
               blocks := d.blocks[b := Bytes(content)],
               blockTaken := d.blockTaken[b := TAKEN]),
            Dir(d)[k := DirEntry(name, i)])
  }

  ghost predicate CanLink(d: Disk, p: Params, i: nat, b: nat, content: seq<byte>, k: nat, name: CString) {
    && CanFill(d, p, i, k, name)
    && b < |d.blocks| && d.blockTaken[b] == FREE
    && |content| == p.blockSize && 0 in content
  }

  lemma LinkAddedDir(d: Disk, p: Params, i: nat, b: nat, content: seq<byte>, k: nat, name: CString)
    requires CanLink(d, p, i, b, content, k, name)
    ensures Dir(LinkAdded(d, p, i, b, content, k, name)) == Dir(d)[k := DirEntry(name, i)]
    ensures RootOk(LinkAdded(d, p, i, b, content, k, name), p)
    ensures ShapeOk(LinkAdded(d, p, i, b, content, k, name), p)
  {
    RootOwned(d, p);
  }

  lemma LinkAddedData(d: Disk, p: Params, i: nat, b: nat, content: seq<byte>, k: nat, name: CString, j: int)
    requires CanLink(d, p, i, b, content, k, name)
    requires j != ROOT_DIR_INUM && HasBlock(d, j)
    ensures DataAt(LinkAdded(d, p, i, b, content, k, name), d.inodes[j].dataBlock) == DataAt(d, d.inodes[j].dataBlock)
  {
    RootOwned(d, p);
    assert BlockTaken(d, d.inodes[j].dataBlock);
  }

  lemma LinkAddedNodes(d: Disk, p: Params, i: nat, b: nat, content: seq<byte>, k: nat, name: CString)
    requires CanLink(d, p, i, b, content, k, name)
    ensures Nodes(LinkAdded(d, p, i, b, content, k, name)) == Nodes(d)[i := Link(StrAt(content, 1))]
  {
    var d' := LinkAdded(d, p, i, b, content, k, name);
    RootOwned(d, p);
    forall j | j != 0 && Live(d, j)
      ensures Live(d', j) && NodeOf(d', d'.inodes[j]) == NodeOf(d, d.inodes[j])
    {
      assert NodeOk(d, p, j);
      if HasBlock(d, j) { LinkAddedData(d, p, i, b, content, k, name, j); }
    }
    assert DataAt(d', b) == content;
  }

  lemma LinkAddedNodesOk(d: Disk, p: Params, i: nat, b: nat, content: seq<byte>, k: nat, name: CString)
    requires CanLink(d, p, i, b, content, k, name)
    ensures NodesOk(LinkAdded(d, p, i, b, content, k, name), p)
  {
    var d' := LinkAdded(d, p, i, b, content, k, name);
    LinkAddedDir(d, p, i, b, content, k, name);
    FreeUnnamed(d, p, i);
    RootOwned(d, p);
    assert DataAt(d', b) == content;
    forall j | 0 <= j < |d'.inodes| && j != ROOT_DIR_INUM && Live(d', j)
      ensures NodeOk(d', p, j)
    {
      NamingChanged(Dir(d), k, DirEntry(name, i), j);
      if j != i {
        assert NodeOk(d, p, j);
        if HasBlock(d, j) { LinkAddedData(d, p, i, b, content, k, name, j); }
      }
    }
  }

  /** One more owner for one more block. */
  lemma OwnerAdded(d: Disk, d': Disk, i: nat, b: nat)
    requires OwnersOk(d) && b < |d.blocks| == |d.blockTaken| && d.blockTaken[b] == FREE && !HasBlock(d, i)
    requires |d'.blocks| == |d.blocks| && d'.blockTaken == d.blockTaken[b := TAKEN]
    requires Owns(d', i, b)
    requires forall j :: j != i ==> (HasBlock(d, j) <==> HasBlock(d', j))
    requires forall j :: j != i && HasBlock(d, j) && HasBlock(d', j) ==> d'.inodes[j].dataBlock == d.inodes[j].dataBlock
    ensures OwnersOk(d')
  {
    forall c | BlockTaken(d', c) ensures exists j :: Owns(d', j, c) {
      if c != b {
        assert BlockTaken(d, c);
        var j :| Owns(d, j, c);
        assert Owns(d', j, c);
      }
    }
    forall j | HasBlock(d', j) ensures BlockTaken(d', d'.inodes[j].dataBlock) {
      if j != i { assert HasBlock(d, j); }
    }
    forall j, l | HasBlock(d', j) && HasBlock(d', l) && d'.inodes[j].dataBlock == d'.inodes[l].dataBlock
      ensures j == l
    {
      if j != i { assert BlockTaken(d, d.inodes[j].dataBlock); }
      if l != i { assert BlockTaken(d, d.inodes[l].dataBlock); }
    }
  }

  lemma LinkAddedFsck(d: Disk, p: Params, i: nat, b: nat, content: seq<byte>, k: nat, name: CString)
    requires CanLink(d, p, i, b, content, k, name)
    ensures Fsck(LinkAdded(d, p, i, b, content, k, name), p)
  {
    var d' := LinkAdded(d, p, i, b, content, k, name);
    LinkAddedDir(d, p, i, b, content, k, name);
    EntryAdded(Dir(d), k, DirEntry(name, i));
    LinkAddedNodesOk(d, p, i, b, content, k, name);
    OwnerAdded(d, d', i, b);
    NamesLiveKept(d, d', k, DirEntry(name, i));
    HandlesKept(d, d', p);
  }

  /** A new symbolic link under a new name. */
  lemma LinkAddedRefines(d: Disk, p: Params, i: nat, b: nat, content: seq<byte>, k: nat, name: CString)
    requires CanLink(d, p, i, b, content, k, name)
    ensures Fsck(LinkAdded(d, p, i, b, content, k, name), p)
    ensures Abs(LinkAdded(d, p, i, b, content, k, name)) ==
            Abs(d).(dir := Abs(d).dir[name := i], nodes := Abs(d).nodes[i := Link(StrAt(content, 1))])
  {
    LinkAddedFsck(d, p, i, b, content, k, name);
    LinkAddedDir(d, p, i, b, content, k, name);
    LinkAddedNodes(d, p, i, b, content, k, name);
    EntryAdded(Dir(d), k, DirEntry(name, i));
  }

  /** Creations that are rolled back leave only free inodes and blocks changed. */
  ghost predicate SameInUse(d: Disk, d': Disk, p: Params) {
    && ShapeOk(d', p)
    && d'.inodeTaken == d.inodeTaken && d'.blockTaken == d.blockTaken
    && d'.files == d.files && d'.fileTaken == d.fileTaken
    && (forall i :: Live(d, i) ==> d'.inodes[i] == d.inodes[i])
    && (forall b :: BlockTaken(d, b) ==> d'.blocks[b] == d.blocks[b])
    && (forall b :: 0 <= b < |d'.blocks| && !BlockTaken(d, b) ==>
        d'.blocks[b].Bytes? && |d'.blocks[b].data| == p.blockSize)
  }

  lemma SameInUseData(d: Disk, d': Disk, p: Params, i: int)
    requires Fsck(d, p) && SameInUse(d, d', p) && HasBlock(d, i)
    ensures DataAt(d', d.inodes[i].dataBlock) == DataAt(d, d.inodes[i].dataBlock)
  {
    assert BlockTaken(d, d.inodes[i].dataBlock);
  }

  lemma SameInUseNodes(d: Disk, d': Disk, p: Params)
    requires Fsck(d, p) && SameInUse(d, d', p) && Dir(d') == Dir(d)
    ensures Nodes(d') == Nodes(d) && NodesOk(d', p)
  {
    forall j | j != 0 && Live(d, j)
      ensures NodeOk(d', p, j) && NodeOf(d', d'.inodes[j]) == NodeOf(d, d.inodes[j])
    {
      assert NodeOk(d, p, j);
      if HasBlock(d, j) { SameInUseData(d, d', p, j); }
    }
  }

  lemma RolledBack(d: Disk, d': Disk, p: Params)
    requires Fsck(d, p) && SameInUse(d, d', p)
    ensures Fsck(d', p) && Abs(d') == Abs(d)
  {
    RootOwned(d, p);
    assert Dir(d') == Dir(d);
    assert RootOk(d', p);
    SameInUseNodes(d, d', p);
    OwnersKept(d, d');
    HandlesKept(d, d', p);
  }

  // ---- further names and removal ----------------------------------------------

  function Relinked(d: Disk, i: nat, links: int, k: nat, e: DirEntry): Disk
    requires 0 < i < |d.inodes| && k < |Dir(d)|
  {
    WithDir(d.(inodes := d.inodes[i := d.inodes[i].(hardLinks := links)]), Dir(d)[k := e])
  }

  ghost predicate LiveFile(d: Disk, i: int) {
    i != ROOT_DIR_INUM && Live(d, i) && d.inodes[i].nodeType == T_FILE
  }

  /** Slot k changes to e and the link count of file i to the new number of names. */
  ghost predicate CanRelink(d: Disk, p: Params, i: nat, links: int, k: nat, e: DirEntry) {
    && Fsck(d, p) && LiveFile(d, i)
    && k < |Dir(d)| && DirOk(Dir(d)[k := e])
    && (Used(Dir(d)[k]) ==> Dir(d)[k].inumber == i)
    && (Used(e) ==> e.inumber == i)
    && links == Count(Dir(d)[k := e], Naming(i)) >= 1
  }

  lemma RelinkedDir(d: Disk, p: Params, i: nat, links: int, k: nat, e: DirEntry)
    requires CanRelink(d, p, i, links, k, e)
    ensures Dir(Relinked(d, i, links, k, e)) == Dir(d)[k := e]
    ensures forall j :: j != 0 && Live(d, j) ==>
              || !HasBlock(d, j)
              || DataAt(Relinked(d, i, links, k, e), d.inodes[j].dataBlock) == DataAt(d, d.inodes[j].dataBlock)
  {
    RootOwned(d, p);
    forall j | j != 0 && Live(d, j) && HasBlock(d, j)
      ensures DataAt(Relinked(d, i, links, k, e), d.inodes[j].dataBlock) == DataAt(d, d.inodes[j].dataBlock)
    {
      assert BlockTaken(d, d.inodes[j].dataBlock);
    }
  }

  lemma RelinkedNode(d: Disk, p: Params, i: nat, links: int, k: nat, e: DirEntry, j: int)
    requires CanRelink(d, p, i, links, k, e) && j != 0 && Live(d, j)
    ensures var d' := Relinked(d, i, links, k, e);
            Live(d', j) && NodeOf(d', d'.inodes[j]) == NodeOf(d, d.inodes[j]) && NodeOk(d', p, j)
  {
    RelinkedDir(d, p, i, links, k, e);
    assert NodeOk(d, p, j);
    NamingChanged(Dir(d), k, e, j);
    assert !HasBlock(d, j) ==> d.inodes[j].size == 0;
    hide Fsck;
  }

  lemma RelinkedNodes(d: Disk, p: Params, i: nat, links: int, k: nat, e: DirEntry)
    requires CanRelink(d, p, i, links, k, e)
    ensures Nodes(Relinked(d, i, links, k, e)) == Nodes(d)
    ensures NodesOk(Relinked(d, i, links, k, e), p)
    ensures Dir(Relinked(d, i, links, k, e)) == Dir(d)[k := e]
  {
    var d' := Relinked(d, i, links, k, e);
    RelinkedDir(d, p, i, links, k, e);
    hide Fsck, NodeOf, NodeOk;
    forall j | j != 0 && Live(d, j)
      ensures Live(d', j) && NodeOf(d', d'.inodes[j]) == NodeOf(d, d.inodes[j]) && NodeOk(d', p, j)
    {
      RelinkedNode(d, p, i, links, k, e, j);
    }
  }

  lemma RelinkedRefines(d: Disk, p: Params, i: nat, links: int, k: nat, e: DirEntry)
    requires CanRelink(d, p, i, links, k, e)
    ensures Fsck(Relinked(d, i, links, k, e), p)
    ensures Abs(Relinked(d, i, links, k, e)) == Abs(d).(dir := DirMap(Dir(d)[k := e]))
  {
    var d' := Relinked(d, i, links, k, e);
    RelinkedNodes(d, p, i, links, k, e);
    RootOwned(d, p);
    hide NodesOk, NodeOk, Nodes, NodeOf, DirMap;
    OwnersKept(d, d');
    NamesLiveKept(d, d', k, e);
    HandlesKept(d, d', p);
  }

  lemma CanAddName(d: Disk, p: Params, i: nat, k: nat, name: CString)
    requires Fsck(d, p) && LiveFile(d, i)
    requires k < |Dir(d)| && !Used(Dir(d)[k]) && 1 <= |name| <= MAX_FILE_NAME - 1 && name !in DirMap(Dir(d))
    ensures CanRelink(d, p, i, d.inodes[i].hardLinks + 1, k, DirEntry(name, i))
    ensures DirMap(Dir(d)[k := DirEntry(name, i)]) == DirMap(Dir(d))[name := i]
  {
    assert d.inodes[i].hardLinks == Count(Dir(d), Naming(i)) >= 1 by { assert NodeOk(d, p, i); }
    EntryAdded(Dir(d), k, DirEntry(name, i));
    NamingChanged(Dir(d), k, DirEntry(name, i), i);
  }

  /** Another name for a file. */
  lemma NameAddedRefines(d: Disk, p: Params, i: nat, k: nat, name: CString)
    requires Fsck(d, p) && LiveFile(d, i)
    requires k < |Dir(d)| && !Used(Dir(d)[k]) && 1 <= |name| <= MAX_FILE_NAME - 1 && name !in DirMap(Dir(d))
    ensures Fsck(Relinked(d, i, d.inodes[i].hardLinks + 1, k, DirEntry(name, i)), p)
    ensures Abs(Relinked(d, i, d.inodes[i].hardLinks + 1, k, DirEntry(name, i)))
              == Abs(d).(dir := Abs(d).dir[name := i])
  {
    CanAddName(d, p, i, k, name);
    RelinkedRefines(d, p, i, d.inodes[i].hardLinks + 1, k, DirEntry(name, i));
  }

  lemma CanDropName(d: Disk, p: Params, i: nat, k: nat)
    requires Fsck(d, p) && LiveFile(d, i) && d.inodes[i].hardLinks > 1
    requires k < |Dir(d)| && Dir(d)[k].inumber == i
    ensures CanRelink(d, p, i, d.inodes[i].hardLinks - 1, k, FREE_ENTRY)
    ensures Dir(d)[k].name in DirMap(Dir(d)) && DirMap(Dir(d))[Dir(d)[k].name] == i
    ensures DirMap(Dir(d)[k := FREE_ENTRY]) == DirMap(Dir(d)) - {Dir(d)[k].name}
    ensures i in DirMap(Dir(d)[k := FREE_ENTRY]).Values
  {
    assert d.inodes[i].hardLinks == Count(Dir(d), Naming(i)) by { assert NodeOk(d, p, i); }
    LookupFound(Dir(d), k);
    EntryRemoved(Dir(d), k);
    NamingChanged(Dir(d), k, FREE_ENTRY, i);
    NamedInMap(Dir(d)[k := FREE_ENTRY], i);
  }

  /** One of several names of a file goes. */
  lemma NameDroppedRefines(d: Disk, p: Params, i: nat, k: nat)
    requires Fsck(d, p) && LiveFile(d, i) && d.inodes[i].hardLinks > 1
    requires k < |Dir(d)| && Dir(d)[k].inumber == i
    ensures Fsck(Relinked(d, i, d.inodes[i].hardLinks - 1, k, FREE_ENTRY), p)
    ensures Dir(d)[k].name in Abs(d).dir
    ensures Abs(Relinked(d, i, d.inodes[i].hardLinks - 1, k, FREE_ENTRY)) == RemoveName(Abs(d), Dir(d)[k].name)
  {
    CanDropName(d, p, i, k);
    RelinkedRefines(d, p, i, d.inodes[i].hardLinks - 1, k, FREE_ENTRY);
  }

  /** Inode i, its block and slot k are freed. */
  function NodeDropped(d: Disk, i: nat, links: int, k: nat): Disk
    requires 0 < i < |d.inodes| == |d.inodeTaken| && k < |Dir(d)| && ShapedBlock(d, i)
  {
    var d1 := d.(inodes := d.inodes[i := d.inodes[i].(hardLinks := links)], inodeTaken := d.inodeTaken[i := FREE]);
    var d2 := if d.inodes[i].size > 0 then d1.(blockTaken := d.blockTaken[d.inodes[i].dataBlock := FREE]) else d1;
    WithDir(d2, Dir(d)[k := FREE_ENTRY])
  }

  predicate ShapedBlock(d: Disk, i: nat)
    requires i < |d.inodes|
  {
    d.inodes[i].size > 0 ==> 0 <= d.inodes[i].dataBlock < |d.blockTaken|
  }

  ghost predicate CanDrop(d: Disk, p: Params, i: nat, k: nat) {
    && Fsck(d, p) && i != ROOT_DIR_INUM && Live(d, i)
    && k < |Dir(d)| && Dir(d)[k].inumber == i
    && d.inodes[i].hardLinks == 1
    && (forall h :: InUse(d, h) ==> d.files[h].inumber != i)
  }

  lemma DropShape(d: Disk, p: Params, i: nat, k: nat)
    requires CanDrop(d, p, i, k)
    ensures ShapedBlock(d, i)
    ensures HasBlock(d, i) ==> d.inodes[i].dataBlock != RootBlock(d)
  {
    RootOwned(d, p);
    if HasBlock(d, i) { assert BlockTaken(d, d.inodes[i].dataBlock); }
  }

  lemma NodeDroppedDir(d: Disk, p: Params, i: nat, links: int, k: nat)
    requires CanDrop(d, p, i, k) && ShapedBlock(d, i)
    ensures Dir(NodeDropped(d, i, links, k)) == Dir(d)[k := FREE_ENTRY]
    ensures RootOk(NodeDropped(d, i, links, k), p)
    ensures ShapeOk(NodeDropped(d, i, links, k), p)
  {
    RootOwned(d, p);
  }

  lemma NodeDroppedKeeps(d: Disk, p: Params, i: nat, links: int, k: nat, j: int)
    requires CanDrop(d, p, i, k) && ShapedBlock(d, i)
    requires j != ROOT_DIR_INUM && j != i && Live(d, j)
    ensures var d' := NodeDropped(d, i, links, k);
            && Live(d', j) && d'.inodes[j] == d.inodes[j]
            && NodeOf(d', d'.inodes[j]) == NodeOf(d, d.inodes[j])
            && NodeOk(d', p, j)
  {
    RootOwned(d, p);
    NodeDroppedDir(d, p, i, links, k);
    assert NodeOk(d, p, j);
    NamingChanged(Dir(d), k, FREE_ENTRY, j);
    if HasBlock(d, j) { assert BlockTaken(d, d.inodes[j].dataBlock); }
  }

  lemma NodeDroppedNodes(d: Disk, p: Params, i: nat, links: int, k: nat)
    requires CanDrop(d, p, i, k) && ShapedBlock(d, i)
    ensures Nodes(NodeDropped(d, i, links, k)) == Nodes(d) - {i}
  {
    var d' := NodeDropped(d, i, links, k);
    var m, m' := Nodes(d) - {i}, Nodes(d');
    assert forall j :: Live(d', j) <==> j != i && Live(d, j);
    assert m.Keys == m'.Keys;
    forall j | j in m ensures m'[j] == m[j] {
      NodeDroppedKeeps(d, p, i, links, k, j);
    }
  }

  lemma NodeDroppedNodesOk(d: Disk, p: Params, i: nat, links: int, k: nat)
    requires CanDrop(d, p, i, k) && ShapedBlock(d, i)
    ensures NodesOk(NodeDropped(d, i, links, k), p)
  {
    var d' := NodeDropped(d, i, links, k);
    forall j | 0 <= j < |d'.inodes| && j != ROOT_DIR_INUM && Live(d', j) ensures NodeOk(d', p, j) {
      assert Live(d, j) && j != i;
      NodeDroppedKeeps(d, p, i, links, k, j);
    }
  }

  /** An owner and its block go together. */
  lemma OwnerDropped(d: Disk, d': Disk, i: nat)
    requires OwnersOk(d) && |d.blocks| == |d.blockTaken| && |d'.blocks| == |d.blocks|
    requires !HasBlock(d', i)
    requires HasBlock(d, i) ==>
               && 0 <= d.inodes[i].dataBlock < |d.blockTaken|
               && d'.blockTaken == d.blockTaken[d.inodes[i].dataBlock := FREE]
    requires !HasBlock(d, i) ==> d'.blockTaken == d.blockTaken
    requires forall j :: j != i ==> (HasBlock(d, j) <==> HasBlock(d', j))
    requires forall j :: j != i && HasBlock(d, j) && HasBlock(d', j) ==> d'.inodes[j].dataBlock == d.inodes[j].dataBlock
    ensures OwnersOk(d')
  {
    forall c | BlockTaken(d', c) ensures exists j :: Owns(d', j, c) {
      assert BlockTaken(d, c);
      var j :| Owns(d, j, c);
      assert Owns(d', j, c);
    }
    forall j | HasBlock(d', j) ensures BlockTaken(d', d'.inodes[j].dataBlock) {
      assert HasBlock(d, j);
    }
  }

  lemma NodeDroppedFsck(d: Disk, p: Params, i: nat, links: int, k: nat)
    requires CanDrop(d, p, i, k) && ShapedBlock(d, i)
    ensures Fsck(NodeDropped(d, i, links, k), p)
  {
    var d' := NodeDropped(d, i, links, k);
    NodeDroppedDir(d, p, i, links, k);
    EntryRemoved(Dir(d), k);
    NodeDroppedNodesOk(d, p, i, links, k);
    OwnerDropped(d, d', i);
    DropNamesLive(d, p, i, links, k);
    forall h | 0 <= h < |d'.files| && InUse(d', h) ensures HandleOk(d', p, d'.files[h]) {
      assert InUse(d, h);
    }
  }

  lemma DropNamesLive(d: Disk, p: Params, i: nat, links: int, k: nat)
    requires CanDrop(d, p, i, k) && ShapedBlock(d, i)
    ensures NamesLive(NodeDropped(d, i, links, k))
  {
    var d' := NodeDropped(d, i, links, k);
    NodeDroppedDir(d, p, i, links, k);
    assert NodeOk(d, p, i);
    CountMember(Dir(d), k, Naming(i));
    assert forall j :: 0 <= j < |Dir(d)| && j != k ==> !Naming(i)(Dir(d)[j]);
    NamesLiveKept(d, d', k, FREE_ENTRY);
  }

  /** Once its only name is cleared, nothing names the inode. */
  lemma LastNameGone(d: Disk, p: Params, i: nat, k: nat)
    requires CanDrop(d, p, i, k)
    ensures Dir(d)[k].name in DirMap(Dir(d)) && DirMap(Dir(d))[Dir(d)[k].name] == i
    ensures DirMap(Dir(d)[k := FREE_ENTRY]) == DirMap(Dir(d)) - {Dir(d)[k].name}
    ensures i !in DirMap(Dir(d)[k := FREE_ENTRY]).Values
  {
    assert NodeOk(d, p, i);
    LookupFound(Dir(d), k);
    EntryRemoved(Dir(d), k);
    NamingChanged(Dir(d), k, FREE_ENTRY, i);
    NamedInMap(Dir(d)[k := FREE_ENTRY], i);
  }

  lemma NodeDroppedAbs(d: Disk, p: Params, i: nat, links: int, k: nat)
    requires CanDrop(d, p, i, k) && ShapedBlock(d, i)
    ensures Abs(NodeDropped(d, i, links, k)) == Fs(DirMap(Dir(d)[k := FREE_ENTRY]), Nodes(d) - {i}, Handles(d))
  {
    NodeDroppedDir(d, p, i, links, k);
    NodeDroppedNodes(d, p, i, links, k);
  }

  /** A node goes with its last name. */
  lemma NodeDroppedRefines(d: Disk, p: Params, i: nat, links: int, k: nat)
    requires CanDrop(d, p, i, k)
    ensures ShapedBlock(d, i) && Fsck(NodeDropped(d, i, links, k), p)
    ensures Dir(d)[k].name in Abs(d).dir && Abs(NodeDropped(d, i, links, k)) == RemoveName(Abs(d), Dir(d)[k].name)
  {
    DropShape(d, p, i, k);
    NodeDroppedFsck(d, p, i, links, k);
    NodeDroppedAbs(d, p, i, links, k);
    LastNameGone(d, p, i, k);
  }
}

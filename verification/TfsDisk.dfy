/** The tables of TecnicoFS as one value, the consistency ("fsck") predicate on
    them, and the abstraction to TfsSpec. */
module TfsDisk {
  import opened Counting
  import opened TfsTypes
  import opened TfsSpec

  datatype Disk = Disk(
    inodes: seq<Inode>, inodeTaken: seq<AllocState>,
    blocks: seq<Block>, blockTaken: seq<AllocState>,
    files: seq<OpenFile>, fileTaken: seq<AllocState>)

  // ---- scans --------------------------------------------------------------

  /** The first free position of a bitmap at or after from, or -1. */
  function FirstFree(s: seq<AllocState>, from: nat := 0): (r: int)
    requires from <= |s|
    ensures -1 <= r < |s|
    ensures r >= 0 ==> r >= from && s[r] == FREE && forall j :: from <= j < r ==> s[j] == TAKEN
    ensures r == -1 ==> forall j :: from <= j < |s| ==> s[j] == TAKEN
    decreases |s| - from
  {
    if from == |s| then -1
    else
      match s[from]
      case FREE => from
      case TAKEN => FirstFree(s, from + 1)
  }

  predicate Matches(e: DirEntry, name: CString) {
    Used(e) && e.name == name
  }

  /** The first entry with this name, or -1. */
  function FindEntry(es: seq<DirEntry>, name: CString, from: nat := 0): (r: int)
    requires from <= |es|
    ensures -1 <= r < |es|
    ensures r >= 0 ==> r >= from && Matches(es[r], name) && forall j :: from <= j < r ==> !Matches(es[j], name)
    ensures r == -1 ==> forall j :: from <= j < |es| ==> !Matches(es[j], name)
    decreases |es| - from
  {
    if from == |es| then -1 else if Matches(es[from], name) then from else FindEntry(es, name, from + 1)
  }

  /** The first free slot of the directory, or -1. */
  function FirstSlot(es: seq<DirEntry>, from: nat := 0): (r: int)
    requires from <= |es|
    ensures -1 <= r < |es|
    ensures r >= 0 ==> r >= from && !Used(es[r]) && forall j :: from <= j < r ==> Used(es[j])
    ensures r == -1 ==> forall j :: from <= j < |es| ==> Used(es[j])
    decreases |es| - from
  {
    if from == |es| then -1 else if !Used(es[from]) then from else FirstSlot(es, from + 1)
  }

  /** The first entry, in use or free, whose name this is, or -1. */
  function FirstNamed(es: seq<DirEntry>, name: CString, from: nat := 0): (r: int)
    requires from <= |es|
    ensures -1 <= r < |es|
    ensures r >= 0 ==> r >= from && es[r].name == name && forall j :: from <= j < r ==> es[j].name != name
    ensures r == -1 ==> forall j :: from <= j < |es| ==> es[j].name != name
    decreases |es| - from
  {
    if from == |es| then -1 else if es[from].name == name then from else FirstNamed(es, name, from + 1)
  }

  /** Some entry other than the first free one has this name, in use or not. */
  ghost predicate Clashes(es: seq<DirEntry>, name: CString) {
    exists k :: 0 <= k < |es| && k != FirstSlot(es) && es[k].name == name
  }

  function LookupIn(es: seq<DirEntry>, name: CString): int {
    var k := FindEntry(es, name);
    if k == -1 then -1 else es[k].inumber
  }

  // ---- reading the tables --------------------------------------------------

  function DataAt(d: Disk, b: int): seq<byte> {
    if 0 <= b < |d.blocks| && d.blocks[b].Bytes? then d.blocks[b].data else []
  }

  /** The entries of the root directory. */
  function Dir(d: Disk): seq<DirEntry> {
    if |d.inodes| > 0 && 0 <= d.inodes[0].dataBlock < |d.blocks| && d.blocks[d.inodes[0].dataBlock].Entries?
    then d.blocks[d.inodes[0].dataBlock].entries else []
  }

  function WithDir(d: Disk, es: seq<DirEntry>): Disk
    requires |d.inodes| > 0 && 0 <= d.inodes[0].dataBlock < |d.blocks|
  {
    d.(blocks := d.blocks[d.inodes[0].dataBlock := Entries(es)])
  }

  predicate Live(d: Disk, i: int) {
    0 <= i < |d.inodes| && i < |d.inodeTaken| && d.inodeTaken[i] == TAKEN
  }

  predicate InUse(d: Disk, h: int) {
    0 <= h < |d.files| && h < |d.fileTaken| && d.fileTaken[h] == TAKEN
  }

  predicate BlockTaken(d: Disk, b: int) {
    0 <= b < |d.blocks| && b < |d.blockTaken| && d.blockTaken[b] == TAKEN
  }

  predicate HasBlock(d: Disk, i: int) {
    Live(d, i) && d.inodes[i].size > 0
  }

  predicate Owns(d: Disk, i: int, b: int) {
    HasBlock(d, i) && d.inodes[i].dataBlock == b
  }

  /** Entries that name a given inode. */
  function Naming(i: int): DirEntry -> bool {
    (e: DirEntry) => e.inumber == i
  }

  function Prefix(s: seq<byte>, n: nat): seq<byte> {
    if n <= |s| then s[..n] else s
  }

  function NodeOf(d: Disk, n: Inode): Node {
    if n.nodeType == T_SYMLINK then Link(StrAt(DataAt(d, n.dataBlock), 1))
    else File(if n.size == 0 then [] else Prefix(DataAt(d, n.dataBlock), n.size))
  }

  function Names(es: seq<DirEntry>): set<CString> {
    set k | 0 <= k < |es| && Used(es[k]) :: es[k].name
  }

  function DirMap(es: seq<DirEntry>): map<CString, int> {
    map n | n in Names(es) :: LookupIn(es, n)
  }

  function Nodes(d: Disk): map<int, Node> {
    map i | 0 <= i < |d.inodes| && i != ROOT_DIR_INUM && Live(d, i) :: NodeOf(d, d.inodes[i])
  }

  function Handles(d: Disk): map<int, OpenFile> {
    map h | 0 <= h < |d.files| && InUse(d, h) :: d.files[h]
  }

  /** What the users of the file system can observe of its tables. */
  function Abs(d: Disk): Fs {
    Fs(DirMap(Dir(d)), Nodes(d), Handles(d))
  }

  // ---- consistency ----------------------------------------------------------

  ghost predicate ShapeOk(d: Disk, p: Params) {
    && |d.inodes| == |d.inodeTaken| == p.maxInodes
    && |d.blocks| == |d.blockTaken| == p.maxBlocks
    && |d.files| == |d.fileTaken| == p.maxOpen
    && p.blockSize > 0
  }

  ghost predicate RootOk(d: Disk, p: Params) {
    && Live(d, ROOT_DIR_INUM)
    && d.inodes[0].nodeType == T_DIRECTORY
    && d.inodes[0].size == p.blockSize
    && 0 <= d.inodes[0].dataBlock < |d.blocks|
    && d.blocks[d.inodes[0].dataBlock].Entries?
    && |Dir(d)| == p.MaxDirEntries()
    && forall b :: 0 <= b < |d.blocks| && b != d.inodes[0].dataBlock ==>
        d.blocks[b].Bytes? && |d.blocks[b].data| == p.blockSize
  }

  /** A free slot has the empty name; a used one a legal name. */
  ghost predicate EntryOk(e: DirEntry) {
    if Used(e) then 1 <= |e.name| <= MAX_FILE_NAME - 1 else e.name == []
  }

  /** The root directory can be searched and filled; free entries may have any names. */
  ghost predicate RootFound(d: Disk, p: Params) {
    RootOk(d, p) && forall k :: 0 <= k < |Dir(d)| && Used(Dir(d)[k]) ==> EntryOk(Dir(d)[k])
  }

  ghost predicate Distinct(es: seq<DirEntry>) {
    forall j, k :: 0 <= j < |es| && 0 <= k < |es| && Used(es[j]) && Used(es[k]) && es[j].name == es[k].name ==> j == k
  }

  ghost predicate DirOk(es: seq<DirEntry>) {
    && (forall k :: 0 <= k < |es| ==> EntryOk(es[k]))
    && Distinct(es)
  }

  /** Entries name live inodes other than the root. */
  ghost predicate NamesLive(d: Disk) {
    forall k :: 0 <= k < |Dir(d)| && Used(Dir(d)[k]) ==>
        Dir(d)[k].inumber != ROOT_DIR_INUM && Live(d, Dir(d)[k].inumber)
  }

  /** A live inode is named; a file as often as its link count says, a link once. */
  ghost predicate NodeOk(d: Disk, p: Params, i: int)
    requires Live(d, i)
  {
    var n := d.inodes[i];
    && n.nodeType != T_DIRECTORY
    && n.size <= p.blockSize
    && n.hardLinks == Count(Dir(d), Naming(i))
    && n.hardLinks >= 1
    && (n.nodeType == T_SYMLINK ==> n.hardLinks == 1 && n.size == p.blockSize && 0 in DataAt(d, n.dataBlock))
  }

  ghost predicate NodesOk(d: Disk, p: Params) {
    forall i :: 0 <= i < |d.inodes| && i != ROOT_DIR_INUM && Live(d, i) ==> NodeOk(d, p, i)
  }

  /** A block is TAKEN exactly when one live inode with contents owns it. */
  ghost predicate OwnersOk(d: Disk) {
    && (forall i :: HasBlock(d, i) ==> BlockTaken(d, d.inodes[i].dataBlock))
    && (forall i, j :: HasBlock(d, i) && HasBlock(d, j) && d.inodes[i].dataBlock == d.inodes[j].dataBlock ==> i == j)
    && (forall b :: BlockTaken(d, b) ==> exists i :: Owns(d, i, b))
  }

  ghost predicate HandleOk(d: Disk, p: Params, f: OpenFile) {
    && f.inumber != ROOT_DIR_INUM
    && Live(d, f.inumber)
    && d.inodes[f.inumber].nodeType == T_FILE
    && f.offset <= p.blockSize
  }

  ghost predicate HandlesOk(d: Disk, p: Params) {
    forall h :: 0 <= h < |d.files| && InUse(d, h) ==> HandleOk(d, p, d.files[h])
  }

  ghost predicate Fsck(d: Disk, p: Params) {
    && ShapeOk(d, p)
    && RootOk(d, p)
    && DirOk(Dir(d))
    && NamesLive(d)
    && NodesOk(d, p)
    && OwnersOk(d)
    && HandlesOk(d, p)
  }
}

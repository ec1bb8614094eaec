/** TecnicoFS as its users see it: names mapped to node numbers, node numbers to
    file contents or link targets, and open handles to a node and an offset.
    Nothing here knows about tables, bitmaps, blocks or link counts. */
module TfsSpec {
  import opened TfsTypes

  datatype Node = File(bytes: seq<byte>) | Link(target: CString)

  datatype Fs = Fs(dir: map<CString, int>, nodes: map<int, Node>, handles: map<int, OpenFile>)

  const EMPTY := Fs(map[], map[], map[])

  /** The smallest number in from..n that is not in use, or -1. */
  function LeastUnused(used: set<int>, n: nat, from: nat := 0): (r: int)
    requires from <= n
    ensures -1 <= r < n
    ensures r >= 0 ==> r >= from && r !in used && forall j :: from <= j < r ==> j in used
    ensures r == -1 ==> forall j :: from <= j < n ==> j in used
    decreases n - from
  {
    if from == n then -1 else if from !in used then from else LeastUnused(used, n, from + 1)
  }

  function UsedIds(a: Fs): set<int> {
    {ROOT_DIR_INUM} + a.nodes.Keys
  }

  predicate UsesBlock(n: Node) {
    n.Link? || n.bytes != []
  }

  function BlockUsers(a: Fs): set<int> {
    set i | i in a.nodes && UsesBlock(a.nodes[i])
  }

  /** One block for the directory, one for each link, one for each non-empty file. */
  function BlocksUsed(a: Fs): nat {
    1 + |BlockUsers(a)|
  }

  predicate NoFreeBlock(a: Fs, p: Params) {
    BlocksUsed(a) >= p.maxBlocks
  }

  // ---- following symbolic links -------------------------------------------

  datatype Walk = At(id: int) | Broken

  predicate IsLink(a: Fs, w: Walk) {
    w.At? && w.id in a.nodes && a.nodes[w.id].Link?
  }

  function Follow(a: Fs, w: Walk): Walk {
    if !IsLink(a, w) then w
    else
      var t := a.nodes[w.id].target;
      if t in a.dir then At(a.dir[t]) else Broken
  }

  function Iterate(a: Fs, w: Walk, k: nat): Walk {
    if k == 0 then w else Follow(a, Iterate(a, w, k - 1))
  }

  /** The walk from this node reaches something that is not a link. */
  ghost predicate WalkStops(a: Fs, id: int) {
    exists k: nat :: !IsLink(a, Iterate(a, At(id), k))
  }

  /** Where the walk stops. Taking as many steps as there are names is enough
      whenever it stops at all (see SymlinkWalk). */
  function Resolve(a: Fs, id: int): Walk {
    Iterate(a, At(id), |a.dir|)
  }

  /** Opening this path does not send the implementation round a cycle of links. */
  ghost predicate PathStops(a: Fs, name: CString) {
    ValidPathname(name) && name[1..] in a.dir ==> WalkStops(a, a.dir[name[1..]])
  }

  // ---- the calls -----------------------------------------------------------

  /** A new result state together with the value returned to the caller. */
  type Outcome = (Fs, int)

  /** The name can be entered in the directory. */
  predicate CanAdd(a: Fs, p: Params, name: CString) {
    1 <= |name| <= MAX_FILE_NAME - 1 && name !in a.dir && |a.dir| < p.MaxDirEntries()
  }

  function AddHandle(a: Fs, p: Params, id: int, offset: nat): Outcome {
    var h := LeastUnused(a.handles.Keys, p.maxOpen);
    if h == -1 then (a, -1) else (a.(handles := a.handles[h := OpenFile(id, offset)]), h)
  }

  function Truncate(a: Fs, id: int): Fs {
    a.(nodes := a.nodes[id := File([])])
  }

  function FileSize(a: Fs, id: int): nat {
    if id in a.nodes && a.nodes[id].File? then |a.nodes[id].bytes| else 0
  }

  function OpenNode(a: Fs, p: Params, id: int, mode: Mode): Outcome {
    var a1 := if mode.trunc then Truncate(a, id) else a;
    AddHandle(a1, p, id, if mode.append then FileSize(a1, id) else 0)
  }

  function CreateFile(a: Fs, p: Params, name: CString): Outcome {
    var id := LeastUnused(UsedIds(a), p.maxInodes);
    if id == -1 || !CanAdd(a, p, name) then (a, -1)
    else (a.(dir := a.dir[name := id], nodes := a.nodes[id := File([])]), id)
  }

  function Open(a: Fs, p: Params, name: CString, mode: Mode): Outcome {
    if !ValidPathname(name) then (a, -1)
    else if name[1..] in a.dir then
      match Resolve(a, a.dir[name[1..]])
      case Broken => (a, -1)
      case At(id) => OpenNode(a, p, id, mode)
    else if mode.creat then
      var (a1, id) := CreateFile(a, p, name[1..]);
      if id == -1 then (a, -1) else AddHandle(a1, p, id, 0)
    else (a, -1)
  }

  function Close(a: Fs, h: int): Outcome {
    if h !in a.handles then (a, -1) else (a.(handles := a.handles - {h}), 0)
  }

  function SymLink(a: Fs, p: Params, target: CString, linkName: CString): Outcome
    requires |target| >= 1 && |linkName| >= 1
  {
    var id := LeastUnused(UsedIds(a), p.maxInodes);
    if id == -1 || NoFreeBlock(a, p) || !CanAdd(a, p, linkName[1..]) then (a, -1)
    else (a.(dir := a.dir[linkName[1..] := id], nodes := a.nodes[id := Link(target[1..])]), 0)
  }

  function HardLink(a: Fs, p: Params, target: CString, linkName: CString): Outcome
    requires |linkName| >= 1
  {
    if !ValidPathname(target) || target[1..] !in a.dir then (a, -1)
    else
      var id := a.dir[target[1..]];
      if IsLink(a, At(id)) || !CanAdd(a, p, linkName[1..]) then (a, -1)
      else (a.(dir := a.dir[linkName[1..] := id]), 0)
  }

  predicate IsOpen(a: Fs, id: int) {
    exists h :: h in a.handles && a.handles[h].inumber == id
  }

  /** Removing a name; the node goes with its last name. */
  function RemoveName(a: Fs, name: CString): Fs
    requires name in a.dir
  {
    var dir := a.dir - {name};
    a.(dir := dir, nodes := if a.dir[name] in dir.Values then a.nodes else a.nodes - {a.dir[name]})
  }

  function Unlink(a: Fs, target: CString): Outcome {
    if !ValidPathname(target) || target[1..] !in a.dir then (a, -1)
    else
      var id := a.dir[target[1..]];
      if !IsLink(a, At(id)) && IsOpen(a, id) then (a, -1)
      else (RemoveName(a, target[1..]), 0)
  }

  /** The contents of a file after bytes are written at an offset inside it. */
  function Overwrite(old_: seq<byte>, off: nat, bytes: seq<byte>): (r: seq<byte>)
    requires off <= |old_|
    ensures |r| == if off + |bytes| > |old_| then off + |bytes| else |old_|
  {
    old_[..off] + bytes + (if off + |bytes| < |old_| then old_[off + |bytes|..] else [])
  }

  /** The handle points inside its file, so nothing it reads was never written. */
  predicate OffsetInFile(a: Fs, h: int) {
    h in a.handles ==> a.handles[h].offset <= FileSize(a, a.handles[h].inumber)
  }

  predicate OffsetsInFiles(a: Fs) {
    forall h :: h in a.handles ==> OffsetInFile(a, h)
  }

  /** How far the handle's offset lies beyond the end of its file. */
  function Gap(a: Fs, h: int): nat {
    if h !in a.handles then 0
    else
      var OpenFile(id, off) := a.handles[h];
      if off > FileSize(a, id) then off - FileSize(a, id) else 0
  }

  predicate HandleOnFile(a: Fs, p: Params, h: int) {
    h in a.handles ==>
      && a.handles[h].inumber in a.nodes
      && a.nodes[a.handles[h].inumber].File?
      && a.handles[h].offset <= p.blockSize
  }

  /** Writing at the handle's offset. The hole is what comes to lie between the
      old end of the file and that offset; it is empty unless OffsetInFile fails. */
  function Write(a: Fs, p: Params, h: int, buffer: seq<byte>, hole: seq<byte>): Outcome
    requires HandleOnFile(a, p, h)
    requires |hole| == Gap(a, h)
  {
    if h !in a.handles then (a, -1)
    else
      var OpenFile(id, off) := a.handles[h];
      var n := Min(|buffer|, p.blockSize - off);
      if n == 0 then (a, 0)
      else if FileSize(a, id) == 0 && NoFreeBlock(a, p) then (a, -1)
      else (a.(nodes := a.nodes[id := File(Overwrite(a.nodes[id].bytes + hole, off, buffer[..n]))],
               handles := a.handles[h := OpenFile(id, off + n)]), n)
  }

  /** The handle moves on by n bytes. */
  function Advance(a: Fs, h: int, n: nat): Fs
    requires h in a.handles
  {
    a.(handles := a.handles[h := OpenFile(a.handles[h].inumber, a.handles[h].offset + n)])
  }

  function Read(a: Fs, h: int, len: nat): (Outcome, seq<byte>)
    requires OffsetInFile(a, h)
    requires h in a.handles ==> a.handles[h].inumber in a.nodes && a.nodes[a.handles[h].inumber].File?
  {
    if h !in a.handles then ((a, -1), [])
    else
      var OpenFile(id, off) := a.handles[h];
      var n := Min(len, FileSize(a, id) - off);
      ((Advance(a, h, n), n), a.nodes[id].bytes[off..off + n])
  }

  /** A file of the outside world: it may not be readable. */
  datatype Source = Unreadable | Readable(bytes: seq<byte>)

  const IMPORT_MODE := Mode(true, true, false)

  /** Importing in one piece: open (and so create or empty) the destination, give it
      as much of the source as fits a block, close it. */
  function Import(a: Fs, p: Params, source: Source, dest: CString): Outcome {
    if source.Unreadable? then (a, -1)
    else
      var (a1, h) := Open(a, p, dest, IMPORT_MODE);
      if h == -1 then (a1, -1)
      else if source.bytes != [] && NoFreeBlock(a1, p) then (Close(a1, h).0, -1)
      else (Close(Filled(a1, h, source.bytes[..Min(|source.bytes|, p.blockSize)]), h).0, 0)
  }

  /** The file of a handle with this contents, and the handle at their end. */
  function Filled(a: Fs, h: int, bytes: seq<byte>): Fs {
    if h !in a.handles then a
    else
      var id := a.handles[h].inumber;
      a.(nodes := a.nodes[id := File(bytes)], handles := a.handles[h := OpenFile(id, |bytes|)])
  }
}

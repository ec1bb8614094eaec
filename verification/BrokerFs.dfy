/** The calls that the broker makes into p2/fs, each one step under g_library_mutex:
    names lead to inodes, inodes to bytes, open handles to an inode and an offset. */
module BrokerFs {
  import opened TfsTypes
  import TfsSpec

  type Name = CString

  datatype Config = Config(maxOpen: nat, blockSize: nat, msgLength: nat)

  datatype Fs = Fs(dir: map<Name, nat>, files: map<int, seq<byte>>, handles: map<int, OpenFile>)

  const FAILED := -1

  function Content(fs: Fs, i: int): seq<byte> {
    if i in fs.files then fs.files[i] else []
  }

  function AddHandle(c: Config, fs: Fs, i: int, offset: nat): (Fs, int) {
    var h := TfsSpec.LeastUnused(fs.handles.Keys, c.maxOpen);
    if h == -1 then (fs, FAILED) else (fs.(handles := fs.handles[h := OpenFile(i, offset)]), h)
  }

  /** tfs_open with mode 0 or TFS_O_APPEND (of a box's path, a slash and its name). */
  function Open(c: Config, fs: Fs, name: Name, append: bool): (Fs, int) {
    if name !in fs.dir then (fs, FAILED)
    else AddHandle(c, fs, fs.dir[name], if append then |Content(fs, fs.dir[name])| else 0)
  }

  /** tfs_open with TFS_O_CREAT and TFS_O_TRUNC, before the handle is taken. The inode
      table and the directory may be full, and the name may be unusable; newId is the
      inode that is taken otherwise. */
  function MakeEmpty(fs: Fs, name: Name, newId: nat, room: bool): (Fs, int) {
    if name in fs.dir then (fs.(files := fs.files[fs.dir[name] := []]), fs.dir[name])
    else if !room then (fs, FAILED)
    else (fs.(dir := fs.dir[name := newId], files := fs.files[newId := []]), newId)
  }

  function Close(fs: Fs, h: int): Fs {
    fs.(handles := fs.handles - {h})
  }

  datatype Amount = NoHandle | Underflow | Some(n: nat)

  /** tfs_read: Underflow is the size_t subtraction of line 264 wrapping around. */
  function ToRead(c: Config, fs: Fs, h: int): Amount {
    if h !in fs.handles then NoHandle
    else
      var OpenFile(i, off) := fs.handles[h];
      if off > |Content(fs, i)| then Underflow
      else Some(if |Content(fs, i)| - off > c.msgLength then c.msgLength else |Content(fs, i)| - off)
  }

  function Advance(fs: Fs, h: int, n: nat): Fs
    requires h in fs.handles
  {
    fs.(handles := fs.handles[h := OpenFile(fs.handles[h].inumber, fs.handles[h].offset + n)])
  }

  function ReadData(fs: Fs, h: int, n: nat): seq<byte>
    requires h in fs.handles && fs.handles[h].offset + n <= |Content(fs, fs.handles[h].inumber)|
  {
    Content(fs, fs.handles[h].inumber)[fs.handles[h].offset..fs.handles[h].offset + n]
  }

  /** tfs_write of a whole message: Underflow is the subtraction of line 207. */
  function ToWrite(c: Config, fs: Fs, h: int): Amount {
    if h !in fs.handles then NoHandle
    else
      var OpenFile(i, off) := fs.handles[h];
      if off > c.blockSize then Underflow
      else Some(if off + c.msgLength > c.blockSize then c.blockSize - off else c.msgLength)
  }

  /** Bytes written over a file at an offset; in a gap would be what the block held. */
  function Overwrite(old_: seq<byte>, off: nat, bytes: seq<byte>): seq<byte> {
    TfsSpec.Overwrite(if off <= |old_| then old_ else old_ + seq(off - |old_|, _ => 0), off, bytes)
  }

  function WriteData(fs: Fs, h: int, bytes: seq<byte>): Fs
    requires h in fs.handles
  {
    var OpenFile(i, off) := fs.handles[h];
    Advance(fs.(files := fs.files[i := Overwrite(Content(fs, i), off, bytes)]), h, |bytes|)
  }

  /** tfs_unlink: removes the name and the inode, open or not. */
  function Unlink(fs: Fs, name: Name): Fs {
    if name !in fs.dir then fs
    else fs.(dir := fs.dir - {name}, files := fs.files - {fs.dir[name]})
  }
}

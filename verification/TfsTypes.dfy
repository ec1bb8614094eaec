/** The values that TecnicoFS stores: inodes, directory entries, data blocks and
    open-file entries, with the constants of config.h. */
module TfsTypes {

  newtype byte = x: int | 0 <= x < 256

  /** A C string without its terminator. */
  type CString = s: seq<byte> | forall i :: 0 <= i < |s| ==> s[i] != 0

  const SLASH: byte := 47
  const ROOT_DIR_INUM := 0
  const MAX_FILE_NAME := 40
  /** sizeof(dir_entry_t): a 40 byte name and a 4 byte inumber. */
  const DIR_ENTRY_SIZE := 44

  datatype Params = Params(maxInodes: nat, maxBlocks: nat, maxOpen: nat, blockSize: nat) {
    function MaxDirEntries(): nat {
      blockSize / DIR_ENTRY_SIZE
    }
  }

  datatype Mode = Mode(creat: bool, trunc: bool, append: bool)
  datatype AllocState = FREE | TAKEN
  datatype InodeType = T_FILE | T_DIRECTORY | T_SYMLINK
  datatype Inode = Inode(nodeType: InodeType, size: nat, dataBlock: int, hardLinks: int)

  /** An entry with inumber -1 is a free slot. */
  datatype DirEntry = DirEntry(name: CString, inumber: int)

  /** A data block, read either as raw bytes or as the entries of the directory. */
  datatype Block = Bytes(data: seq<byte>) | Entries(entries: seq<DirEntry>)

  datatype OpenFile = OpenFile(inumber: int, offset: nat)

  function Min(x: int, y: int): int {
    if x < y then x else y
  }

  predicate ValidPathname(name: CString) {
    |name| > 1 && name[0] == SLASH
  }

  predicate Used(e: DirEntry) {
    e.inumber != -1
  }

  /** The C string that starts at position i of a block (up to the first NUL). */
  function StrAt(data: seq<byte>, i: nat): (r: CString)
    decreases |data| - i
  {
    if i >= |data| || data[i] == 0 then [] else [data[i]] + StrAt(data, i + 1)
  }

  /** The name in entry k of a block that is read as directory entries: the 40 bytes before
      its inumber, up to the first NUL. */
  function NameAt(data: seq<byte>, k: nat): CString
    requires (k + 1) * DIR_ENTRY_SIZE <= |data|
  {
    StrAt(data[k * DIR_ENTRY_SIZE..k * DIR_ENTRY_SIZE + MAX_FILE_NAME], 0)
  }

  /** Overwriting data from position off with bytes. */
  function Splice(data: seq<byte>, off: nat, bytes: seq<byte>): (r: seq<byte>)
    requires off + |bytes| <= |data|
    ensures |r| == |data|
  {
    data[..off] + bytes + data[off + |bytes|..]
  }

  /** Reading back a string that strcpy stored, from any position inside it. */
  lemma {:induction false} StrAtStored(s: CString, rest: seq<byte>, i: nat)
    requires i <= |s|
    ensures StrAt(s + [0] + rest, i) == s[i..]
    decreases |s| - i
  {
    var data := s + [0] + rest;
    if i < |s| {
      assert data[i] == s[i];
      StrAtStored(s, rest, i + 1);
      assert s[i..] == [s[i]] + s[i + 1..];
    } else {
      assert data[i] == 0;
    }
  }
}

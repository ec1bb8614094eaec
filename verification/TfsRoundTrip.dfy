/** Contents survive: any chunked writes read back in any chunking through every name
    of a file, and removing a name leaves the other names alone. */
module TfsRoundTrip {
  import opened TfsTypes
  import opened TfsSpec
  import opened SymlinkWalk
  import opened TfsLaws

  // ---- chunked reading and writing ---------------------------------------------------

  function Concat(chunks: seq<seq<byte>>): seq<byte> {
    if chunks == [] then [] else chunks[0] + Concat(chunks[1..])
  }

  function WriteAll(a: Fs, p: Params, h: int, chunks: seq<seq<byte>>): Fs
    requires Sound(a, p)
    ensures Sound(WriteAll(a, p, h, chunks), p)
    decreases |chunks|
  {
    if chunks == [] then a
    else WriteSound(a, p, h, chunks[0], []); WriteAll(Write(a, p, h, chunks[0], []).0, p, h, chunks[1..])
  }

  function ReadAll(a: Fs, p: Params, h: int, lens: seq<nat>): seq<byte>
    requires Sound(a, p)
    decreases |lens|
  {
    if lens == [] then []
    else
      ReadSound(a, p, h, lens[0]);
      var ((a1, n), data) := Read(a, h, lens[0]);
      data + ReadAll(a1, p, h, lens[1..])
  }

  function Total(lens: seq<nat>): nat {
    if lens == [] then 0 else lens[0] + Total(lens[1..])
  }

  predicate HasRoom(a: Fs, p: Params, id: int) {
    FileSize(a, id) > 0 || !NoFreeBlock(a, p)
  }

  lemma {:induction false} OverwriteTwice(s: seq<byte>, off: nat, x: seq<byte>, y: seq<byte>)
    requires off <= |s|
    ensures Overwrite(Overwrite(s, off, x), off + |x|, y) == Overwrite(s, off, x + y)
  {
    var t := Overwrite(s, off, x);
    assert t[..off + |x|] == s[..off] + x;
  }

  /** What one write does to the file and the handle. */
  lemma WriteOnce(a: Fs, p: Params, h: int, chunk: seq<byte>)
    requires Sound(a, p) && h in a.handles && HasRoom(a, p, a.handles[h].inumber)
    ensures HandleOnFile(a, p, h) && Gap(a, h) == 0
    ensures var OpenFile(id, off) := a.handles[h];
            var a1 := Write(a, p, h, chunk, []).0;
            var n := Min(|chunk|, p.blockSize - off);
            && a1.handles == a.handles[h := OpenFile(id, off + n)]
            && a1.dir == a.dir
            && a1.nodes == a.nodes[id := File(Overwrite(a.nodes[id].bytes, off, chunk[..n]))]
            && HasRoom(a1, p, id)
  {
    var OpenFile(id, off) := a.handles[h];
    var n := Min(|chunk|, p.blockSize - off);
    SoundHandle(a, p, h);
    assert a.nodes[id].bytes + [] == a.nodes[id].bytes;
    if n == 0 {
      assert Overwrite(a.nodes[id].bytes, off, chunk[..0]) == a.nodes[id].bytes;
      assert a.nodes[id := a.nodes[id]] == a.nodes;
    }
  }

  /** The bytes that all these chunks leave in a file of this block size. */
  function Kept(chunks: seq<seq<byte>>, room: nat): seq<byte> {
    Concat(chunks)[..Min(|Concat(chunks)|, room)]
  }

  lemma KeptStep(chunks: seq<seq<byte>>, room: nat)
    requires chunks != []
    ensures var n := Min(|chunks[0]|, room);
            Kept(chunks, room) == chunks[0][..n] + Kept(chunks[1..], room - n)
  {
  }

  /** The file of handle h reads s before and s' after, and nothing else has changed but
      where the handle is. */
  ghost predicate Rewrites(a: Fs, a': Fs, id: int, content: seq<byte>) {
    a'.dir == a.dir && a'.nodes == a.nodes[id := File(content)]
  }

  lemma RewritesTwice(a: Fs, a1: Fs, a2: Fs, id: int, content: seq<byte>, content2: seq<byte>)
    requires Rewrites(a, a1, id, content) && Rewrites(a1, a2, id, content2)
    ensures Rewrites(a, a2, id, content2)
  {
  }

  lemma NothingKept(s: seq<byte>, off: nat, room: nat)
    requires off <= |s|
    ensures Overwrite(s, off, Kept([], room)) == s
  {
  }

  /** The chunks written one after the other into a file that may grow to end. */
  function Written(s: seq<byte>, off: nat, chunks: seq<seq<byte>>, end: nat): seq<byte>
    requires off <= |s| <= end
    decreases |chunks|
  {
    if chunks == [] then s
    else
      var n := Min(|chunks[0]|, end - off);
      Written(Overwrite(s, off, chunks[0][..n]), off + n, chunks[1..], end)
  }

  lemma {:induction false} WrittenKept(s: seq<byte>, off: nat, chunks: seq<seq<byte>>, end: nat)
    requires off <= |s| <= end
    ensures Written(s, off, chunks, end) == Overwrite(s, off, Kept(chunks, end - off))
    decreases |chunks|
  {
    if chunks == [] {
      NothingKept(s, off, end - off);
    } else {
      var n := Min(|chunks[0]|, end - off);
      WrittenKept(Overwrite(s, off, chunks[0][..n]), off + n, chunks[1..], end);
      OverwriteTwice(s, off, chunks[0][..n], Kept(chunks[1..], end - off - n));
      KeptStep(chunks, end - off);
    }
  }

  /** What the first chunk leaves for the others. */
  lemma FirstChunk(a: Fs, p: Params, h: int, chunks: seq<seq<byte>>)
    requires Sound(a, p) && h in a.handles && HasRoom(a, p, a.handles[h].inumber) && chunks != []
    ensures HandleOnFile(a, p, h) && Gap(a, h) == 0
    ensures var OpenFile(id, off) := a.handles[h];
            var a1 := Write(a, p, h, chunks[0], []).0;
            var n := Min(|chunks[0]|, p.blockSize - off);
            && off <= |a.nodes[id].bytes| <= p.blockSize
            && Sound(a1, p) && h in a1.handles && a1.handles[h] == OpenFile(id, off + n) && HasRoom(a1, p, id)
            && Rewrites(a, a1, id, Overwrite(a.nodes[id].bytes, off, chunks[0][..n]))
            && WriteAll(a, p, h, chunks) == WriteAll(a1, p, h, chunks[1..])
  {
    SoundHandle(a, p, h);
    WriteOnce(a, p, h, chunks[0]);
    WriteSound(a, p, h, chunks[0], []);
    hide Overwrite, Write, HasRoom;
  }

  lemma {:induction false} WriteAllWrites(a: Fs, p: Params, h: int, chunks: seq<seq<byte>>)
    requires Sound(a, p) && h in a.handles && HasRoom(a, p, a.handles[h].inumber)
    ensures var OpenFile(id, off) := a.handles[h];
            && id in a.nodes && a.nodes[id].File? && off <= |a.nodes[id].bytes| <= p.blockSize
            && Rewrites(a, WriteAll(a, p, h, chunks), id, Written(a.nodes[id].bytes, off, chunks, p.blockSize))
    decreases |chunks|
  {
    SoundHandle(a, p, h);
    var OpenFile(id, off) := a.handles[h];
    if chunks == [] {
      assert a.nodes[id := a.nodes[id]] == a.nodes;
    } else {
      FirstChunk(a, p, h, chunks);
      var n := Min(|chunks[0]|, p.blockSize - off);
      var s1 := Overwrite(a.nodes[id].bytes, off, chunks[0][..n]);
      var a1 := Write(a, p, h, chunks[0], []).0;
      assert a1.nodes[id] == File(s1);
      var s2 := Written(s1, off + n, chunks[1..], p.blockSize);
      assert Written(a.nodes[id].bytes, off, chunks, p.blockSize) == s2;
      hide Sound, Overwrite, Write, HasRoom, WriteAll, Rewrites, Written;
      WriteAllWrites(a1, p, h, chunks[1..]);
      RewritesTwice(a, a1, WriteAll(a1, p, h, chunks[1..]), id, s1, s2);
    }
  }

  /** Writing in chunks is writing their concatenation, cut where the block ends. */
  lemma ChunkedWrite(a: Fs, p: Params, h: int, chunks: seq<seq<byte>>)
    requires Sound(a, p) && h in a.handles && HasRoom(a, p, a.handles[h].inumber)
    ensures var OpenFile(id, off) := a.handles[h];
            && id in a.nodes && a.nodes[id].File? && off <= |a.nodes[id].bytes| <= p.blockSize
            && Rewrites(a, WriteAll(a, p, h, chunks), id,
                Overwrite(a.nodes[id].bytes, off, Kept(chunks, p.blockSize - off)))
  {
    WriteAllWrites(a, p, h, chunks);
    var OpenFile(id, off) := a.handles[h];
    WrittenKept(a.nodes[id].bytes, off, chunks, p.blockSize);
  }

  lemma Adjacent(s: seq<byte>, i: nat, j: nat, k: nat)
    requires i <= j <= k <= |s|
    ensures s[i..j] + s[j..k] == s[i..k]
  {
  }

  /** Reading in chunks returns the file from the offset on, cut at the total asked for. */
  lemma {:induction false} ChunkedRead(a: Fs, p: Params, h: int, lens: seq<nat>)
    requires Sound(a, p) && h in a.handles
    ensures var OpenFile(id, off) := a.handles[h];
            && id in a.nodes && a.nodes[id].File? && off <= |a.nodes[id].bytes|
            && ReadAll(a, p, h, lens) == a.nodes[id].bytes[off..off + Min(Total(lens), |a.nodes[id].bytes| - off)]
    decreases |lens|
  {
    var OpenFile(id, off) := a.handles[h];
    SoundHandle(a, p, h);
    if lens != [] {
      ReadSound(a, p, h, lens[0]);
      var ((a1, n), data) := Read(a, h, lens[0]);
      var s := a.nodes[id].bytes;
      assert a1.handles[h] == OpenFile(id, off + n) && a1.nodes == a.nodes && data == s[off..off + n];
      hide Sound, Read;
      ChunkedRead(a1, p, h, lens[1..]);
      Adjacent(s, off, off + n, off + Min(Total(lens), |s| - off));
    }
  }

  // ---- names of the same file -----------------------------------------------------------

  /** Opening this path would open this file. */
  ghost predicate Opens(a: Fs, name: CString, id: int) {
    ValidPathname(name) && name[1..] in a.dir && WalkStops(a, a.dir[name[1..]])
        && Resolve(a, a.dir[name[1..]]) == At(id)
  }

  /** Walks depend only on the names and on where the links point. */
  lemma {:induction false} SameLinksSameWalk(a: Fs, a': Fs, w: Walk, k: nat)
    requires a'.dir == a.dir && a'.nodes.Keys == a.nodes.Keys
    requires forall i :: i in a.nodes && (a.nodes[i].Link? || a'.nodes[i].Link?) ==> a'.nodes[i] == a.nodes[i]
    ensures Iterate(a', w, k) == Iterate(a, w, k)
  {
    if k > 0 { SameLinksSameWalk(a, a', w, k - 1); }
  }

  lemma StillOpens(a: Fs, a': Fs, name: CString, id: int)
    requires Opens(a, name, id)
    requires a'.dir == a.dir && a'.nodes.Keys == a.nodes.Keys
    requires forall i :: i in a.nodes && (a.nodes[i].Link? || a'.nodes[i].Link?) ==> a'.nodes[i] == a.nodes[i]
    ensures Opens(a', name, id)
  {
    var start := a.dir[name[1..]];
    var k: nat :| !IsLink(a, Iterate(a, At(start), k));
    SameLinksSameWalk(a, a', At(start), k);
    assert !IsLink(a', Iterate(a', At(start), k));
    SameLinksSameWalk(a, a', At(start), |a.dir|);
  }

  /** Opening a file to rewrite it from the start. */
  lemma RewriteOpened(a: Fs, p: Params, name: CString, id: int)
    requires Sound(a, p) && Opens(a, name, id) && !Strands(a, name, REWRITE)
    ensures var (a1, h) := Open(a, p, name, REWRITE);
            && Sound(a1, p) && id in a.nodes && a.nodes[id].File?
            && (h != -1 ==> h in a1.handles && a1.handles[h] == OpenFile(id, 0)
                            && a1.nodes == a.nodes[id := File([])] && a1.dir == a.dir)
  {
    OpenSound(a, p, name, REWRITE);
    ResolveFile(a, p, name);
  }

  const REWRITE := Mode(false, true, false)
  const READ_ONLY := Mode(false, false, false)

  /** Reading a file from the start through any of its names. */
  lemma ReadThrough(a: Fs, p: Params, name: CString, id: int, lens: seq<nat>)
    requires Sound(a, p) && Opens(a, name, id)
    ensures var (a1, h) := Open(a, p, name, READ_ONLY);
            && Sound(a1, p) && id in a.nodes && a.nodes[id].File?
            && (h != -1 ==> ReadAll(a1, p, h, lens) == a.nodes[id].bytes[..Min(Total(lens), |a.nodes[id].bytes|)])
  {
    OpenSound(a, p, name, READ_ONLY);
    ResolveFile(a, p, name);
    var (a1, h) := Open(a, p, name, READ_ONLY);
    if h != -1 { ChunkedRead(a1, p, h, lens); }
  }

  lemma KeptAlone(chunks: seq<seq<byte>>, room: nat)
    ensures Overwrite([], 0, Kept(chunks, room)) == Kept(chunks, room)
  {
  }

  /** Round trip: what is written in any chunks through one name is read back in any
      chunks through every name of the file, hard link or symbolic link. */
  lemma RoundTrip(a: Fs, p: Params, name1: CString, name2: CString, id: int, chunks: seq<seq<byte>>, lens: seq<nat>)
    requires Sound(a, p) && Opens(a, name1, id) && Opens(a, name2, id) && !Strands(a, name1, REWRITE)
    requires var (a1, h1) := Open(a, p, name1, REWRITE); h1 != -1 && HasRoom(a1, p, id)
    ensures var (a1, h1) := Open(a, p, name1, REWRITE);
            && Sound(a1, p)
            && var a2 := WriteAll(a1, p, h1, chunks);
            var (a3, h2) := Open(a2, p, name2, READ_ONLY);
            && Sound(a3, p)
            && (h2 != -1 ==>
                 var kept := Kept(chunks, p.blockSize);
                 ReadAll(a3, p, h2, lens) == kept[..Min(Total(lens), |kept|)])
  {
    hide Sound, Open, Kept, Overwrite, Strands, HasRoom;
    RewriteOpened(a, p, name1, id);
    var (a1, h1) := Open(a, p, name1, REWRITE);
    ChunkedWrite(a1, p, h1, chunks);
    KeptAlone(chunks, p.blockSize);
    var a2 := WriteAll(a1, p, h1, chunks);
    StillOpens(a, a2, name2, id);
    ReadThrough(a2, p, name2, id, lens);
  }

  /** A new hard link opens the file of the old name. */
  lemma HardLinkOpens(a: Fs, p: Params, target: CString, linkName: CString)
    requires Sound(a, p) && ValidPathname(linkName) && HardLink(a, p, target, linkName).1 == 0
    ensures var a' := HardLink(a, p, target, linkName).0;
            Opens(a', target, a.dir[target[1..]]) && Opens(a', linkName, a.dir[target[1..]])
  {
    var a' := HardLink(a, p, target, linkName).0;
    var id := a.dir[target[1..]];
    assert !IsLink(a', At(id));
    assert Iterate(a', At(id), 0) == At(id);
    assert !IsLink(a', Iterate(a', At(id), 0));
    WalkStays(a', At(id), 0, |a'.dir|);
  }

  /** One step from a new link is where its target starts. */
  lemma NewLinkFollows(a: Fs, p: Params, target: CString, linkName: CString)
    requires Sound(a, p) && |target| >= 1 && |linkName| >= 1 && SymLink(a, p, target, linkName).1 == 0
    requires target[1..] in a.dir
    ensures var a' := SymLink(a, p, target, linkName).0;
            && linkName[1..] in a'.dir && target[1..] in a'.dir && a'.dir[target[1..]] == a.dir[target[1..]]
            && a'.dir[linkName[1..]] in a'.nodes
            && Iterate(a', At(a'.dir[linkName[1..]]), 1) == At(a.dir[target[1..]])
  {
    var a' := SymLink(a, p, target, linkName).0;
    var link := a'.dir[linkName[1..]];
    assert IsLink(a', At(link)) && Follow(a', At(link)) == At(a.dir[target[1..]]);
    assert Iterate(a', At(link), 0) == At(link);
  }

  /** Where the target's walk stopped it stops after the link is made, and so does the link's
      own walk, one step later. */
  lemma SymLinkStops(a: Fs, p: Params, target: CString, linkName: CString, k: nat)
    requires Sound(a, p) && |target| >= 1 && ValidPathname(linkName) && SymLink(a, p, target, linkName).1 == 0
    requires ValidPathname(target) && target[1..] in a.dir && !IsLink(a, Iterate(a, At(a.dir[target[1..]]), k))
    requires a.dir[target[1..]] in a.nodes && Iterate(a, At(a.dir[target[1..]]), k) != Broken
    ensures var a' := SymLink(a, p, target, linkName).0;
            var end := Iterate(a, At(a.dir[target[1..]]), k);
            && target[1..] in a'.dir && a'.dir[target[1..]] == a.dir[target[1..]]
            && Iterate(a', At(a'.dir[target[1..]]), k) == end && !IsLink(a', end)
            && linkName[1..] in a'.dir && Iterate(a', At(a'.dir[linkName[1..]]), k + 1) == end
  {
    NewLinkFollows(a, p, target, linkName);
    var a' := SymLink(a, p, target, linkName).0;
    var start := a.dir[target[1..]];
    var link := a'.dir[linkName[1..]];
    LinkLeavesWalk(a, p, target, linkName, start, k);
    hide Sound, SymLink;
    IterateAdd(a', At(link), 1, k);
    assert Iterate(a', At(link), 1) == At(start) by { assert Iterate(a', At(link), 0) == At(link); }
  }

  /** A new symbolic link opens what its target opens. */
  lemma SymLinkOpens(a: Fs, p: Params, target: CString, linkName: CString, id: int)
    requires Sound(a, p) && |target| >= 1 && ValidPathname(linkName) && SymLink(a, p, target, linkName).1 == 0
    requires Opens(a, target, id)
    ensures Opens(SymLink(a, p, target, linkName).0, target, id)
    ensures Opens(SymLink(a, p, target, linkName).0, linkName, id)
  {
    SymLinkSound(a, p, target, linkName);
    var a' := SymLink(a, p, target, linkName).0;
    assert Consistent(a) && Consistent(a');
    hide Sound, Consistent, SymLink;
    var start := a.dir[target[1..]];
    var k: nat :| !IsLink(a, Iterate(a, At(start), k));
    NamesInNodes(a, target[1..]);
    StoppedAtResolve(a, start, k);
    SymLinkStops(a, p, target, linkName, k);
    hide Iterate, Resolve, IsLink;
    NamesInNodes(a', target[1..]);
    NamesInNodes(a', linkName[1..]);
    StoppedAtResolve(a', start, k);
    StoppedAtResolve(a', a'.dir[linkName[1..]], k + 1);
  }

  lemma NamesInNodes(a: Fs, name: CString)
    requires Consistent(a) && name in a.dir
    ensures a.dir[name] in a.nodes
  {
  }

  /** A walk that ends at a file is not changed by a new link. */
  lemma {:induction false} LinkLeavesWalk(a: Fs, p: Params, target: CString, linkName: CString, start: int, k: nat)
    requires Sound(a, p) && |target| >= 1 && |linkName| >= 1 && SymLink(a, p, target, linkName).1 == 0
    requires start in a.nodes && Iterate(a, At(start), k) != Broken
    ensures var a' := SymLink(a, p, target, linkName).0;
            && Iterate(a', At(start), k) == Iterate(a, At(start), k)
            && (IsLink(a', Iterate(a', At(start), k)) <==> IsLink(a, Iterate(a, At(start), k)))
  {
    var a' := SymLink(a, p, target, linkName).0;
    WalkStaysInNodes(a, start, k);
    if k > 0 {
      assert Iterate(a, At(start), k - 1) != Broken;
      LinkLeavesWalk(a, p, target, linkName, start, k - 1);
    }
  }

  // ---- removing names ----------------------------------------------------------------------

  /** Removing one name leaves every other name, and the node it leads to, as they were. */
  lemma UnlinkKeepsOthers(a: Fs, name: CString, other: CString)
    requires Consistent(a) && Unlink(a, name).1 == 0 && other in a.dir && other != name[1..]
    ensures var a' := Unlink(a, name).0;
            && other in a'.dir && a'.dir[other] == a.dir[other]
            && a'.dir[other] in a'.nodes && a'.nodes[a'.dir[other]] == a.nodes[a.dir[other]]
  {
    var a' := Unlink(a, name).0;
    assert a'.dir[other] in a'.dir.Values;
  }

  /** A block comes back exactly when the last name of a node that has one goes. */
  lemma UnlinkFreesBlock(a: Fs, name: CString)
    requires Consistent(a) && Unlink(a, name).1 == 0
    ensures var a' := Unlink(a, name).0;
            var id := a.dir[name[1..]];
            var last := forall n :: n in a.dir && a.dir[n] == id ==> n == name[1..];
            BlocksUsed(a') == BlocksUsed(a) - if UsesBlock(a.nodes[id]) && last then 1 else 0
  {
    var a' := Unlink(a, name).0;
    var id := a.dir[name[1..]];
    if id in a'.dir.Values {
      var n :| n in a'.dir && a'.dir[n] == id;
      assert n in a.dir && a.dir[n] == id && n != name[1..];
    } else {
      assert forall n :: n in a.dir && n != name[1..] ==>
          n in a'.dir && a'.dir[n] == a.dir[n] && a'.dir[n] in a'.dir.Values;
      assert BlockUsers(a') == BlockUsers(a) - {id};
    }
  }
}

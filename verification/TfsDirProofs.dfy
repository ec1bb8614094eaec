/** Facts about the root directory: how filling or clearing one slot changes the
    name map and the number of entries that name an inode. */
module TfsDirProofs {
  import opened Counting
  import opened TfsTypes
  import opened TfsDisk

  const FREE_ENTRY := DirEntry([], -1)

  /** The bytes of a block read as n directory entries, all of them set free. */
  function EmptyEntries(data: seq<byte>, n: nat): seq<DirEntry>
    requires n * DIR_ENTRY_SIZE <= |data|
  {
    seq(n, k requires 0 <= k < n => DirEntry(NameAt(data, k), -1))
  }

  /** No entry of the block has a name: each begins with a NUL. */
  ghost predicate SpellsNothing(data: seq<byte>, n: nat)
    requires n * DIR_ENTRY_SIZE <= |data|
  {
    forall k :: 0 <= k < n ==> data[k * DIR_ENTRY_SIZE] == 0
  }

  lemma SpellsNothingIff(data: seq<byte>, n: nat)
    requires n * DIR_ENTRY_SIZE <= |data|
    ensures SpellsNothing(data, n) <==> EmptyEntries(data, n) == seq(n, _ => FREE_ENTRY)
  {
    var es := EmptyEntries(data, n);
    if es == seq(n, _ => FREE_ENTRY) {
      forall k | 0 <= k < n ensures data[k * DIR_ENTRY_SIZE] == 0 { assert es[k] == FREE_ENTRY; }
    }
  }

  /** Where free entries have no names, only entries in use clash, and are found by name. */
  lemma CleanNames(es: seq<DirEntry>, name: CString)
    requires name != [] && forall k :: 0 <= k < |es| ==> EntryOk(es[k])
    ensures Clashes(es, name) <==> FindEntry(es, name) != -1
    ensures FirstNamed(es, name) == FindEntry(es, name)
  {
    var r := FindEntry(es, name);
    if r != -1 { assert r != FirstSlot(es); }
    var n := FirstNamed(es, name);
    if n != -1 { assert EntryOk(es[n]) && Matches(es[n], name); }
  }

  lemma LookupFound(es: seq<DirEntry>, k: nat)
    requires k < |es| && Used(es[k]) && Distinct(es)
    ensures FindEntry(es, es[k].name) == k
    ensures es[k].name in DirMap(es) && DirMap(es)[es[k].name] == es[k].inumber
  {
    var r := FindEntry(es, es[k].name);
    assert Matches(es[k], es[k].name);
    assert es[k].name in Names(es);
  }

  /** A lookup finds the name exactly when the map has it, with the same number. */
  lemma LookupAgrees(es: seq<DirEntry>, name: CString)
    requires Distinct(es)
    ensures name in DirMap(es) <==> FindEntry(es, name) != -1
    ensures LookupIn(es, name) == if name in DirMap(es) then DirMap(es)[name] else -1
  {
    var r := FindEntry(es, name);
    if r != -1 {
      LookupFound(es, r);
    } else {
      assert forall k :: 0 <= k < |es| ==> !Matches(es[k], name);
    }
  }

  lemma NamesAdded(es: seq<DirEntry>, k: nat, e: DirEntry)
    requires k < |es| && !Used(es[k]) && Used(e)
    ensures Names(es[k := e]) == Names(es) + {e.name}
  {
    var es' := es[k := e];
    assert es'[k] == e;
    forall n | n in Names(es) ensures n in Names(es') {
      var j :| 0 <= j < |es| && Used(es[j]) && es[j].name == n;
      assert es'[j] == es[j];
    }
  }

  lemma AddedDistinct(es: seq<DirEntry>, k: nat, e: DirEntry)
    requires DirOk(es) && k < |es| && !Used(es[k])
    requires Used(e) && EntryOk(e) && e.name !in DirMap(es)
    ensures DirOk(es[k := e])
  {
    assert forall j :: 0 <= j < |es| && Used(es[j]) ==> es[j].name in Names(es);
  }

  /** Filling a free slot with a new name adds exactly that name. */
  lemma EntryAdded(es: seq<DirEntry>, k: nat, e: DirEntry)
    requires DirOk(es) && k < |es| && !Used(es[k])
    requires Used(e) && EntryOk(e) && e.name !in DirMap(es)
    ensures DirOk(es[k := e])
    ensures DirMap(es[k := e]) == DirMap(es)[e.name := e.inumber]
  {
    var es' := es[k := e];
    AddedDistinct(es, k, e);
    assert Names(es') == Names(es) + {e.name} by { NamesAdded(es, k, e); }
    assert LookupIn(es', e.name) == e.inumber by { LookupFound(es', k); }
    forall n | n in Names(es) ensures LookupIn(es', n) == LookupIn(es, n) {
      var j :| 0 <= j < |es| && Used(es[j]) && es[j].name == n;
      LookupFound(es, j);
      assert es'[j] == es[j];
      LookupFound(es', j);
    }
  }

  lemma NamesRemoved(es: seq<DirEntry>, k: nat)
    requires k < |es| && Used(es[k]) && Distinct(es)
    ensures Names(es[k := FREE_ENTRY]) == Names(es) - {es[k].name}
  {
    var es' := es[k := FREE_ENTRY];
    forall n | n in Names(es) - {es[k].name} ensures n in Names(es') {
      var j :| 0 <= j < |es| && Used(es[j]) && es[j].name == n;
      assert es'[j] == es[j];
    }
    forall n | n in Names(es') ensures n in Names(es) - {es[k].name} {
      var j :| 0 <= j < |es'| && Used(es'[j]) && es'[j].name == n;
      assert j != k && es'[j] == es[j];
    }
  }

  /** Clearing a used slot removes exactly its name. */
  lemma EntryRemoved(es: seq<DirEntry>, k: nat)
    requires DirOk(es) && k < |es| && Used(es[k])
    ensures DirOk(es[k := FREE_ENTRY])
    ensures DirMap(es[k := FREE_ENTRY]) == DirMap(es) - {es[k].name}
  {
    var es' := es[k := FREE_ENTRY];
    NamesRemoved(es, k);
    assert Distinct(es');
    forall n | n in Names(es') ensures LookupIn(es', n) == LookupIn(es, n) {
      var j :| 0 <= j < |es'| && Used(es'[j]) && es'[j].name == n;
      assert es'[j] == es[j];
      LookupFound(es, j);
      LookupFound(es', j);
    }
  }

  lemma NamingChanged(es: seq<DirEntry>, k: nat, e: DirEntry, i: int)
    requires k < |es| && i != -1
    ensures Count(es[k := e], Naming(i)) ==
            Count(es, Naming(i)) - Bit(es[k].inumber == i) + Bit(e.inumber == i)
  {
    CountUpdate(es, k, e, Naming(i));
  }

  /** An inode is among the values of the name map exactly when some entry names it. */
  lemma NamedInMap(es: seq<DirEntry>, i: int)
    requires Distinct(es) && i != -1
    ensures i in DirMap(es).Values <==> Count(es, Naming(i)) > 0
  {
    if Count(es, Naming(i)) > 0 {
      var k := CountWitness(es, Naming(i));
      LookupFound(es, k);
    }
    if i in DirMap(es).Values {
      var n :| n in DirMap(es) && DirMap(es)[n] == i;
      LookupAgrees(es, n);
      CountMember(es, FindEntry(es, n), Naming(i));
    }
  }

  function IsUsed(): DirEntry -> bool {
    (e: DirEntry) => Used(e)
  }

  lemma {:induction false} NamesCounted(es: seq<DirEntry>)
    requires Distinct(es)
    ensures |Names(es)| == Count(es, IsUsed())
  {
    if es != [] {
      var t := es[1..];
      assert forall j :: 0 <= j < |t| ==> t[j] == es[j + 1];
      NamesCounted(t);
      if Used(es[0]) {
        NamesSplit(es);
        assert es[0].name !in Names(t);
      } else {
        NamesSplit(es);
      }
    }
  }

  lemma NamesSplit(es: seq<DirEntry>)
    requires es != []
    ensures Names(es) == (if Used(es[0]) then {es[0].name} else {}) + Names(es[1..])
  {
    var t := es[1..];
    forall n | n in Names(es) ensures n in (if Used(es[0]) then {es[0].name} else {}) + Names(t) {
      var j :| 0 <= j < |es| && Used(es[j]) && es[j].name == n;
      if j > 0 { assert t[j - 1] == es[j]; }
    }
    forall n | n in Names(t) ensures n in Names(es) {
      var j :| 0 <= j < |t| && Used(t[j]) && t[j].name == n;
      assert es[j + 1] == t[j];
    }
  }

  /** There is no free slot exactly when there are as many names as slots. */
  lemma DirectoryFull(es: seq<DirEntry>)
    requires Distinct(es)
    ensures |DirMap(es)| <= |es|
    ensures FirstSlot(es) == -1 <==> |DirMap(es)| == |es|
  {
    NamesCounted(es);
    assert DirMap(es).Keys == Names(es);
    CountAll(es, IsUsed());
    var r := FirstSlot(es);
    if r != -1 { assert !IsUsed()(es[r]); }
  }
}

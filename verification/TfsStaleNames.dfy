/** The names that uninitialised memory spells in free directory entries: exactly when
    add_dir_entry refuses a name that no file has. */
module TfsStaleNames {
  import opened TfsTypes
  import opened TfsDisk
  import opened TfsDirProofs

  predicate Legal(name: CString) {
    1 <= |name| <= MAX_FILE_NAME - 1
  }

  /** The name is legal, no entry in use has it, there is a free entry, and add_dir_entry
      returns -1 all the same. */
  ghost predicate Refuses(es: seq<DirEntry>, name: CString) {
    Legal(name) && FindEntry(es, name) == -1 && FirstSlot(es) != -1 && Clashes(es, name)
  }

  /** What add_dir_entry and clear_dir_entry leave of the entries. */
  ghost function Added(es: seq<DirEntry>, name: CString, i: int): seq<DirEntry> {
    if Legal(name) && !Clashes(es, name) && FirstSlot(es) != -1 then es[FirstSlot(es) := DirEntry(name, i)] else es
  }

  function Cleared(es: seq<DirEntry>, name: CString): seq<DirEntry> {
    if FirstNamed(es, name) == -1 then es else es[FirstNamed(es, name) := FREE_ENTRY]
  }

  ghost predicate DirStep(es: seq<DirEntry>, es': seq<DirEntry>) {
    || (exists name, i :: i != -1 && es' == Added(es, name, i))
    || exists name :: es' == Cleared(es, name)
  }

  ghost predicate IsDirRun(run: seq<seq<DirEntry>>, es: seq<DirEntry>) {
    |run| > 0 && run[0] == es && forall k :: 0 < k < |run| ==> DirStep(run[k - 1], run[k])
  }

  ghost predicate RunRefuses(run: seq<seq<DirEntry>>, es: seq<DirEntry>, name: CString) {
    IsDirRun(run, es) && Refuses(run[|run| - 1], name)
  }

  /** A free entry other than the first of the directory spells a legal name. */
  ghost predicate Stale(es: seq<DirEntry>) {
    exists k :: 1 <= k < |es| && !Used(es[k]) && Legal(es[k].name)
  }

  /** A refused name is in a free entry, and not in the first of the directory: that one, free,
      is filled without being compared. */
  lemma RefusedIsStale(es: seq<DirEntry>, name: CString)
    requires Refuses(es, name)
    ensures Stale(es)
  {
    var k :| 0 <= k < |es| && k != FirstSlot(es) && es[k].name == name;
    assert !Matches(es[k], name);
  }

  /** No call makes a name stale. */
  lemma StaleBefore(es: seq<DirEntry>, es': seq<DirEntry>)
    requires DirStep(es, es') && Stale(es')
    ensures Stale(es)
  {
    var k :| 1 <= k < |es'| && !Used(es'[k]) && Legal(es'[k].name);
    assert !Used(es[k]) && Legal(es[k].name);
  }

  lemma {:induction false} RunStaysClean(run: seq<seq<DirEntry>>, es: seq<DirEntry>, k: nat)
    requires IsDirRun(run, es) && k < |run| && !Stale(es)
    ensures !Stale(run[k])
  {
    hide DirStep, Stale;
    if k > 0 {
      RunStaysClean(run, es, k - 1);
      assert DirStep(run[k - 1], run[k]);
      if Stale(run[k]) { StaleBefore(run[k - 1], run[k]); }
    }
  }

  /** After tfs_init, some calls lead to where a name is refused that no file has, if and only if
      the memory of the first block spells a name of 1 to 39 bytes in an entry after the first:
      and then that name is refused from the start. */
  lemma RefusesIff(data: seq<byte>, n: nat)
    requires n * DIR_ENTRY_SIZE <= |data|
    ensures var es := EmptyEntries(data, n);
            && (Stale(es) <==> exists k :: 1 <= k < n && Legal(NameAt(data, k)))
            && ((exists run, name :: RunRefuses(run, es, name)) <==> Stale(es))
            && (forall k :: 1 <= k < n && Legal(NameAt(data, k)) ==> Refuses(es, NameAt(data, k)))
  {
    var es := EmptyEntries(data, n);
    assert forall k :: 0 <= k < n ==> es[k] == DirEntry(NameAt(data, k), -1);
    if Stale(es) {
      var k :| 1 <= k < |es| && !Used(es[k]) && Legal(es[k].name);
      assert NameAt(data, k) == es[k].name;
      RefusedAtOnce(es, k);
      assert RunRefuses([es], es, es[k].name);
    } else {
      forall run, name | IsDirRun(run, es) ensures !RunRefuses(run, es, name) {
        RunStaysClean(run, es, |run| - 1);
        if Refuses(run[|run| - 1], name) { RefusedIsStale(run[|run| - 1], name); }
      }
    }
    forall k | 1 <= k < n && Legal(NameAt(data, k)) ensures Refuses(es, NameAt(data, k)) {
      assert es[k].name == NameAt(data, k);
      RefusedAtOnce(es, k);
    }
  }

  lemma RefusedAtOnce(es: seq<DirEntry>, k: nat)
    requires 1 <= k < |es| && Legal(es[k].name) && forall j :: 0 <= j < |es| ==> !Used(es[j])
    ensures Refuses(es, es[k].name)
  {
    assert FirstSlot(es) == 0;
  }
}

/** Following symbolic links: the loop of tfs_open computes Resolve, and it ends
    exactly when it ends within as many steps as there are directory entries. */
module SymlinkWalk {
  import opened Counting
  import opened TfsTypes
  import opened TfsSpec

  /** What the tables guarantee of the abstract file system (TfsContentProofs.FsckConsistent). */
  ghost predicate Consistent(a: Fs) {
    && ROOT_DIR_INUM !in a.nodes
    && (forall n :: n in a.dir ==> a.dir[n] in a.nodes)
    && (forall i :: i in a.nodes ==> exists n :: n in a.dir && a.dir[n] == i)
    && (forall m, n :: m in a.dir && n in a.dir && a.dir[m] == a.dir[n] && a.nodes[a.dir[m]].Link? ==> m == n)
    && (forall h :: h in a.handles ==> a.handles[h].inumber in a.nodes && a.nodes[a.handles[h].inumber].File?)
  }

  lemma {:induction false} IterateAdd(a: Fs, w: Walk, m: nat, n: nat)
    ensures Iterate(a, w, m + n) == Iterate(a, Iterate(a, w, m), n)
  {
    if n > 0 { IterateAdd(a, w, m, n - 1); }
  }

  /** Once off the links, the walk stays where it is. */
  lemma {:induction false} WalkStays(a: Fs, w: Walk, k: nat, n: nat)
    requires k <= n && !IsLink(a, Iterate(a, w, k))
    ensures Iterate(a, w, n) == Iterate(a, w, k)
  {
    if k < n { WalkStays(a, w, k, n - 1); }
  }

  lemma {:induction false} WalkStaysInNodes(a: Fs, id: int, k: nat)
    requires Consistent(a) && id in a.nodes
    ensures var w := Iterate(a, At(id), k); w.At? ==> w.id in a.nodes
  {
    if k > 0 { WalkStaysInNodes(a, id, k - 1); }
  }

  /** The walk comes back to a link it has been at. */
  ghost predicate Cycles(a: Fs, id: int, i: nat, j: nat) {
    i < j && IsLink(a, Iterate(a, At(id), i)) && Iterate(a, At(id), i) == Iterate(a, At(id), j)
  }

  lemma {:induction false} CycleNeverStops(a: Fs, id: int, i: nat, j: nat, n: nat)
    requires Cycles(a, id, i, j)
    ensures IsLink(a, Iterate(a, At(id), n))
    decreases n
  {
    var w := At(id);
    if !IsLink(a, Iterate(a, w, n)) {
      if n <= j {
        WalkStays(a, w, n, j);
        assert false;
      } else {
        IterateAdd(a, w, j, n - j);
        IterateAdd(a, w, i, n - j);
        CycleNeverStops(a, id, i, j, n - (j - i));
      }
    }
  }

  /** The nodes visited before step k. */
  function Visited(a: Fs, id: int, k: nat): set<int> {
    if k == 0 then {}
    else
      var w := Iterate(a, At(id), k - 1);
      Visited(a, id, k - 1) + (if w.At? then {w.id} else {})
  }

  lemma {:induction false} VisitedBefore(a: Fs, id: int, k: nat, v: int) returns (i: nat)
    requires v in Visited(a, id, k)
    ensures i < k && Iterate(a, At(id), i) == At(v)
  {
    if Iterate(a, At(id), k - 1) == At(v) { i := k - 1; } else { i := VisitedBefore(a, id, k - 1, v); }
  }

  ghost predicate LinksUpTo(a: Fs, id: int, k: nat) {
    forall i: nat :: i < k ==> IsLink(a, Iterate(a, At(id), i))
  }

  /** A walk over links either repeats itself or visits a new link at each step. */
  lemma {:induction false} RepeatsOrGrows(a: Fs, id: int, k: nat)
    requires LinksUpTo(a, id, k)
    ensures (exists i: nat, j: nat :: Cycles(a, id, i, j)) || |Visited(a, id, k)| == k
  {
    if k > 0 {
      RepeatsOrGrows(a, id, k - 1);
      var w := Iterate(a, At(id), k - 1);
      assert IsLink(a, w);
      if w.id in Visited(a, id, k - 1) {
        var i := VisitedBefore(a, id, k - 1, w.id);
        assert Cycles(a, id, i, k - 1);
      }
    }
  }

  lemma {:induction false} ValuesAtMostKeys<K, V>(m: map<K, V>)
    ensures |m.Values| <= |m.Keys|
    decreases m.Keys
  {
    if m.Keys != {} {
      var k :| k in m.Keys;
      var m' := m - {k};
      ValuesAtMostKeys(m');
      assert m.Values <= m'.Values + {m[k]} by {
        forall v | v in m.Values ensures v in m'.Values + {m[k]} {
          var x :| x in m && m[x] == v;
          if x != k { assert x in m' && m'[x] == v; }
        }
      }
      SubsetSize(m.Values, m'.Values + {m[k]});
    }
  }

  lemma {:induction false} VisitedAreNamed(a: Fs, id: int, k: nat)
    requires Consistent(a) && LinksUpTo(a, id, k)
    ensures Visited(a, id, k) <= a.dir.Values
  {
    if k > 0 {
      VisitedAreNamed(a, id, k - 1);
      var w := Iterate(a, At(id), k - 1);
      assert IsLink(a, w);
      var n :| n in a.dir && a.dir[n] == w.id;
      assert w.id in a.dir.Values;
    }
  }

  /** A walk over more links than there are names has been round a cycle. */
  lemma LongWalkCycles(a: Fs, id: int)
    requires Consistent(a) && LinksUpTo(a, id, |a.dir| + 1)
    ensures exists i: nat, j: nat :: Cycles(a, id, i, j)
  {
    var k := |a.dir| + 1;
    RepeatsOrGrows(a, id, k);
    VisitedAreNamed(a, id, k);
    SubsetSize(Visited(a, id, k), a.dir.Values);
    ValuesAtMostKeys(a.dir);
    assert |a.dir| == |a.dir.Keys|;
  }

  lemma LinkFromStart(a: Fs, id: int, n: nat)
    requires IsLink(a, Iterate(a, At(id), n))
    ensures LinksUpTo(a, id, n + 1)
  {
    forall i: nat | i < n + 1 ensures IsLink(a, Iterate(a, At(id), i)) {
      if !IsLink(a, Iterate(a, At(id), i)) { WalkStays(a, At(id), i, n); }
    }
  }

  /** The walk ends exactly when it ends within the number of directory entries. */
  lemma WalkBound(a: Fs, id: int)
    requires Consistent(a)
    ensures WalkStops(a, id) <==> !IsLink(a, Resolve(a, id))
  {
    if WalkStops(a, id) && IsLink(a, Resolve(a, id)) {
      var k: nat :| !IsLink(a, Iterate(a, At(id), k));
      LinkFromStart(a, id, |a.dir|);
      LongWalkCycles(a, id);
      var i: nat, j: nat :| Cycles(a, id, i, j);
      CycleNeverStops(a, id, i, j, k);
    }
  }

  /** The walk ends exactly when it never comes back to a link. */
  lemma StopsIffNoCycle(a: Fs, id: int)
    requires Consistent(a)
    ensures WalkStops(a, id) <==> !exists i: nat, j: nat :: Cycles(a, id, i, j)
  {
    if i: nat, j: nat :| Cycles(a, id, i, j) {
      forall k: nat ensures IsLink(a, Iterate(a, At(id), k)) { CycleNeverStops(a, id, i, j, k); }
    } else if !WalkStops(a, id) {
      LinkFromStart(a, id, |a.dir|);
      LongWalkCycles(a, id);
    }
  }

  /** Wherever the loop stops, it has computed Resolve, and found a file. */
  lemma StoppedAtResolve(a: Fs, id: int, k: nat)
    requires Consistent(a) && id in a.nodes && !IsLink(a, Iterate(a, At(id), k))
    ensures Iterate(a, At(id), k) == Resolve(a, id)
    ensures Resolve(a, id).At? ==> Resolve(a, id).id in a.nodes && a.nodes[Resolve(a, id).id].File?
  {
    WalkBound(a, id);
    if k <= |a.dir| { WalkStays(a, At(id), k, |a.dir|); } else { WalkStays(a, At(id), |a.dir|, k); }
    WalkStaysInNodes(a, id, k);
  }

  /** Every link points at a node of smaller rank. */
  ghost predicate Ranked(a: Fs, rank: int -> nat) {
    forall i :: IsLink(a, At(i)) && a.nodes[i].target in a.dir ==> rank(a.dir[a.nodes[i].target]) < rank(i)
  }

  /** In a file system without cycles of links every walk ends. */
  lemma {:induction false} RankedStops(a: Fs, id: int, rank: int -> nat)
    requires Ranked(a, rank)
    ensures WalkStops(a, id)
    decreases rank(id)
  {
    var w := At(id);
    assert Iterate(a, w, 0) == w;
    if IsLink(a, w) {
      assert Iterate(a, w, 1) == Follow(a, Iterate(a, w, 0));
      if a.nodes[id].target in a.dir {
        var next := a.dir[a.nodes[id].target];
        RankedStops(a, next, rank);
        var k: nat :| !IsLink(a, Iterate(a, At(next), k));
        IterateAdd(a, w, 1, k);
        assert !IsLink(a, Iterate(a, w, 1 + k));
      } else {
        assert !IsLink(a, Iterate(a, w, 1));
      }
    }
  }
}

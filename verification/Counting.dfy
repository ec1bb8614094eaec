/** Counting the elements of a sequence that satisfy a predicate, and comparing
    the sizes of two sets through a one-to-one map. */
module Counting {

  function Count<T>(s: seq<T>, p: T -> bool): (n: nat)
    ensures n <= |s|
  {
    if s == [] then 0 else (if p(s[0]) then 1 else 0) + Count(s[1..], p)
  }

  function Bit(b: bool): int {
    if b then 1 else 0
  }

  /** Replacing one element moves the count by the difference at that element. */
  lemma {:induction false} CountUpdate<T>(s: seq<T>, i: nat, v: T, p: T -> bool)
    requires i < |s|
    ensures Count(s[i := v], p) == Count(s, p) - Bit(p(s[i])) + Bit(p(v))
  {
    if i == 0 {
      assert s[i := v][1..] == s[1..];
    } else {
      assert s[i := v][1..] == s[1..][i - 1 := v];
      CountUpdate(s[1..], i - 1, v, p);
    }
  }

  /** Sequences that agree on the predicate, position by position, count the same. */
  lemma {:induction false} CountAgree<T>(s: seq<T>, t: seq<T>, p: T -> bool)
    requires |s| == |t|
    requires forall i :: 0 <= i < |s| ==> p(s[i]) == p(t[i])
    ensures Count(s, p) == Count(t, p)
  {
    if s != [] {
      forall i | 0 <= i < |s| - 1 ensures p(s[1..][i]) == p(t[1..][i]) {
        assert s[1..][i] == s[i + 1] && t[1..][i] == t[i + 1];
      }
      CountAgree(s[1..], t[1..], p);
    }
  }

  /** The count is zero exactly when no element satisfies the predicate. */
  lemma {:induction false} CountZero<T>(s: seq<T>, p: T -> bool)
    ensures Count(s, p) == 0 <==> forall i :: 0 <= i < |s| ==> !p(s[i])
  {
    if s != [] {
      CountZero(s[1..], p);
      if forall i :: 0 <= i < |s| ==> !p(s[i]) {
        forall i | 0 <= i < |s| - 1 ensures !p(s[1..][i]) { assert s[1..][i] == s[i + 1]; }
      } else if !p(s[0]) {
        var i :| 0 <= i < |s| && p(s[i]);
        assert s[1..][i - 1] == s[i];
      }
    }
  }

  /** A positive count has a witness. */
  lemma CountWitness<T>(s: seq<T>, p: T -> bool) returns (i: nat)
    requires Count(s, p) > 0
    ensures i < |s| && p(s[i])
  {
    CountZero(s, p);
    i :| i < |s| && p(s[i]);
  }

  /** An element that satisfies the predicate makes the count positive, and when
      the count is one it is the only such element. */
  lemma CountMember<T>(s: seq<T>, i: nat, p: T -> bool)
    requires i < |s| && p(s[i])
    ensures Count(s, p) >= 1
    ensures Count(s, p) == 1 ==> forall j :: 0 <= j < |s| && p(s[j]) ==> j == i
  {
    CountZero(s, p);
    if Count(s, p) == 1 {
      forall j | 0 <= j < |s| && p(s[j]) ensures j == i {
        if j != i { CountPair(s, i, j, p); }
      }
    }
  }

  /** Two different positions that satisfy the predicate count for two. */
  lemma {:induction false} CountPair<T>(s: seq<T>, i: nat, j: nat, p: T -> bool)
    requires i < |s| && j < |s| && i != j && p(s[i]) && p(s[j])
    ensures Count(s, p) >= 2
  {
    if i == 0 {
      assert s[1..][j - 1] == s[j];
      CountZero(s[1..], p);
    } else if j == 0 {
      assert s[1..][i - 1] == s[i];
      CountZero(s[1..], p);
    } else {
      assert s[1..][i - 1] == s[i] && s[1..][j - 1] == s[j];
      CountPair(s[1..], i - 1, j - 1, p);
    }
  }

  /** Every element satisfies the predicate exactly when the count is the length. */
  lemma {:induction false} CountAll<T>(s: seq<T>, p: T -> bool)
    ensures Count(s, p) == |s| <==> forall i :: 0 <= i < |s| ==> p(s[i])
  {
    if s != [] {
      CountAll(s[1..], p);
      if forall i :: 0 <= i < |s| ==> p(s[i]) {
        forall i | 0 <= i < |s| - 1 ensures p(s[1..][i]) { assert s[1..][i] == s[i + 1]; }
      } else if p(s[0]) {
        var i :| 0 <= i < |s| && !p(s[i]);
        assert s[1..][i - 1] == s[i];
      }
    }
  }

  /** A one-to-one map of one finite set onto another: the sets have the same size. */
  lemma {:induction false} SameSize<A, B>(xs: set<A>, ys: set<B>, f: map<A, B>)
    requires f.Keys == xs
    requires forall x, x' :: x in xs && x' in xs && f[x] == f[x'] ==> x == x'
    requires forall x :: x in xs ==> f[x] in ys
    requires forall y :: y in ys ==> exists x :: x in xs && f[x] == y
    ensures |xs| == |ys|
    decreases xs
  {
    if xs == {} {
      if y :| y in ys { assert false; }
    } else {
      var x :| x in xs;
      var g := map z | z in xs && z != x :: f[z];
      assert g.Keys == xs - {x};
      forall y | y in ys - {f[x]} ensures exists z :: z in xs - {x} && g[z] == y {
        var z :| z in xs && f[z] == y;
        assert z in xs - {x} && g[z] == y;
      }
      SameSize(xs - {x}, ys - {f[x]}, g);
    }
  }

  /** The first n numbers. */
  function Range(n: nat): (r: set<int>)
    ensures forall i :: i in r <==> 0 <= i < n
    ensures |r| == n
  {
    if n == 0 then {} else assert n - 1 !in Range(n - 1); Range(n - 1) + {n - 1}
  }

  /** A subset of the first n numbers has n elements only if it is all of them. */
  lemma RangeSubset(s: set<int>, n: nat)
    requires s <= Range(n)
    ensures |s| <= n
    ensures |s| == n <==> s == Range(n)
  {
    SubsetSize(s, Range(n));
  }

  lemma SubsetSize<T>(a: set<T>, b: set<T>)
    requires a <= b
    ensures |a| <= |b|
    ensures |a| == |b| <==> a == b
  {
    assert b == a + (b - a);
    assert |b| == |a| + |b - a|;
  }

  // ---- sums ----------------------------------------------------------------------

  function Sum<T>(s: seq<T>, f: T -> nat): nat {
    if s == [] then 0 else f(s[0]) + Sum(s[1..], f)
  }

  /** Replacing one element moves the sum by the difference at that element. */
  lemma {:induction false} SumUpdate<T>(s: seq<T>, i: nat, v: T, f: T -> nat)
    requires i < |s|
    ensures Sum(s[i := v], f) + f(s[i]) == Sum(s, f) + f(v)
  {
    if i == 0 {
      assert s[i := v][1..] == s[1..];
    } else {
      assert s[i := v][1..] == s[1..][i - 1 := v];
      SumUpdate(s[1..], i - 1, v, f);
    }
  }

  /** Lowering elements lowers the sum. */
  lemma {:induction false} SumLower<T>(s: seq<T>, t: seq<T>, f: T -> nat)
    requires |s| == |t|
    requires forall i :: 0 <= i < |s| ==> f(t[i]) <= f(s[i])
    ensures Sum(t, f) <= Sum(s, f)
  {
    if s != [] {
      forall i | 0 <= i < |s| - 1 ensures f(t[1..][i]) <= f(s[1..][i]) {
        assert s[1..][i] == s[i + 1] && t[1..][i] == t[i + 1];
      }
      SumLower(s[1..], t[1..], f);
    }
  }

  lemma SameSum<T>(s: seq<T>, s': seq<T>, f: T -> nat)
    requires |s| == |s'|
    requires forall i :: 0 <= i < |s| ==> f(s'[i]) == f(s[i])
    ensures Sum(s', f) == Sum(s, f)
  {
    SumLower(s, s', f);
    SumLower(s', s, f);
  }

  lemma {:induction false} SumZero<T>(s: seq<T>, f: T -> nat)
    requires forall i :: 0 <= i < |s| ==> f(s[i]) == 0
    ensures Sum(s, f) == 0
  {
    if s != [] {
      forall i | 0 <= i < |s| - 1 ensures f(s[1..][i]) == 0 { assert s[1..][i] == s[i + 1]; }
      SumZero(s[1..], f);
    }
  }
}

/** `Array.prototype.filter` on sequences, and the table indices it keeps. */
module Seqs {

  /** The elements of `s` satisfying `p`, in their order in `s`. */
  function Filter<T>(s: seq<T>, p: T -> bool): (r: seq<T>)
    ensures |r| <= |s|
    ensures forall x :: x in r ==> x in s && p(x)
  {
    if s == [] then []
    else Filter(s[..|s| - 1], p) + (if p(s[|s| - 1]) then [s[|s| - 1]] else [])
  }

  /** The positions of `s` that `Filter(s, p)` keeps, in increasing order. */
  function FilterIndices<T>(s: seq<T>, p: T -> bool): seq<int>
  {
    if s == [] then []
    else FilterIndices(s[..|s| - 1], p) + (if p(s[|s| - 1]) then [|s| - 1] else [])
  }

  /** Strictly increasing, hence free of repeats. */
  predicate Increasing(s: seq<int>) {
    forall j, k :: 0 <= j < k < |s| ==> s[j] < s[k]
  }

  /** `FilterIndices` lists one in-range position per kept element, holding
      that element. */
  lemma {:induction false} FilterIndicesEntries<T>(s: seq<T>, p: T -> bool)
    ensures var idx, f := FilterIndices(s, p), Filter(s, p);
      && |idx| == |f|
      && (forall j :: 0 <= j < |idx| ==> 0 <= idx[j] < |s| && p(s[idx[j]]) && f[j] == s[idx[j]])
  {
    if s != [] {
      var n := |s| - 1;
      var init := s[..n];
      FilterIndicesEntries(init, p);
      var idx0, f0 := FilterIndices(init, p), Filter(init, p);
      var idx, f := FilterIndices(s, p), Filter(s, p);
      if p(s[n]) {
        assert idx == idx0 + [n] && f == f0 + [s[n]];
        forall j | 0 <= j < |idx|
          ensures 0 <= idx[j] < |s| && p(s[idx[j]]) && f[j] == s[idx[j]]
        {
          if j < |idx0| {
            assert idx[j] == idx0[j] && f[j] == f0[j] && init[idx0[j]] == s[idx0[j]];
          }
        }
      } else {
        assert idx == idx0 && f == f0;
        forall j | 0 <= j < |idx| ensures init[idx0[j]] == s[idx0[j]] { }
      }
    }
  }

  /** The positions `FilterIndices` lists are increasing and below `|s|`. */
  lemma {:induction false} FilterIndicesIncreasing<T>(s: seq<T>, p: T -> bool)
    ensures Increasing(FilterIndices(s, p))
    ensures forall j :: 0 <= j < |FilterIndices(s, p)| ==> 0 <= FilterIndices(s, p)[j] < |s|
  {
    if s != [] {
      var n := |s| - 1;
      FilterIndicesIncreasing(s[..n], p);
    }
  }

  /** Every position whose element satisfies `p` is listed. */
  lemma {:induction false} FilterIndicesComplete<T>(s: seq<T>, p: T -> bool)
    ensures forall i :: 0 <= i < |s| && p(s[i]) ==> i in FilterIndices(s, p)
  {
    if s != [] {
      var n := |s| - 1;
      var init := s[..n];
      FilterIndicesComplete(init, p);
      forall i | 0 <= i < |s| && p(s[i]) ensures i in FilterIndices(s, p) {
        if i < n {
          assert init[i] == s[i];
        }
      }
    }
  }

  /** `FilterIndices` picks out exactly what `Filter` keeps: one increasing
      index per kept element, every satisfying index, and nothing else. */
  lemma FilterIndicesSpec<T>(s: seq<T>, p: T -> bool)
    ensures var idx := FilterIndices(s, p);
      && |idx| == |Filter(s, p)|
      && Increasing(idx)
      && (forall j :: 0 <= j < |idx| ==>
            0 <= idx[j] < |s| && p(s[idx[j]]) && Filter(s, p)[j] == s[idx[j]])
      && (forall i :: 0 <= i < |s| && p(s[i]) ==> i in idx)
  {
    FilterIndicesEntries(s, p);
    FilterIndicesIncreasing(s, p);
    FilterIndicesComplete(s, p);
  }

  /** The positions kept by three filters whose predicates pick out the
      elements of rank 1, 2 and 3, listed filter by filter. */
  function RankIndices<T>(s: seq<T>, p1: T -> bool, p2: T -> bool, p3: T -> bool): seq<int> {
    FilterIndices(s, p1) + FilterIndices(s, p2) + FilterIndices(s, p3)
  }

  /** The three filters concatenated list the elements at the positions
      `RankIndices` gives, each of rank 1 to 3. */
  lemma RankEntries<T>(s: seq<T>, p1: T -> bool, p2: T -> bool, p3: T -> bool, rank: T -> int)
    requires forall x :: (p1(x) <==> rank(x) == 1) && (p2(x) <==> rank(x) == 2) && (p3(x) <==> rank(x) == 3)
    ensures var m := Filter(s, p1) + Filter(s, p2) + Filter(s, p3);
      var idx := RankIndices(s, p1, p2, p3);
      && |idx| == |m|
      && (forall j :: 0 <= j < |idx| ==> 0 <= idx[j] < |s| && m[j] == s[idx[j]] && 1 <= rank(s[idx[j]]) <= 3)
  {
    FilterIndicesEntries(s, p1);
    FilterIndicesEntries(s, p2);
    FilterIndicesEntries(s, p3);
    var a, b, c := FilterIndices(s, p1), FilterIndices(s, p2), FilterIndices(s, p3);
    var fa, fb, fc := Filter(s, p1), Filter(s, p2), Filter(s, p3);
    var idx, m := a + b + c, fa + fb + fc;
    forall j | 0 <= j < |idx|
      ensures 0 <= idx[j] < |s| && m[j] == s[idx[j]] && 1 <= rank(s[idx[j]]) <= 3
    {
      if j < |a| {
        assert idx[j] == a[j] && m[j] == fa[j];
      } else if j < |a| + |b| {
        assert idx[j] == b[j - |a|] && m[j] == fb[j - |a|];
      } else {
        assert idx[j] == c[j - |a| - |b|] && m[j] == fc[j - |a| - |b|];
      }
    }
  }

  /** `RankIndices` lists positions by rank, and by position within a rank. */
  lemma RankOrder<T>(s: seq<T>, p1: T -> bool, p2: T -> bool, p3: T -> bool, rank: T -> int)
    requires forall x :: (p1(x) <==> rank(x) == 1) && (p2(x) <==> rank(x) == 2) && (p3(x) <==> rank(x) == 3)
    ensures var idx := RankIndices(s, p1, p2, p3);
      forall j, j' :: 0 <= j < j' < |idx| ==>
        && 0 <= idx[j] < |s| && 0 <= idx[j'] < |s|
        && (rank(s[idx[j]]) < rank(s[idx[j']])
           || (rank(s[idx[j]]) == rank(s[idx[j']]) && idx[j] < idx[j']))
  {
    FilterIndicesEntries(s, p1);
    FilterIndicesEntries(s, p2);
    FilterIndicesEntries(s, p3);
    FilterIndicesIncreasing(s, p1);
    FilterIndicesIncreasing(s, p2);
    FilterIndicesIncreasing(s, p3);
    var a, b, c := FilterIndices(s, p1), FilterIndices(s, p2), FilterIndices(s, p3);
    var idx := a + b + c;
    forall j, j' | 0 <= j < j' < |idx|
      ensures 0 <= idx[j] < |s| && 0 <= idx[j'] < |s|
      ensures rank(s[idx[j]]) < rank(s[idx[j']])
        || (rank(s[idx[j]]) == rank(s[idx[j']]) && idx[j] < idx[j'])
    {
      if j' < |a| {
        assert idx[j] == a[j] && idx[j'] == a[j'];
      } else if j >= |a| && j' < |a| + |b| {
        assert idx[j] == b[j - |a|] && idx[j'] == b[j' - |a|];
      } else if j >= |a| + |b| {
        assert idx[j] == c[j - |a| - |b|] && idx[j'] == c[j' - |a| - |b|];
      } else if j < |a| {
        assert idx[j] == a[j];
        if j' < |a| + |b| { assert idx[j'] == b[j' - |a|]; } else { assert idx[j'] == c[j' - |a| - |b|]; }
      } else {
        assert idx[j] == b[j - |a|] && idx[j'] == c[j' - |a| - |b|];
      }
    }
  }

  /** `RankIndices` lists every position of rank 1 to 3, and no more positions
      than there are. */
  lemma RankComplete<T>(s: seq<T>, p1: T -> bool, p2: T -> bool, p3: T -> bool, rank: T -> int)
    requires forall x :: (p1(x) <==> rank(x) == 1) && (p2(x) <==> rank(x) == 2) && (p3(x) <==> rank(x) == 3)
    ensures var idx := RankIndices(s, p1, p2, p3);
      && |idx| <= |s|
      && (forall i :: 0 <= i < |s| && 1 <= rank(s[i]) <= 3 ==> i in idx)
  {
    FilterIndicesEntries(s, p1);
    FilterIndicesEntries(s, p2);
    FilterIndicesEntries(s, p3);
    FilterIndicesComplete(s, p1);
    FilterIndicesComplete(s, p2);
    FilterIndicesComplete(s, p3);
    FilterDisjointLength(s, p1, p2, p3);
  }

  /** Filtering distributes over concatenation. */
  lemma {:induction false} FilterAppend<T>(a: seq<T>, b: seq<T>, p: T -> bool)
    ensures Filter(a + b, p) == Filter(a, p) + Filter(b, p)
  {
    if b == [] {
      assert a + b == a;
    } else {
      var b' := b[..|b| - 1];
      assert (a + b)[..|a + b| - 1] == a + b';
      FilterAppend(a, b', p);
    }
  }

  /** Filtering a single element keeps it exactly when it satisfies `p`. */
  lemma FilterSingleton<T>(x: T, p: T -> bool)
    ensures Filter([x], p) == if p(x) then [x] else []
  {
    assert [x][..0] == [];
  }

  /** Nothing is kept exactly when nothing passes. */
  lemma FilterEmpty<T>(s: seq<T>, p: T -> bool)
    ensures Filter(s, p) == [] <==> forall i :: 0 <= i < |s| ==> !p(s[i])
  {
    FilterIndicesEntries(s, p);
    FilterIndicesComplete(s, p);
  }

  /** No element before the first kept position passes, and none after the
      last. */
  lemma FilterIndicesEnds<T>(s: seq<T>, p: T -> bool)
    requires FilterIndices(s, p) != []
    ensures var idx := FilterIndices(s, p);
      && 0 <= idx[0] <= idx[|idx| - 1] < |s|
      && (forall j :: 0 <= j < idx[0] ==> !p(s[j]))
      && (forall j :: idx[|idx| - 1] < j < |s| ==> !p(s[j]))
  {
    FilterIndicesIncreasing(s, p);
    FilterIndicesComplete(s, p);
  }

  /** The first element kept is the first element that passes. */
  lemma FilterHead<T>(s: seq<T>, p: T -> bool)
    requires Filter(s, p) != []
    ensures exists i :: (0 <= i < |s| && p(s[i]) && Filter(s, p)[0] == s[i]
      && forall j :: 0 <= j < i ==> !p(s[j]))
  {
    FilterIndicesEntries(s, p);
    FilterIndicesEnds(s, p);
    var i := FilterIndices(s, p)[0];
    assert 0 <= i < |s| && p(s[i]) && Filter(s, p)[0] == s[i];
  }

  /** The last element kept is the last element that passes. */
  lemma FilterLast<T>(s: seq<T>, p: T -> bool)
    requires Filter(s, p) != []
    ensures var f := Filter(s, p);
      exists i :: (0 <= i < |s| && p(s[i]) && f[|f| - 1] == s[i]
      && forall j :: i < j < |s| ==> !p(s[j]))
  {
    FilterIndicesEntries(s, p);
    FilterIndicesEnds(s, p);
    var idx := FilterIndices(s, p);
    var i := idx[|idx| - 1];
    assert 0 <= i < |s| && p(s[i]);
  }

  /** Two passing elements appear in the filtered list in their order. */
  lemma FilterPositions<T>(s: seq<T>, p: T -> bool, i: int, j: int)
    requires 0 <= i < j < |s| && p(s[i]) && p(s[j])
    ensures var f := Filter(s, p);
      exists ki, kj :: 0 <= ki < kj < |f| && f[ki] == s[i] && f[kj] == s[j]
  {
    var ids := FilterIndices(s, p);
    FilterIndicesComplete(s, p);
    assert i in ids && j in ids;
    var ki :| 0 <= ki < |ids| && ids[ki] == i;
    var kj :| 0 <= kj < |ids| && ids[kj] == j;
    FilterIndicesIncreasing(s, p);
    assert ki < kj;
    FilterIndicesEntries(s, p);
    var f := Filter(s, p);
    assert f[ki] == s[i] && f[kj] == s[j];
  }

  /** Two positions of the filtered list come from positions of the list in
      the same order. */
  lemma FilterOrigins<T>(r: seq<T>, p: T -> bool, ki: int, kj: int)
    requires 0 <= ki < kj < |Filter(r, p)|
    ensures var f := Filter(r, p);
      exists i, j :: 0 <= i < j < |r| && r[i] == f[ki] && r[j] == f[kj]
  {
    FilterIndicesEntries(r, p);
    FilterIndicesIncreasing(r, p);
    var idr := FilterIndices(r, p);
    assert idr[ki] < idr[kj];
  }

  /** Two lists with the same filtered subsequence hold two passing elements
      of the first in the same order. */
  lemma FilterKeepsOrder<T>(s: seq<T>, r: seq<T>, p: T -> bool, i: int, j: int)
    requires Filter(r, p) == Filter(s, p)
    requires 0 <= i < j < |s| && p(s[i]) && p(s[j])
    ensures exists i', j' :: 0 <= i' < j' < |r| && r[i'] == s[i] && r[j'] == s[j]
  {
    FilterPositions(s, p, i, j);
    var f := Filter(s, p);
    var ki, kj :| 0 <= ki < kj < |f| && f[ki] == s[i] && f[kj] == s[j];
    FilterOrigins(r, p, ki, kj);
  }

  /** Every element that passes is kept. */
  lemma {:induction false} FilterMembers<T>(s: seq<T>, p: T -> bool, x: T)
    requires x in s && p(x)
    ensures x in Filter(s, p)
  {
    var n := |s| - 1;
    if s[n] != x {
      assert x in s[..n] by {
        var i :| 0 <= i < |s| && s[i] == x;
        assert s[..n][i] == x;
      }
      FilterMembers(s[..n], p, x);
    }
  }

  /** Filtering a list with a head keeps the head exactly when it passes. */
  lemma FilterCons<T>(x: T, t: seq<T>, p: T -> bool)
    ensures Filter([x] + t, p) == (if p(x) then [x] else []) + Filter(t, p)
  {
    FilterAppend([x], t, p);
    FilterSingleton(x, p);
  }

  /** Two adjacent elements that do not both pass can trade places without
      changing what the filter keeps. */
  lemma FilterSwap<T>(a: T, b: T, t: seq<T>, p: T -> bool)
    requires !(p(a) && p(b))
    ensures Filter([a] + ([b] + t), p) == Filter([b] + ([a] + t), p)
  {
    FilterCons(a, [b] + t, p);
    FilterCons(b, t, p);
    FilterCons(b, [a] + t, p);
    FilterCons(a, t, p);
  }

  /** Three filters whose predicates never hold together keep, between them,
      at most as many elements as there are. */
  lemma {:induction false} FilterDisjointLength<T>(s: seq<T>, p: T -> bool, q: T -> bool, r: T -> bool)
    requires forall x :: !(p(x) && q(x)) && !(p(x) && r(x)) && !(q(x) && r(x))
    ensures |Filter(s, p)| + |Filter(s, q)| + |Filter(s, r)| <= |s|
  {
    if s != [] {
      FilterDisjointLength(s[..|s| - 1], p, q, r);
    }
  }
}

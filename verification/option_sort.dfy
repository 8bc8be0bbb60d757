/** `options.sort((a, b) => b.savings - a.savings)`: a stable sort of route
    options by savings, largest first, modelled as an insertion sort. */
module OptionSort {
  import opened Types
  import opened Seqs

  /** The options whose savings are exactly `v`. */
  function SavingsIs(v: int): RouteOption -> bool {
    (o: RouteOption) => o.savings == v
  }

  /** Places `x` in front of the first option of `s` that does not save more
      than it does, so that it stays ahead of options with equal savings. */
  function Insert(x: RouteOption, s: seq<RouteOption>): (r: seq<RouteOption>)
    ensures |r| == |s| + 1
  {
    if s == [] || x.savings >= s[0].savings then [x] + s
    else [s[0]] + Insert(x, s[1..])
  }

  /** The options of `s` sorted by savings, largest first, stably. */
  function SortBySavings(s: seq<RouteOption>): (r: seq<RouteOption>)
    ensures |r| == |s|
  {
    if s == [] then [] else Insert(s[0], SortBySavings(s[1..]))
  }

  /** Inserting into a sorted list keeps it sorted. */
  lemma {:induction false} InsertSorted(x: RouteOption, s: seq<RouteOption>)
    requires SortedBySavings(s)
    ensures SortedBySavings(Insert(x, s))
  {
    if s != [] && x.savings < s[0].savings {
      InsertSorted(x, s[1..]);
      var t := Insert(x, s[1..]);
      InsertFirst(x, s[1..]);
      assert Insert(x, s) == [s[0]] + t;
    }
  }

  /** The head of an insertion is `x` or the old head. */
  lemma InsertFirst(x: RouteOption, s: seq<RouteOption>)
    requires SortedBySavings(s)
    ensures Insert(x, s)[0] == x || (s != [] && Insert(x, s)[0] == s[0])
  {
  }

  /** Inserting adds exactly one occurrence of `x`. */
  lemma {:induction false} InsertPermutes(x: RouteOption, s: seq<RouteOption>)
    ensures multiset(Insert(x, s)) == multiset(s) + multiset{x}
  {
    if s != [] && x.savings < s[0].savings {
      InsertPermutes(x, s[1..]);
      assert s == [s[0]] + s[1..];
    }
  }

  /** Two options of different savings can trade places without changing
      any one savings value's subsequence. */
  lemma SwapDistinctSavings(a: RouteOption, b: RouteOption, t: seq<RouteOption>, v: int)
    requires a.savings != b.savings
    ensures Filter([a] + ([b] + t), SavingsIs(v)) == Filter([b] + ([a] + t), SavingsIs(v))
  {
    FilterSwap(a, b, t, SavingsIs(v));
  }

  /** Among the options with any one savings value, inserting `x` puts it
      first, where it stood. */
  lemma {:induction false} InsertStable(x: RouteOption, s: seq<RouteOption>, v: int)
    ensures Filter(Insert(x, s), SavingsIs(v)) == Filter([x] + s, SavingsIs(v))
  {
    if s != [] && x.savings < s[0].savings {
      var t := s[1..];
      var it := Insert(x, t);
      assert Insert(x, s) == [s[0]] + it;
      assert Filter([s[0]] + it, SavingsIs(v)) == Filter([s[0]] + ([x] + t), SavingsIs(v)) by {
        InsertStable(x, t, v);
        FilterAppend([s[0]], it, SavingsIs(v));
        FilterAppend([s[0]], [x] + t, SavingsIs(v));
      }
      SwapDistinctSavings(s[0], x, t, v);
      assert [s[0]] + t == s;
    }
  }

  /** The sorted list is ordered by savings, largest first. */
  lemma {:induction false} SortSorted(s: seq<RouteOption>)
    ensures SortedBySavings(SortBySavings(s))
  {
    if s != [] {
      SortSorted(s[1..]);
      InsertSorted(s[0], SortBySavings(s[1..]));
    }
  }

  /** The sorted list holds the same options, as many times each. */
  lemma {:induction false} SortPermutes(s: seq<RouteOption>)
    ensures multiset(SortBySavings(s)) == multiset(s)
  {
    if s != [] {
      SortPermutes(s[1..]);
      InsertPermutes(s[0], SortBySavings(s[1..]));
      assert s == [s[0]] + s[1..];
    }
  }

  /** The sort is stable: options with equal savings keep their order. */
  lemma {:induction false} SortStable(s: seq<RouteOption>, v: int)
    ensures Filter(SortBySavings(s), SavingsIs(v)) == Filter(s, SavingsIs(v))
  {
    if s != [] {
      var p := SavingsIs(v);
      SortStable(s[1..], v);
      InsertStable(s[0], SortBySavings(s[1..]), v);
      FilterAppend([s[0]], SortBySavings(s[1..]), p);
      FilterAppend([s[0]], s[1..], p);
      assert [s[0]] + s[1..] == s;
    }
  }

  /** Two options with equal savings keep their relative order. */
  lemma SortKeepsTieOrder(s: seq<RouteOption>, i: int, j: int)
    requires 0 <= i < j < |s| && s[i].savings == s[j].savings
    ensures var r := SortBySavings(s);
      exists i', j' :: 0 <= i' < j' < |r| && r[i'] == s[i] && r[j'] == s[j]
  {
    SortStable(s, s[i].savings);
    FilterKeepsOrder(s, SortBySavings(s), SavingsIs(s[i].savings), i, j);
  }

  /** The three facts together: what `Array.prototype.sort` with this
      comparator promises. */
  lemma SortSpec(s: seq<RouteOption>)
    ensures var r := SortBySavings(s);
      && SortedBySavings(r)
      && multiset(r) == multiset(s)
      && forall v :: Filter(r, SavingsIs(v)) == Filter(s, SavingsIs(v))
  {
    SortSorted(s);
    SortPermutes(s);
    forall v ensures Filter(SortBySavings(s), SavingsIs(v)) == Filter(s, SavingsIs(v)) {
      SortStable(s, v);
    }
  }
}

/**
 * `Array.prototype.sort` with a numeric comparator, as the three list views
 * call it. Since ECMAScript 2019 the sort is stable; for a consistent
 * comparator the result is then determined, and a stable insertion sort
 * computes it.
 */
module Sorting {
  import opened Seqs

  /**
   * A consistent comparator: swapping the operands flips the sign, and
   * "sorts no later than" (a non-positive result) is transitive.
   */
  ghost predicate IsComparator<T(!new)>(cmp: (T, T) -> int)
  {
    && (forall a, b {:trigger cmp(a, b), cmp(b, a)} :: cmp(a, b) < 0 <==> cmp(b, a) > 0)
    && (forall a, b, c {:trigger cmp(a, b), cmp(b, c), cmp(a, c)} ::
          cmp(a, b) <= 0 && cmp(b, c) <= 0 ==> cmp(a, c) <= 0)
  }

  /** Every earlier element sorts no later than every later one. */
  ghost predicate Sorted<T>(s: seq<T>, cmp: (T, T) -> int)
  {
    forall i, j :: 0 <= i < j < |s| ==> cmp(s[i], s[j]) <= 0
  }

  /** Inserts `x` before the first element it does not sort after. */
  function Insert<T>(x: T, s: seq<T>, cmp: (T, T) -> int): (r: seq<T>)
    ensures |r| == |s| + 1
  {
    if s == [] then [x]
    else if cmp(x, s[0]) <= 0 then [x] + s
    else [s[0]] + Insert(x, s[1..], cmp)
  }

  /** The list `s.sort(cmp)` produces. */
  function Sort<T>(s: seq<T>, cmp: (T, T) -> int): (r: seq<T>)
    ensures |r| == |s|
  {
    if s == [] then [] else Insert(s[0], Sort(s[1..], cmp), cmp)
  }

  lemma {:induction false} InsertPermutation<T>(x: T, s: seq<T>, cmp: (T, T) -> int)
    ensures multiset(Insert(x, s, cmp)) == multiset(s) + multiset{x}
  {
    if s == [] {
    } else if cmp(x, s[0]) <= 0 {
      assert Insert(x, s, cmp) == [x] + s;
    } else {
      var rest := Insert(x, s[1..], cmp);
      InsertPermutation(x, s[1..], cmp);
      assert Insert(x, s, cmp) == [s[0]] + rest;
      assert multiset([s[0]] + rest) == multiset{s[0]} + multiset(rest);
      assert s == [s[0]] + s[1..];
      assert multiset(s) == multiset{s[0]} + multiset(s[1..]);
    }
  }

  /** Sorting only reorders: the result is a permutation of the input. */
  lemma {:induction false} SortPermutation<T>(s: seq<T>, cmp: (T, T) -> int)
    ensures multiset(Sort(s, cmp)) == multiset(s)
  {
    if s != [] {
      SortPermutation(s[1..], cmp);
      InsertPermutation(s[0], Sort(s[1..], cmp), cmp);
      assert s == [s[0]] + s[1..];
    }
  }

  lemma SortedTail<T>(s: seq<T>, cmp: (T, T) -> int)
    requires s != [] && Sorted(s, cmp)
    ensures Sorted(s[1..], cmp)
  {
    forall i, j | 0 <= i < j < |s[1..]| ensures cmp(s[1..][i], s[1..][j]) <= 0 {
      assert s[1..][i] == s[i + 1] && s[1..][j] == s[j + 1];
    }
  }

  /** Prepending an element that sorts no later than every element keeps a list sorted. */
  lemma SortedCons<T>(y: T, s: seq<T>, cmp: (T, T) -> int)
    requires Sorted(s, cmp)
    requires forall j :: 0 <= j < |s| ==> cmp(y, s[j]) <= 0
    ensures Sorted([y] + s, cmp)
  {
    var r := [y] + s;
    forall i, j | 0 <= i < j < |r| ensures cmp(r[i], r[j]) <= 0 {
      assert r[j] == s[j - 1];
      if i > 0 {
        assert r[i] == s[i - 1];
      }
    }
  }

  lemma {:induction false} InsertSorted<T(!new)>(x: T, s: seq<T>, cmp: (T, T) -> int)
    requires IsComparator(cmp) && Sorted(s, cmp)
    ensures Sorted(Insert(x, s, cmp), cmp)
  {
    if s == [] {
    } else if cmp(x, s[0]) <= 0 {
      forall j | 0 <= j < |s| ensures cmp(x, s[j]) <= 0 {
        if j > 0 {
          assert cmp(s[0], s[j]) <= 0;
        }
      }
      SortedCons(x, s, cmp);
    } else {
      SortedTail(s, cmp);
      InsertSorted(x, s[1..], cmp);
      InsertSortedHead(x, s, cmp);
      SortedCons(s[0], Insert(x, s[1..], cmp), cmp);
    }
  }

  /** When `x` sorts after the head, the head sorts no later than everything `x` is inserted among. */
  lemma InsertSortedHead<T(!new)>(x: T, s: seq<T>, cmp: (T, T) -> int)
    requires IsComparator(cmp) && Sorted(s, cmp) && s != [] && cmp(x, s[0]) > 0
    ensures forall j :: 0 <= j < |Insert(x, s[1..], cmp)| ==> cmp(s[0], Insert(x, s[1..], cmp)[j]) <= 0
  {
    var t := Insert(x, s[1..], cmp);
    InsertPermutation(x, s[1..], cmp);
    forall j | 0 <= j < |t| ensures cmp(s[0], t[j]) <= 0 {
      assert t[j] in multiset(t);
      if t[j] == x {
        assert cmp(s[0], x) < 0 by {
          assert cmp(x, s[0]) > 0;
        }
      } else {
        assert t[j] in multiset(s[1..]);
        var k :| 0 <= k < |s[1..]| && s[1..][k] == t[j];
        assert t[j] == s[k + 1];
      }
    }
  }

  /** With a consistent comparator the result is sorted. */
  lemma {:induction false} SortSorted<T(!new)>(s: seq<T>, cmp: (T, T) -> int)
    requires IsComparator(cmp)
    ensures Sorted(Sort(s, cmp), cmp)
  {
    if s != [] {
      SortSorted(s[1..], cmp);
      InsertSorted(s[0], Sort(s[1..], cmp), cmp);
    }
  }

  /** `[y]` when `y` compares equal to `k`, otherwise `[]`. */
  function Pick<T>(y: T, cmp: (T, T) -> int, k: T): seq<T>
  {
    if cmp(y, k) == 0 then [y] else []
  }

  /** The elements of `s` that compare equal to `k`, in their order in `s`. */
  function RankOf<T>(s: seq<T>, cmp: (T, T) -> int, k: T): seq<T>
  {
    if s == [] then [] else Pick(s[0], cmp, k) + RankOf(s[1..], cmp, k)
  }

  lemma RankOfCons<T>(y: T, u: seq<T>, cmp: (T, T) -> int, k: T)
    ensures RankOf([y] + u, cmp, k) == Pick(y, cmp, k) + RankOf(u, cmp, k)
  {
    assert ([y] + u)[1..] == u;
  }

  lemma {:induction false} InsertRankOf<T(!new)>(x: T, s: seq<T>, cmp: (T, T) -> int, k: T)
    requires IsComparator(cmp)
    ensures RankOf(Insert(x, s, cmp), cmp, k) == Pick(x, cmp, k) + RankOf(s, cmp, k)
  {
    if s == [] {
    } else if cmp(x, s[0]) <= 0 {
      RankOfCons(x, s, cmp, k);
    } else {
      var t := Insert(x, s[1..], cmp);
      var r := RankOf(s[1..], cmp, k);
      assert Insert(x, s, cmp) == [s[0]] + t;
      RankOfCons(s[0], t, cmp, k);
      InsertRankOf(x, s[1..], cmp, k);
      assert RankOf(t, cmp, k) == Pick(x, cmp, k) + r;
      assert RankOf(s, cmp, k) == Pick(s[0], cmp, k) + r;
      SameRankExclusive(cmp, x, s[0], k);
      assert Pick(s[0], cmp, k) + Pick(x, cmp, k) == Pick(x, cmp, k) + Pick(s[0], cmp, k);
      assert Pick(s[0], cmp, k) + (Pick(x, cmp, k) + r) == (Pick(s[0], cmp, k) + Pick(x, cmp, k)) + r;
    }
  }

  /** Two elements that rank with the same `k` never sort strictly apart. */
  lemma SameRankExclusive<T(!new)>(cmp: (T, T) -> int, x: T, y: T, k: T)
    requires IsComparator(cmp) && cmp(x, y) > 0
    ensures !(cmp(x, k) == 0 && cmp(y, k) == 0)
  {
    assert cmp(y, k) == 0 ==> cmp(k, y) <= 0;
  }

  /**
   * Stability: the elements that compare equal to any `k` appear in the
   * result in exactly their input order.
   */
  lemma {:induction false} SortStable<T(!new)>(s: seq<T>, cmp: (T, T) -> int, k: T)
    requires IsComparator(cmp)
    ensures RankOf(Sort(s, cmp), cmp, k) == RankOf(s, cmp, k)
  {
    if s != [] {
      SortStable(s[1..], cmp, k);
      InsertRankOf(s[0], Sort(s[1..], cmp), cmp, k);
    }
  }

  /** A list that is already sorted is left as it is. */
  lemma {:induction false} SortOfSorted<T>(s: seq<T>, cmp: (T, T) -> int)
    requires Sorted(s, cmp)
    ensures Sort(s, cmp) == s
  {
    if s != [] {
      assert Sorted(s[1..], cmp) by {
        forall i, j | 0 <= i < j < |s[1..]| ensures cmp(s[1..][i], s[1..][j]) <= 0 {
          assert s[1..][i] == s[i + 1] && s[1..][j] == s[j + 1];
        }
      }
      SortOfSorted(s[1..], cmp);
      if |s| > 1 {
        assert cmp(s[0], s[1]) <= 0;
      }
      assert [s[0]] + s[1..] == s;
    }
  }

  /** Sorting twice with the same comparator gives the same list as sorting once. */
  lemma SortIdempotent<T(!new)>(s: seq<T>, cmp: (T, T) -> int)
    requires IsComparator(cmp)
    ensures Sort(Sort(s, cmp), cmp) == Sort(s, cmp)
  {
    SortSorted(s, cmp);
    SortOfSorted(Sort(s, cmp), cmp);
  }

  /** Inserting adds the element's value to a sum. */
  lemma {:induction false} SumInsert<T>(x: T, s: seq<T>, cmp: (T, T) -> int, f: T -> int)
    ensures Sum(Insert(x, s, cmp), f) == f(x) + Sum(s, f)
  {
    if s != [] && cmp(x, s[0]) > 0 {
      var t := Insert(x, s[1..], cmp);
      assert Insert(x, s, cmp) == [s[0]] + t;
      assert ([s[0]] + t)[1..] == t;
      SumInsert(x, s[1..], cmp, f);
    } else if s != [] {
      assert ([x] + s)[1..] == s;
    }
  }

  /** Sorting does not change a sum over the list. */
  lemma {:induction false} SumSort<T>(s: seq<T>, cmp: (T, T) -> int, f: T -> int)
    ensures Sum(Sort(s, cmp), f) == Sum(s, f)
  {
    if s != [] {
      SumSort(s[1..], cmp, f);
      SumInsert(s[0], Sort(s[1..], cmp), cmp, f);
    }
  }
}

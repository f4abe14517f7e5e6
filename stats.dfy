/** The descriptive statistics the report prints per sensor, over the values
    of a column that are present (pandas skips missing cells in `sum`, `mean`,
    `min`, `max` and `median`). Values are exact reals. */
module Stats {

  /** Sum of the values; 0 for no values, as pandas' `sum` of an empty or
      all-missing column. */
  function Sum(xs: seq<real>): real {
    if xs == [] then 0.0 else xs[0] + Sum(xs[1..])
  }

  /** Arithmetic mean, Sum divided by the number of values; it lies between
      the smallest and the largest value. */
  function Mean(xs: seq<real>): (m: real)
    requires xs != []
    ensures Min(xs) <= m <= Max(xs)
  {
    MinIsLeast(xs);
    MaxIsGreatest(xs);
    AverageBounded(xs, Min(xs), Max(xs));
    Sum(xs) / (|xs| as real)
  }

  /** Values bounded by lo and hi have their sum over their count between lo
      and hi. */
  lemma AverageBounded(xs: seq<real>, lo: real, hi: real)
    requires xs != []
    requires forall i :: 0 <= i < |xs| ==> lo <= xs[i] <= hi
    ensures lo <= Sum(xs) / (|xs| as real) <= hi
  {
    SumBetween(xs, lo, hi);
    DivideBetween(Sum(xs), |xs| as real, lo, hi);
  }

  /** The smallest value. */
  function Min(xs: seq<real>): real
    requires xs != []
  {
    if |xs| == 1 then xs[0]
    else
      var rest := Min(xs[1..]);
      if xs[0] <= rest then xs[0] else rest
  }

  /** The smallest value is one of the values, and no value is below it. */
  lemma {:induction false} MinIsLeast(xs: seq<real>)
    requires xs != []
    ensures Min(xs) in xs
    ensures forall i :: 0 <= i < |xs| ==> Min(xs) <= xs[i]
  {
    if |xs| > 1 {
      MinIsLeast(xs[1..]);
      forall i | 1 <= i < |xs| ensures Min(xs) <= xs[i] {
        assert xs[i] == xs[1..][i - 1];
      }
    }
  }

  /** The largest value. */
  function Max(xs: seq<real>): real
    requires xs != []
  {
    if |xs| == 1 then xs[0]
    else
      var rest := Max(xs[1..]);
      if xs[0] >= rest then xs[0] else rest
  }

  /** The largest value is one of the values, and no value is above it. */
  lemma {:induction false} MaxIsGreatest(xs: seq<real>)
    requires xs != []
    ensures Max(xs) in xs
    ensures forall i :: 0 <= i < |xs| ==> xs[i] <= Max(xs)
  {
    if |xs| > 1 {
      MaxIsGreatest(xs[1..]);
      forall i | 1 <= i < |xs| ensures xs[i] <= Max(xs) {
        assert xs[i] == xs[1..][i - 1];
      }
    }
  }

  /** pandas' median: the middle of the sorted values; it lies between the
      smallest and the largest value. */
  function Median(xs: seq<real>): (med: real)
    requires xs != []
    ensures Min(xs) <= med <= Max(xs)
  {
    SortedMiddleBetween(xs);
    Middle(SortAscending(xs))
  }

  /** The middle of the sorted copy lies between the smallest and the largest
      value. */
  lemma SortedMiddleBetween(xs: seq<real>)
    requires xs != []
    ensures Min(xs) <= Middle(SortAscending(xs)) <= Max(xs)
  {
    var s := SortAscending(xs);
    SortAscendingSorts(xs);
    var i, j := MiddleBetween(s);
    InSortedIsIn(xs, s, i);
    InSortedIsIn(xs, s, j);
  }

  /** The middle element of a sequence, or the average of its two middle
      elements when its length is even, found by dropping both ends. */
  function Middle(s: seq<real>): real
    requires s != []
  {
    if |s| == 1 then s[0]
    else if |s| == 2 then (s[0] + s[1]) / 2.0
    else Middle(s[1..|s| - 1])
  }

  /** The middle read off by index: the element at |s| / 2 of an
      odd-length sequence, the average of the elements at |s| / 2 - 1 and
      |s| / 2 of an even-length one. */
  function MiddleByIndex(s: seq<real>): real
    requires s != []
  {
    var mid := |s| / 2;
    if |s| % 2 == 1 then s[mid] else (s[mid - 1] + s[mid]) / 2.0
  }

  /** Dropping both ends reaches the same middle as the index formula. */
  lemma {:induction false} MiddleIndex(s: seq<real>)
    requires s != []
    ensures Middle(s) == MiddleByIndex(s)
  {
    if |s| > 2 {
      var inner := s[1..|s| - 1];
      MiddleIndex(inner);
      assert inner[|inner| / 2] == s[|s| / 2];
      if |s| % 2 == 0 {
        assert inner[|inner| / 2 - 1] == s[|s| / 2 - 1];
      }
    }
  }

  /** The middle lies between two elements of the sequence. */
  lemma {:induction false} MiddleBetween(s: seq<real>) returns (i: int, j: int)
    requires s != []
    ensures 0 <= i < |s| && 0 <= j < |s| && s[i] <= Middle(s) <= s[j]
  {
    if |s| == 1 {
      i, j := 0, 0;
    } else if |s| == 2 {
      if s[0] <= s[1] {
        i, j := 0, 1;
      } else {
        i, j := 1, 0;
      }
    } else {
      var a, b := MiddleBetween(s[1..|s| - 1]);
      i, j := a + 1, b + 1;
    }
  }

  /** pandas' definition of the median: on the sorted values, the value at
      the middle index for an odd count, the mean of the two values around
      the middle for an even count. */
  lemma MedianOfSorted(xs: seq<real>)
    requires xs != []
    ensures Median(xs) == MiddleByIndex(SortAscending(xs))
  {
    MiddleIndex(SortAscending(xs));
  }

  /** Every element is at most every later one. */
  ghost predicate Ascending(s: seq<real>) {
    forall i, j :: 0 <= i < j < |s| ==> s[i] <= s[j]
  }

  /** Insert `x` before the first element it does not exceed. */
  function Insert(x: real, s: seq<real>): (r: seq<real>)
    ensures |r| == |s| + 1
  {
    if s == [] then [x]
    else if x <= s[0] then [x] + s
    else [s[0]] + Insert(x, s[1..])
  }

  /** Insertion adds exactly `x` to the values. */
  lemma {:induction false} InsertAdds(x: real, s: seq<real>)
    ensures multiset(Insert(x, s)) == multiset(s) + multiset{x}
  {
    if s != [] && x > s[0] {
      InsertAdds(x, s[1..]);
      assert multiset(s) == multiset{s[0]} + multiset(s[1..]) by {
        assert s == [s[0]] + s[1..];
      }
      assert Insert(x, s) == [s[0]] + Insert(x, s[1..]);
    }
  }

  /** Insertion into an ascending sequence keeps it ascending. */
  lemma {:induction false} InsertKeepsAscending(x: real, s: seq<real>)
    requires Ascending(s)
    ensures Ascending(Insert(x, s))
  {
    if s != [] && x > s[0] {
      var tail := Insert(x, s[1..]);
      InsertKeepsAscending(x, s[1..]);
      forall k | 0 <= k < |s[1..]| ensures s[0] <= s[1..][k] {
        assert s[1..][k] == s[k + 1];
      }
      InsertAbove(x, s[1..], s[0]);
      var r := [s[0]] + tail;
      forall i, j | 0 <= i < j < |r| ensures r[i] <= r[j] {
        assert r[j] == tail[j - 1];
        if i > 0 {
          assert r[i] == tail[i - 1];
        }
      }
    }
  }

  /** A lower bound of `x` and of every element of `s` bounds every element
      of the insertion. */
  lemma {:induction false} InsertAbove(x: real, s: seq<real>, lo: real)
    requires lo <= x
    requires forall k :: 0 <= k < |s| ==> lo <= s[k]
    ensures forall k :: 0 <= k < |Insert(x, s)| ==> lo <= Insert(x, s)[k]
  {
    if s != [] && x > s[0] {
      InsertAbove(x, s[1..], lo);
      var r := Insert(x, s);
      assert r == [s[0]] + Insert(x, s[1..]);
      forall k | 1 <= k < |r| ensures lo <= r[k] {
        assert r[k] == Insert(x, s[1..])[k - 1];
      }
    }
  }

  /** Insertion sort: the sorted copy the median is read from. */
  function SortAscending(xs: seq<real>): (r: seq<real>)
    ensures |r| == |xs|
  {
    if xs == [] then [] else Insert(xs[0], SortAscending(xs[1..]))
  }

  /** The sorted copy is ascending and a permutation of the values. */
  lemma {:induction false} SortAscendingSorts(xs: seq<real>)
    ensures Ascending(SortAscending(xs))
    ensures multiset(SortAscending(xs)) == multiset(xs)
  {
    if xs != [] {
      SortAscendingSorts(xs[1..]);
      InsertKeepsAscending(xs[0], SortAscending(xs[1..]));
      InsertAdds(xs[0], SortAscending(xs[1..]));
      assert xs == [xs[0]] + xs[1..];
    }
  }

  lemma InSortedIsIn(xs: seq<real>, s: seq<real>, k: int)
    requires xs != [] && multiset(s) == multiset(xs) && 0 <= k < |s|
    ensures Min(xs) <= s[k] <= Max(xs)
  {
    assert s[k] in multiset(xs);
    var i :| 0 <= i < |xs| && xs[i] == s[k];
    MinIsLeast(xs);
    MaxIsGreatest(xs);
  }

  /** Values bounded by lo and hi have a sum between |xs| * lo and |xs| * hi. */
  lemma {:induction false} SumBetween(xs: seq<real>, lo: real, hi: real)
    requires forall i :: 0 <= i < |xs| ==> lo <= xs[i] <= hi
    ensures lo * (|xs| as real) <= Sum(xs) <= hi * (|xs| as real)
  {
    if xs != [] {
      SumBetween(xs[1..], lo, hi);
      var n := |xs[1..]| as real;
      assert lo * (n + 1.0) == lo * n + lo;
      assert hi * (n + 1.0) == hi * n + hi;
    }
  }

  lemma DivideBetween(s: real, n: real, lo: real, hi: real)
    requires n > 0.0
    requires lo * n <= s <= hi * n
    ensures lo <= s / n <= hi
  {
  }
}

/** `percentile` and `summarize` of util.py, over the reals. */
module Percentile {
  import opened Text

  predicate Sorted(s: seq<real>) {
    s == [] || ((forall x :: x in s[1..] ==> s[0] <= x) && Sorted(s[1..]))
  }

  lemma {:induction false} SortedAt(s: seq<real>, i: nat, j: nat)
    requires Sorted(s) && i <= j < |s|
    ensures s[i] <= s[j]
  {
    if i > 0 {
      SortedAt(s[1..], i - 1, j - 1);
    } else if j > 0 {
      assert s[1..][j - 1] == s[j] && s[j] in s[1..];
    }
  }

  function Insert(x: real, s: seq<real>): seq<real> {
    if s == [] || x <= s[0] then [x] + s else [s[0]] + Insert(x, s[1..])
  }

  /** `sorted(values)` */
  function Sort(s: seq<real>): seq<real> {
    if s == [] then [] else Insert(s[0], Sort(s[1..]))
  }

  lemma {:induction false} InsertKeeps(x: real, s: seq<real>)
    ensures multiset(Insert(x, s)) == multiset{x} + multiset(s)
  {
    if s != [] && x > s[0] {
      InsertKeeps(x, s[1..]);
      assert s == [s[0]] + s[1..];
    }
  }

  lemma {:induction false} InsertSorts(x: real, s: seq<real>)
    requires Sorted(s)
    ensures Sorted(Insert(x, s))
  {
    if s == [] {
    } else if x <= s[0] {
      assert ([x] + s)[1..] == s;
      assert forall y :: y in s ==> y == s[0] || y in s[1..];
    } else {
      var rest := s[1..];
      var t := Insert(x, rest);
      InsertSorts(x, rest);
      InsertKeeps(x, rest);
      assert ([s[0]] + t)[1..] == t;
      forall y | y in t
        ensures s[0] <= y
      {
        assert y in multiset(t);
        if y != x {
          assert y in multiset(rest);
          assert y in s[1..];
        }
      }
    }
  }

  lemma {:induction false} SortSorts(s: seq<real>)
    ensures Sorted(Sort(s)) && multiset(Sort(s)) == multiset(s) && |Sort(s)| == |s|
  {
    if s != [] {
      SortSorts(s[1..]);
      InsertSorts(s[0], Sort(s[1..]));
      InsertKeeps(s[0], Sort(s[1..]));
      assert s == [s[0]] + s[1..];
      SameLength(Sort(s), s);
    }
  }

  lemma SameLength(s: seq<real>, t: seq<real>)
    requires multiset(s) == multiset(t)
    ensures |s| == |t|
  {
    assert |multiset(s)| == |s| && |multiset(t)| == |t|;
  }

  lemma EndsBound(s: seq<real>, x: real)
    requires Sorted(s) && x in multiset(s)
    ensures s[0] <= x <= s[|s| - 1]
  {
    var i :| 0 <= i < |s| && s[i] == x;
    SortedAt(s, 0, i);
    SortedAt(s, i, |s| - 1);
  }

  lemma TailMultiset(s: seq<real>)
    requires s != []
    ensures multiset(s[1..]) == multiset(s) - multiset{s[0]} && s[0] in multiset(s)
  {
    assert s == [s[0]] + s[1..];
  }

  lemma FirstsAgree(s: seq<real>, t: seq<real>)
    requires s != [] && t != [] && Sorted(s) && Sorted(t) && multiset(s) == multiset(t)
    ensures s[0] == t[0]
  {
    assert s[0] in multiset(s) && t[0] in multiset(t);
    EndsBound(s, t[0]);
    EndsBound(t, s[0]);
  }

  lemma {:induction false} SortedUnique(s: seq<real>, t: seq<real>)
    requires Sorted(s) && Sorted(t) && multiset(s) == multiset(t)
    ensures s == t
  {
    SameLength(s, t);
    if s != [] {
      FirstsAgree(s, t);
      TailMultiset(s);
      TailMultiset(t);
      var a, b := s[1..], t[1..];
      assert Sorted(a) && Sorted(b);
      hide Sorted;
      SortedUnique(a, b);
      assert s == [s[0]] + a && t == [t[0]] + b;
    }
  }

  /** Sorting forgets the order the values arrived in. */
  lemma SortForgetsOrder(s: seq<real>, t: seq<real>)
    requires multiset(s) == multiset(t)
    ensures Sort(s) == Sort(t)
  {
    SortSorts(s);
    SortSorts(t);
    SortedUnique(Sort(s), Sort(t));
  }

  function Ceil(x: real): int {
    if x.Floor as real == x then x.Floor else x.Floor + 1
  }

  function Interpolate(a: real, b: real, part: real): real {
    a + (b - a) * part
  }

  /** The value at a fractional rank of an ordered list. */
  function AtRank(ordered: seq<real>, rank: real): real
    requires 0.0 <= rank <= (|ordered| - 1) as real
  {
    var low, high := rank.Floor, Ceil(rank);
    if low == high then ordered[low]
    else Interpolate(ordered[low], ordered[high], rank - low as real)
  }

  function Rank(n: real, pct: real): real {
    n * pct
  }

  lemma Scaled(n: real, p: real, q: real)
    requires n >= 0.0 && p <= q
    ensures Rank(n, p) <= Rank(n, q)
  {
    assert n * (q - p) >= 0.0;
  }

  lemma RankBounds(n: real, p: real, q: real)
    requires n >= 0.0 && 0.0 <= p <= q <= 1.0
    ensures 0.0 <= Rank(n, p) <= Rank(n, q) <= n
  {
    assert Rank(n, 0.0) == 0.0 && Rank(n, 1.0) == n;
    hide Rank;
    Scaled(n, 0.0, p);
    Scaled(n, p, q);
    Scaled(n, q, 1.0);
  }

  function OfOrdered(ordered: seq<real>, pct: real): real
    requires ordered != [] && 0.0 <= pct <= 1.0
  {
    if |ordered| == 1 then ordered[0] else
      RankBounds((|ordered| - 1) as real, pct, pct);
      AtRank(ordered, Rank((|ordered| - 1) as real, pct))
  }

  /** `None` stands for the not-a-number answer to an empty list. */
  function Percentile(values: seq<real>, pct: real): Option<real>
    requires 0.0 <= pct <= 1.0
  {
    if values == [] then None else
      SortSorts(values);
      Some(OfOrdered(Sort(values), pct))
  }

  function MiddleOf(ordered: seq<real>): real
    requires ordered != []
  {
    var n := |ordered|;
    if n % 2 == 1 then ordered[n / 2] else (ordered[n / 2 - 1] + ordered[n / 2]) / 2.0
  }

  /** `statistics.median`, and MEDIAN of MariaDB: the middle value or the mean of the middle two. */
  function Median(values: seq<real>): Option<real> {
    if values == [] then None else
      SortSorts(values);
      Some(MiddleOf(Sort(values)))
  }

  lemma Between(lo: real, hi: real, p: real, q: real)
    requires lo <= hi && 0.0 <= p <= q <= 1.0
    ensures lo <= Interpolate(lo, hi, p) <= Interpolate(lo, hi, q) <= hi
  {
    Scaled(hi - lo, 0.0, p);
    Scaled(hi - lo, p, q);
    Scaled(hi - lo, q, 1.0);
  }

  /** Where there is a next element, the value is an interpolation towards it. */
  lemma AtRankInterpolates(s: seq<real>, rank: real)
    requires 0.0 <= rank <= (|s| - 1) as real
    ensures var low := rank.Floor;
            if low + 1 < |s| then AtRank(s, rank) == Interpolate(s[low], s[low + 1], rank - low as real)
            else AtRank(s, rank) == s[low]
  {
    if Ceil(rank) == rank.Floor {
      assert rank - rank.Floor as real == 0.0;
    }
  }

  lemma AtRankBetween(s: seq<real>, rank: real)
    requires Sorted(s) && 0.0 <= rank <= (|s| - 1) as real
    ensures s[rank.Floor] <= AtRank(s, rank)
    ensures rank.Floor + 1 < |s| ==> AtRank(s, rank) <= s[rank.Floor + 1]
    ensures s[0] <= AtRank(s, rank) <= s[|s| - 1]
  {
    var low := rank.Floor;
    AtRankInterpolates(s, rank);
    SortedAt(s, 0, low);
    if low + 1 < |s| {
      SortedAt(s, low, low + 1);
      SortedAt(s, low + 1, |s| - 1);
      var part := rank - low as real;
      Between(s[low], s[low + 1], part, part);
    }
  }

  lemma AtRankMonotone(s: seq<real>, r1: real, r2: real)
    requires Sorted(s) && 0.0 <= r1 <= r2 <= (|s| - 1) as real
    ensures AtRank(s, r1) <= AtRank(s, r2)
  {
    var low := r1.Floor;
    if low == r2.Floor {
      AtRankInterpolates(s, r1);
      AtRankInterpolates(s, r2);
      if low + 1 < |s| {
        SortedAt(s, low, low + 1);
        Between(s[low], s[low + 1], r1 - low as real, r2 - low as real);
      }
    } else {
      AtRankBetween(s, r1);
      AtRankBetween(s, r2);
      SortedAt(s, low + 1, r2.Floor);
    }
  }

  lemma OfOrderedMonotone(s: seq<real>, p: real, q: real)
    requires Sorted(s) && s != [] && 0.0 <= p <= q <= 1.0
    ensures s[0] <= OfOrdered(s, p) <= OfOrdered(s, q) <= s[|s| - 1]
  {
    var n := (|s| - 1) as real;
    if |s| > 1 {
      RankBounds(n, p, q);
      RanksOrdered(s, Rank(n, p), Rank(n, q));
    }
  }

  lemma RanksOrdered(s: seq<real>, r1: real, r2: real)
    requires Sorted(s) && 0.0 <= r1 <= r2 <= (|s| - 1) as real
    ensures s[0] <= AtRank(s, r1) <= AtRank(s, r2) <= s[|s| - 1]
  {
    AtRankMonotone(s, r1, r2);
    AtRankBetween(s, r1);
    AtRankBetween(s, r2);
  }

  /** A larger share never gives a smaller percentile, and none leaves the range of the values. */
  lemma PercentileMonotone(values: seq<real>, p: real, q: real)
    requires values != [] && 0.0 <= p <= q <= 1.0
    ensures Min(values) <= Percentile(values, p).value <= Percentile(values, q).value <= Max(values)
  {
    SortSorts(values);
    ExtremesOfSorted(values);
    OfOrderedMonotone(Sort(values), p, q);
  }

  /** The order of the values never matters. */
  lemma PercentileForgetsOrder(s: seq<real>, t: seq<real>, pct: real)
    requires multiset(s) == multiset(t) && 0.0 <= pct <= 1.0
    ensures Percentile(s, pct) == Percentile(t, pct)
    ensures Median(s) == Median(t)
  {
    SortForgetsOrder(s, t);
    SameLength(s, t);
  }

  lemma HalfOfOrdered(s: seq<real>)
    requires s != []
    ensures OfOrdered(s, 0.5) == MiddleOf(s)
  {
    var n := |s|;
    var rank := (n - 1) as real * 0.5;
    if n % 2 == 1 {
      assert rank == (n / 2) as real;
    } else {
      assert rank == (n / 2 - 1) as real + 0.5;
      assert rank.Floor == n / 2 - 1;
    }
  }

  /** Half way up the list is its median, for odd and for even lengths. */
  lemma HalfIsMedian(values: seq<real>)
    ensures Percentile(values, 0.5) == Median(values)
  {
    if values != [] {
      SortSorts(values);
      HalfOfOrdered(Sort(values));
    }
  }

  // ---------------------------------------------- what is computed

  /** The values in ascending order. */
  ghost predicate Arranges(ordered: seq<real>, values: seq<real>) {
    multiset(ordered) == multiset(values) && forall i, j :: 0 <= i < j < |ordered| ==> ordered[i] <= ordered[j]
  }

  /**
   * Of `n` values in order the percentile is the one at position `pct * (n - 1)`, and between two
   * positions it moves in a straight line from the one value to the next.
   */
  ghost predicate LiesAt(ordered: seq<real>, pct: real, v: real)
    requires ordered != [] && 0.0 <= pct <= 1.0
  {
    WithinList(|ordered|, pct);
    var position := (|ordered| - 1) as real * pct;
    var k, part := position.Floor, position - position.Floor as real;
    v == if k + 1 < |ordered| then (1.0 - part) * ordered[k] + part * ordered[k + 1] else ordered[k]
  }

  lemma WithinList(n: nat, pct: real)
    requires n > 0 && 0.0 <= pct <= 1.0
    ensures 0.0 <= (n - 1) as real * pct <= (n - 1) as real
  {
    RankBounds((n - 1) as real, pct, pct);
  }

  lemma {:induction false} AscendingIsSorted(s: seq<real>)
    requires forall i, j :: 0 <= i < j < |s| ==> s[i] <= s[j]
    ensures Sorted(s)
  {
    if s != [] {
      AscendingIsSorted(s[1..]);
      forall x | x in s[1..]
        ensures s[0] <= x
      {
        var i :| 0 <= i < |s[1..]| && s[1..][i] == x;
        assert s[i + 1] == x;
      }
    }
  }

  lemma ArrangedIsSort(ordered: seq<real>, values: seq<real>)
    requires Arranges(ordered, values)
    ensures Sort(values) == ordered && |ordered| == |values|
  {
    AscendingIsSorted(ordered);
    SortSorts(values);
    SortedUnique(Sort(values), ordered);
    SameLength(ordered, values);
  }

  lemma Mixed(a: real, b: real, part: real)
    ensures Interpolate(a, b, part) == (1.0 - part) * a + part * b
  {
    assert (b - a) * part == b * part - a * part;
  }

  /** For the values in any ascending order the percentile lies where it should. */
  lemma PercentileLies(values: seq<real>, ordered: seq<real>, pct: real)
    requires values != [] && Arranges(ordered, values) && 0.0 <= pct <= 1.0
    ensures ordered != [] && Percentile(values, pct).Some? && LiesAt(ordered, pct, Percentile(values, pct).value)
  {
    ArrangedIsSort(ordered, values);
    SortSorts(values);
    OrderedLies(ordered, pct);
    hide LiesAt, OfOrdered, Sort;
  }

  lemma OrderedLies(ordered: seq<real>, pct: real)
    requires ordered != [] && 0.0 <= pct <= 1.0
    ensures LiesAt(ordered, pct, OfOrdered(ordered, pct))
  {
    var position := Rank((|ordered| - 1) as real, pct);
    RankBounds((|ordered| - 1) as real, pct, pct);
    RankOfLies(ordered, pct);
    hide Rank;
    if |ordered| > 1 {
      AtRankInterpolates(ordered, position);
      if position.Floor + 1 < |ordered| {
        Mixed(ordered[position.Floor], ordered[position.Floor + 1], position - position.Floor as real);
      }
      hide AtRank, Interpolate;
    }
  }

  lemma RankOfLies(ordered: seq<real>, pct: real)
    requires ordered != [] && 0.0 <= pct <= 1.0
    ensures 0.0 <= Rank((|ordered| - 1) as real, pct) <= (|ordered| - 1) as real
    ensures forall v :: LiesAt(ordered, pct, v) <==>
              var position := Rank((|ordered| - 1) as real, pct);
              var k, part := position.Floor, position - position.Floor as real;
              v == if k + 1 < |ordered| then (1.0 - part) * ordered[k] + part * ordered[k + 1] else ordered[k]
  {
    RankBounds((|ordered| - 1) as real, pct, pct);
  }

  /** What a benchmark reports of its values. */
  lemma SummaryIs(values: seq<real>, ordered: seq<real>)
    requires values != [] && Arranges(ordered, values)
    ensures |ordered| == |values| && Summarize(values).Summary?
    ensures var r, n := Summarize(values), |values|;
            && r.count == n && r.min == ordered[0] && r.max == ordered[n - 1]
            && LiesAt(ordered, 0.5, r.median) && LiesAt(ordered, 0.95, r.p95) && LiesAt(ordered, 0.99, r.p99)
  {
    ArrangedIsSort(ordered, values);
    ExtremesOfSorted(values);
    HalfIsMedian(values);
    hide *;
    PercentileLies(values, ordered, 0.5);
    PercentileLies(values, ordered, 0.95);
    PercentileLies(values, ordered, 0.99);
    SummaryParts(values);
  }

  /** The mean is the share of each of the values in their sum. */
  lemma MeanTimesCount(values: seq<real>)
    requires values != []
    ensures Summarize(values).Summary? && Summarize(values).mean * |values| as real == Sum(values)
  {
    hide *;
    MeanOf(values);
    Share(Summarize(values).mean, Sum(values), |values| as real);
  }

  lemma MeanOf(values: seq<real>)
    requires values != []
    ensures Summarize(values).Summary? && Summarize(values).mean == Sum(values) / |values| as real
  {
  }

  lemma Share(mean: real, sum: real, n: real)
    requires n > 0.0 && mean == sum / n
    ensures mean * n == sum
  {
  }

  lemma SummaryParts(values: seq<real>)
    requires values != []
    ensures Percentile(values, 0.5).Some? && Percentile(values, 0.95).Some? && Percentile(values, 0.99).Some?
    ensures Median(values).Some?
    ensures var r := Summarize(values);
            && r.Summary? && r.count == |values| && r.min == Min(values) && r.max == Max(values)
            && r.median == Median(values).value && r.p95 == Percentile(values, 0.95).value
            && r.p99 == Percentile(values, 0.99).value && r.mean == Sum(values) / |values| as real
  {
    SortSorts(values);
    hide Sort, Min, Max, Sum, OfOrdered, MiddleOf;
  }

  function Min(s: seq<real>): real
    requires s != []
  {
    if |s| == 1 || s[0] <= Min(s[1..]) then s[0] else Min(s[1..])
  }

  function Max(s: seq<real>): real
    requires s != []
  {
    if |s| == 1 || s[0] >= Max(s[1..]) then s[0] else Max(s[1..])
  }

  function Sum(s: seq<real>): real {
    if s == [] then 0.0 else s[0] + Sum(s[1..])
  }

  lemma {:induction false} ExtremesBound(s: seq<real>)
    requires s != []
    ensures Min(s) in s && Max(s) in s
    ensures forall x :: x in s ==> Min(s) <= x <= Max(s)
  {
    assert s == [s[0]] + s[1..];
    if |s| > 1 {
      ExtremesBound(s[1..]);
    }
  }

  lemma ExtremesOfSorted(values: seq<real>)
    requires values != []
    ensures |Sort(values)| == |values|
    ensures Sort(values)[0] == Min(values) && Sort(values)[|values| - 1] == Max(values)
  {
    SortSorts(values);
    ExtremesBound(values);
    var s := Sort(values);
    assert s[0] in multiset(s) && s[|s| - 1] in multiset(s);
    assert Min(values) in multiset(values) && Max(values) in multiset(values);
    assert s[0] in values && s[|s| - 1] in values;
    EndsBound(s, Min(values));
    EndsBound(s, Max(values));
  }

  lemma {:induction false} SumBetween(s: seq<real>, lo: real, hi: real)
    requires forall x :: x in s ==> lo <= x <= hi
    ensures |s| as real * lo <= Sum(s) <= |s| as real * hi
  {
    if s != [] {
      assert s[0] in s && forall x :: x in s[1..] ==> x in s;
      SumBetween(s[1..], lo, hi);
      assert |s| as real * lo == lo + |s[1..]| as real * lo;
      assert |s| as real * hi == hi + |s[1..]| as real * hi;
    }
  }

  datatype Summary =
    | CountOnly
    | Summary(count: nat, min: real, median: real, p95: real, p99: real, max: real, mean: real)

  function Summarize(values: seq<real>): Summary {
    if values == [] then CountOnly
    else Summary(|values|, Min(values), Median(values).value, Percentile(values, 0.95).value,
                 Percentile(values, 0.99).value, Max(values), Sum(values) / |values| as real)
  }

  /** Every summary a benchmark reports is internally ordered. */
  lemma SummaryOrdered(values: seq<real>)
    requires values != []
    ensures var r := Summarize(values);
            && r.min <= r.median <= r.p95 <= r.p99 <= r.max
            && r.min <= r.mean <= r.max
  {
    hide Percentile, Median, Min, Max, Sum;
    PercentileMonotone(values, 0.5, 0.95);
    PercentileMonotone(values, 0.95, 0.99);
    HalfIsMedian(values);
    MeanBounded(values);
  }

  lemma MeanBounded(values: seq<real>)
    requires values != []
    ensures Min(values) <= Sum(values) / |values| as real <= Max(values)
  {
    ExtremesBound(values);
    SumBetween(values, Min(values), Max(values));
    MeanBetween(Sum(values), |values| as real, Min(values), Max(values));
  }

  lemma MeanBetween(sum: real, n: real, lo: real, hi: real)
    requires n > 0.0 && n * lo <= sum <= n * hi
    ensures lo <= sum / n <= hi
  {
    assert sum == n * (sum / n);
  }
}

/** Percentiles and averages of a window of latencies (integer nanoseconds). */
module OrderStatistics {
  import opened Sorting

  function Same(x: int): int { x }

  function Sum(s: seq<int>): int {
    if s == [] then 0 else Sum(s[..|s| - 1]) + s[|s| - 1]
  }

  /** Duration.Milliseconds: truncation toward zero. */
  function Milliseconds(d: int): int {
    if d >= 0 then d / 1_000_000 else -((-d) / 1_000_000)
  }

  /** The index n*p/100 that picks the p-th percentile of n sorted samples. */
  function Rank(n: nat, p: nat): (i: nat)
    requires n > 0 && p < 100
    ensures i < n
  {
    assert n * p <= n * 99;
    n * p / 100
  }

  function Percentile(s: seq<int>, p: nat): int
    requires s != [] && p < 100
  {
    var sorted := Sort(s, Same);
    SortKeeps(s, Same);
    sorted[Rank(|s|, p)]
  }

  // ---- rank ----

  function Below(s: seq<int>, v: int): nat {
    if s == [] then 0 else Below(s[1..], v) + if s[0] < v then 1 else 0
  }

  function AtMost(s: seq<int>, v: int): nat {
    if s == [] then 0 else AtMost(s[1..], v) + if s[0] <= v then 1 else 0
  }

  lemma {:induction false} InsertCounts(x: int, s: seq<int>, v: int)
    ensures Below(Insert(x, s, Same), v) == Below(s, v) + if x < v then 1 else 0
    ensures AtMost(Insert(x, s, Same), v) == AtMost(s, v) + if x <= v then 1 else 0
  {
    if s != [] && x > s[0] {
      InsertCounts(x, s[1..], v);
      assert Insert(x, s, Same)[1..] == Insert(x, s[1..], Same);
    } else {
      assert Insert(x, s, Same)[1..] == s;
    }
  }

  lemma {:induction false} SortCounts(s: seq<int>, v: int)
    ensures Below(Sort(s, Same), v) == Below(s, v)
    ensures AtMost(Sort(s, Same), v) == AtMost(s, v)
  {
    if s != [] {
      SortCounts(s[1..], v);
      InsertCounts(s[0], Sort(s[1..], Same), v);
    }
  }

  /** In an ascending sequence position i has at most i smaller elements and at least
      i + 1 that are no larger. */
  lemma {:induction false} AscendingCounts(s: seq<int>, i: nat, v: int)
    requires Ascending(s, Same) && i < |s|
    ensures v <= s[i] ==> Below(s, v) <= i
    ensures s[i] <= v ==> AtMost(s, v) >= i + 1
  {
    if i > 0 {
      AscendingCounts(s[1..], i - 1, v);
    } else if v <= s[0] {
      NothingBelow(s, v);
    }
  }

  lemma {:induction false} NothingBelow(s: seq<int>, v: int)
    requires forall i :: 0 <= i < |s| ==> v <= s[i]
    ensures Below(s, v) == 0
  {
    if s != [] {
      NothingBelow(s[1..], v);
    }
  }

  /** The chosen latency is a sample; at most ⌊m·p/100⌋ samples lie strictly below it and
      at least ⌊m·p/100⌋ + 1 at or below it. */
  lemma PercentileRank(s: seq<int>, p: nat)
    requires s != [] && p < 100
    ensures var v := Percentile(s, p);
            && v in s
            && Below(s, v) <= |s| * p / 100
            && AtMost(s, v) >= |s| * p / 100 + 1
  {
    var v := Percentile(s, p);
    SortKeeps(s, Same);
    assert v in multiset(Sort(s, Same));
    SortCounts(s, v);
    AscendingCounts(Sort(s, Same), Rank(|s|, p), v);
  }

  /** r is d in whole milliseconds, cut off toward zero. */
  ghost predicate IsWholeMilliseconds(d: int, r: int) {
    if d >= 0 then 1_000_000 * r <= d < 1_000_000 * (r + 1)
    else 1_000_000 * (r - 1) < d <= 1_000_000 * r
  }

  lemma MillisecondsCutOff(d: int, r: int)
    ensures IsWholeMilliseconds(d, r) <==> r == Milliseconds(d)
  {
  }

  /** The value is one of the samples in whole milliseconds, with at most ⌊m·p/100⌋ samples
      strictly below it and at least one more at or below it. */
  ghost predicate IsPercentile(value: real, s: seq<int>, p: nat) {
    exists v, r: int ::
      && v in s && IsWholeMilliseconds(v, r) && value == r as real
      && Below(s, v) <= |s| * p / 100 && AtMost(s, v) >= |s| * p / 100 + 1
  }

  /** The value is the total in whole milliseconds over the number of samples. */
  ghost predicate IsAverage(value: real, s: seq<int>)
    requires s != []
  {
    exists r :: IsWholeMilliseconds(Sum(s), r) && value == r as real / |s| as real
  }

  lemma PercentileIs(s: seq<int>, p: nat)
    requires s != [] && p < 100
    ensures IsPercentile(Milliseconds(Percentile(s, p)) as real, s, p)
  {
    PercentileRank(s, p);
    MillisecondsCutOff(Percentile(s, p), Milliseconds(Percentile(s, p)));
  }

  lemma AverageIs(s: seq<int>)
    requires s != []
    ensures IsAverage(Milliseconds(Sum(s)) as real / |s| as real, s)
  {
    MillisecondsCutOff(Sum(s), Milliseconds(Sum(s)));
  }

  lemma MillisecondsMonotone(a: int, b: int)
    requires a <= b
    ensures Milliseconds(a) <= Milliseconds(b)
  {
  }

  lemma RankMonotone(n: nat, p: nat, q: nat)
    requires n > 0 && p <= q < 100
    ensures Rank(n, p) <= Rank(n, q)
  {
    assert n * p <= n * q;
  }

  lemma PercentilesOrdered(s: seq<int>, p: nat, q: nat)
    requires s != [] && p <= q < 100
    ensures Milliseconds(Percentile(s, p)) <= Milliseconds(Percentile(s, q))
  {
    SortKeeps(s, Same);
    RankMonotone(|s|, p, q);
    var i, j := Rank(|s|, p), Rank(|s|, q);
    assert Same(Sort(s, Same)[i]) <= Same(Sort(s, Same)[j]);
    MillisecondsMonotone(Percentile(s, p), Percentile(s, q));
  }

  // ---- average ----

  lemma {:induction false} SumConcat(s: seq<int>, t: seq<int>)
    ensures Sum(s + t) == Sum(s) + Sum(t)
  {
    if t == [] {
      assert s + t == s;
    } else {
      assert (s + t)[..|s + t| - 1] == s + t[..|t| - 1];
      SumConcat(s, t[..|t| - 1]);
    }
  }

  lemma SumOneMore(s: seq<int>, i: nat)
    requires i < |s|
    ensures Sum(s[..i + 1]) == Sum(s[..i]) + s[i]
  {
    assert s[..i + 1][..i] == s[..i];
  }

  lemma {:induction false} SumInsert(x: int, s: seq<int>)
    ensures Sum(Insert(x, s, Same)) == x + Sum(s)
  {
    SumConcat([x], s);
    if s != [] && x > s[0] {
      SumInsert(x, s[1..]);
      SumConcat([s[0]], Insert(x, s[1..], Same));
      SumConcat([s[0]], s[1..]);
      assert [s[0]] + s[1..] == s;
    }
  }

  lemma {:induction false} SumSort(s: seq<int>)
    ensures Sum(Sort(s, Same)) == Sum(s)
  {
    if s != [] {
      SumSort(s[1..]);
      SumInsert(s[0], Sort(s[1..], Same));
      SumConcat([s[0]], s[1..]);
      assert [s[0]] + s[1..] == s;
    }
  }

  lemma {:induction false} SumBounds(s: seq<int>, lo: int, hi: int)
    requires forall i :: 0 <= i < |s| ==> lo <= s[i] <= hi
    ensures |s| * lo <= Sum(s) <= |s| * hi
  {
    if s != [] {
      SumBounds(s[..|s| - 1], lo, hi);
      assert |s| * lo == (|s| - 1) * lo + lo && |s| * hi == (|s| - 1) * hi + hi;
    }
  }

  /** For non-negative samples the average of the total's whole milliseconds is at least
      the smallest sample in whole milliseconds and less than the largest plus one. */
  lemma AverageBounds(s: seq<int>, lo: int, hi: int)
    requires s != [] && 0 <= lo && forall i :: 0 <= i < |s| ==> lo <= s[i] <= hi
    ensures var avg := Milliseconds(Sum(s)) as real / |s| as real;
            Milliseconds(lo) as real <= avg < (Milliseconds(hi) + 1) as real
  {
    SumBounds(s, lo, hi);
    MillisecondsOfTotal(|s|, Sum(s), lo, hi);
    QuotientBounds(|s|, Milliseconds(lo), Milliseconds(Sum(s)), Milliseconds(hi) + 1);
  }

  lemma MillisecondsOfTotal(n: nat, total: int, lo: int, hi: int)
    requires n > 0 && 0 <= lo <= hi && n * lo <= total <= n * hi
    ensures n * Milliseconds(lo) <= Milliseconds(total) < n * (Milliseconds(hi) + 1)
  {
    var a, b := Milliseconds(lo), Milliseconds(hi);
    ScaleMonotone(n, 1_000_000 * a, lo);
    ScaleMonotone(n, hi + 1, 1_000_000 * (b + 1));
    assert n * (1_000_000 * a) == 1_000_000 * (n * a);
    assert n * (1_000_000 * (b + 1)) == 1_000_000 * (n * (b + 1));
    assert n * (hi + 1) == n * hi + n;
  }

  lemma ScaleMonotone(n: nat, a: int, b: int)
    requires a <= b
    ensures n * a <= n * b
  {
  }

  lemma QuotientBounds(n: nat, a: int, m: int, b: int)
    requires n > 0 && n * a <= m < n * b
    ensures a as real <= m as real / n as real < b as real
  {
    var nr, mr := n as real, m as real;
    assert (n * a) as real == nr * a as real;
    assert (n * b) as real == nr * b as real;
    assert (nr * a as real) / nr == a as real;
    assert (nr * b as real) / nr == b as real;
  }
}

/** History points and their order: what GetHistory reads off the ring. */
module History {
  import opened Sorting
  import opened OrderStatistics
  import opened EventLog
  import opened Ring
  import opened Aggregation

  /** The history point of a bucket. */
  function PointOf(b: Bucket): DataPoint {
    var c := b.counts;
    if c.latencies == [] then DataPoint(b.timestamp, c.requests, c.errors, 0.0, 0.0, 0.0, 0.0)
    else DataPoint(b.timestamp, c.requests, c.errors,
                   Milliseconds(c.totalLatency) as real / |c.latencies| as real,
                   Milliseconds(Percentile(c.latencies, 50)) as real,
                   Milliseconds(Percentile(c.latencies, 90)) as real,
                   Milliseconds(Percentile(c.latencies, 99)) as real)
  }

  /** The points stamped no earlier than `from`. */
  function Since(points: seq<DataPoint>, from: int): seq<DataPoint> {
    if points == [] then []
    else
      var last := points[|points| - 1];
      var before := Since(points[..|points| - 1], from);
      if last.timestamp < from then before else before + [last]
  }

  function TimestampOf(p: DataPoint): int { p.timestamp }

  function Points(ring: seq<Bucket>): seq<DataPoint> {
    seq(|ring|, i requires 0 <= i < |ring| => PointOf(ring[i]))
  }

  // ---- sorting the array undoes the ring's rotation ----

  lemma {:induction false} SinceConcat(s: seq<DataPoint>, t: seq<DataPoint>, from: int)
    ensures Since(s + t, from) == Since(s, from) + Since(t, from)
  {
    if t == [] {
      assert s + t == s;
    } else {
      assert (s + t)[..|s + t| - 1] == s + t[..|t| - 1];
      SinceConcat(s, t[..|t| - 1], from);
    }
  }

  lemma SinceOneMore(points: seq<DataPoint>, i: nat, from: int)
    requires i < |points|
    ensures Since(points[..i + 1], from)
            == if points[i].timestamp < from then Since(points[..i], from)
               else Since(points[..i], from) + [points[i]]
  {
    assert points[..i + 1][..i] == points[..i];
  }

  lemma {:induction false} SinceNone(points: seq<DataPoint>, from: int)
    requires forall i :: 0 <= i < |points| ==> points[i].timestamp < from
    ensures Since(points, from) == []
  {
    if points != [] {
      SinceNone(points[..|points| - 1], from);
    }
  }

  lemma {:induction false} SinceAll(points: seq<DataPoint>, from: int)
    requires forall i :: 0 <= i < |points| ==> points[i].timestamp >= from
    ensures Since(points, from) == points
  {
    if points != [] {
      SinceAll(points[..|points| - 1], from);
    }
  }

  /** From m on, the points are stamped no earlier than `from`, and before it earlier. */
  ghost predicate CutsAt(points: seq<DataPoint>, from: int, m: nat) {
    m <= |points| && forall i :: 0 <= i < |points| ==> (points[i].timestamp >= from <==> i >= m)
  }

  lemma {:induction false} AscendingCut(points: seq<DataPoint>, from: int) returns (m: nat)
    requires StrictlyAscending(points)
    ensures CutsAt(points, from, m)
  {
    m := 0;
    while m < |points| && points[m].timestamp < from
      invariant m <= |points| && forall i :: 0 <= i < m ==> points[i].timestamp < from
    {
      m := m + 1;
    }
  }

  /** On ascending points, the points since a time are a suffix. */
  lemma SinceIsSuffix(points: seq<DataPoint>, from: int) returns (m: nat)
    requires StrictlyAscending(points)
    ensures CutsAt(points, from, m) && Since(points, from) == points[m..]
  {
    m := AscendingCut(points, from);
    SinceConcat(points[..m], points[m..], from);
    SinceNone(points[..m], from);
    SinceAll(points[m..], from);
    assert points[..m] + points[m..] == points;
  }

  lemma SinceSorts(s: seq<DataPoint>, t: seq<DataPoint>, from: int)
    requires StrictlyAscending(t + s)
    ensures Sort(Since(s + t, from), TimestampOf) == Since(t + s, from)
  {
    SinceConcat(s, t, from);
    SinceConcat(t, s, from);
    var m := SinceIsSuffix(t + s, from);
    SuffixAscending(t + s, m);
    SortIsTheOnly(Since(s + t, from), Since(t + s, from), TimestampOf);
  }

  lemma SuffixAscending(points: seq<DataPoint>, m: nat)
    requires StrictlyAscending(points) && m <= |points|
    ensures StrictlyAscending(points[m..]) && Ascending(points[m..], TimestampOf)
    ensures forall a, b :: a in points[m..] && b in points[m..] && TimestampOf(a) == TimestampOf(b) ==> a == b
  {
  }

  lemma PointStamp(start: int, res: int, log: seq<Event>, n: nat, i: nat)
    requires i < n
    ensures Points(LogRing(start, res, log, n))[i].timestamp == Stamp(Latest(start, log) - (n - 1 - i), res)
  {
    var ring := LogRing(start, res, log, n);
    assert ring[i] == BucketAt(start, res, log, n - 1 - i);
    PointKeepsStamp(ring, i);
  }

  lemma PointKeepsStamp(bs: seq<Bucket>, i: nat)
    requires i < |bs|
    ensures Points(bs)[i].timestamp == bs[i].timestamp
  {
  }

  lemma LogRingAscending(start: int, res: int, log: seq<Event>, n: nat)
    requires res > 0
    ensures StrictlyAscending(Points(LogRing(start, res, log, n)))
  {
    var points := Points(LogRing(start, res, log, n));
    forall i, j | 0 <= i < j < |points|
      ensures points[i].timestamp < points[j].timestamp
    {
      PointsOrdered(start, res, log, n, i, j);
    }
  }

  lemma PointsOrdered(start: int, res: int, log: seq<Event>, n: nat, i: nat, j: nat)
    requires res > 0 && i < j < n
    ensures Points(LogRing(start, res, log, n))[i].timestamp < Points(LogRing(start, res, log, n))[j].timestamp
  {
    PointStamp(start, res, log, n, i);
    PointStamp(start, res, log, n, j);
    StampOrder(Latest(start, log) - (n - 1 - i), Latest(start, log) - (n - 1 - j), res);
  }

  lemma PointsConcat(s: seq<Bucket>, t: seq<Bucket>)
    ensures Points(s + t) == Points(s) + Points(t)
  {
  }

  lemma SortUndoesCut(s: seq<Bucket>, current: int, from: int)
    requires 0 <= current < |s| && StrictlyAscending(Points(Cut(s, current)))
    ensures Sort(Since(Points(s), from), TimestampOf) == Since(Points(Cut(s, current)), from)
  {
    var newer, older := s[..current + 1], s[current + 1..];
    PointsConcat(newer, older);
    PointsConcat(older, newer);
    assert s == newer + older;
    SinceSorts(Points(newer), Points(older), from);
  }

  /** Filtering and sorting the array gives the recent slots of the log, oldest first. */
  lemma SortedArrayIsHistory(s: seq<Bucket>, current: int, start: int, res: int, log: seq<Event>, from: int)
    requires res > 0 && 0 <= current < |s| && Mirrors(Cut(s, current), start, res, log)
    ensures Sort(Since(Points(s), from), TimestampOf)
            == Since(Points(LogRing(start, res, log, |s|)), from)
  {
    MirrorsIsLogRing(Cut(s, current), start, res, log);
    assert |Cut(s, current)| == |s|;
    LogRingAscending(start, res, log, |s|);
    SortUndoesCut(s, current, from);
  }

  /** Neighbouring points are one resolution apart. */
  ghost predicate OneApart(points: seq<DataPoint>, res: int) {
    forall i :: 0 < i < |points| ==> points[i].timestamp == points[i - 1].timestamp + res
  }

  lemma LogRingOneApart(start: int, res: int, log: seq<Event>, n: nat)
    ensures OneApart(Points(LogRing(start, res, log, n)), res)
  {
    var window := Points(LogRing(start, res, log, n));
    forall i | 0 < i < |window|
      ensures window[i].timestamp == window[i - 1].timestamp + res
    {
      PointStamp(start, res, log, n, i - 1);
      PointStamp(start, res, log, n, i);
      StampLater(Latest(start, log) - (n - 1 - (i - 1)), 1, res);
    }
  }

  lemma SuffixOneApart(points: seq<DataPoint>, res: int, m: nat)
    requires OneApart(points, res) && m <= |points|
    ensures OneApart(points[m..], res)
  {
    forall i | 0 < i < |points[m..]|
      ensures points[m..][i].timestamp == points[m..][i - 1].timestamp + res
    {
      assert points[m..][i] == points[m + i] && points[m..][i - 1] == points[m + i - 1];
    }
  }

  /** `history` is the suffix of the points stamped no earlier than `from`. */
  ghost predicate IsRecentSuffix(history: seq<DataPoint>, window: seq<DataPoint>, from: int) {
    && |history| <= |window| && history == window[|window| - |history|..]
    && forall i :: 0 <= i < |window| ==> (window[i].timestamp >= from <==> i >= |window| - |history|)
  }

  /** The history is a suffix of the log's window: exactly the slots stamped no earlier
      than `from`, strictly ascending, one resolution after another. */
  lemma HistoryIsSuffix(start: int, res: int, log: seq<Event>, n: nat, from: int)
    requires res > 0
    ensures var window := Points(LogRing(start, res, log, n));
            var history := Since(window, from);
            IsRecentSuffix(history, window, from) && StrictlyAscending(history) && OneApart(history, res)
  {
    var window := Points(LogRing(start, res, log, n));
    LogRingAscending(start, res, log, n);
    LogRingOneApart(start, res, log, n);
    var m := SinceIsSuffix(window, from);
    SuffixAscending(window, m);
    SuffixOneApart(window, res, m);
  }

  // ---- what a point says ----

  /** The point fits these latencies and that many errors. */
  ghost predicate PointFits(p: DataPoint, w: seq<int>, errors: int) {
    && p.requests == |w| && p.errors == errors
    && if w == [] then p.avgLatency == p.p50Latency == p.p90Latency == p.p99Latency == 0.0
       else
         && IsAverage(p.avgLatency, w)
         && IsPercentile(p.p50Latency, w, 50) && IsPercentile(p.p90Latency, w, 90) && IsPercentile(p.p99Latency, w, 99)
         && p.p50Latency <= p.p90Latency <= p.p99Latency
  }

  lemma PointOfFits(b: Bucket, w: seq<int>)
    requires b.counts.requests == |w| && b.counts.latencies == w && b.counts.totalLatency == Sum(w)
    ensures PointFits(PointOf(b), w, b.counts.errors)
  {
    if w != [] {
      AverageIs(w);
      PercentileIs(w, 50);
      PercentileIs(w, 90);
      PercentileIs(w, 99);
      PercentilesOrdered(w, 50, 90);
      PercentilesOrdered(w, 90, 99);
    }
  }

  /** The point stands for the slot. */
  ghost predicate StandsFor(p: DataPoint, slot: int, start: int, res: int, log: seq<Event>) {
    var events := InSlot(start, log, slot);
    p.timestamp == Stamp(slot, res) && PointFits(p, Latencies(events), Failures(events))
  }

  lemma SlotPoint(p: DataPoint, start: int, res: int, log: seq<Event>, k: nat)
    requires p == PointOf(BucketAt(start, res, log, k))
    ensures StandsFor(p, Latest(start, log) - k, start, res, log)
  {
    var b := BucketAt(start, res, log, k);
    PointOfFits(b, Latencies(InSlot(start, log, Latest(start, log) - k)));
  }

  lemma LogRingPoint(start: int, res: int, log: seq<Event>, n: nat, i: nat)
    requires i < n
    ensures Points(LogRing(start, res, log, n))[i] == PointOf(BucketAt(start, res, log, n - 1 - i))
  {
    var ring := LogRing(start, res, log, n);
    assert ring[i] == BucketAt(start, res, log, n - 1 - i);
    PointAt(ring, i);
  }

  lemma PointAt(bs: seq<Bucket>, i: nat)
    requires i < |bs|
    ensures Points(bs)[i] == PointOf(bs[i])
  {
  }

  lemma PointStands(points: seq<DataPoint>, i: nat, start: int, res: int, log: seq<Event>)
    requires i < |points| && points[i] == PointOf(BucketAt(start, res, log, |points| - 1 - i))
    ensures StandsFor(points[i], Latest(start, log) - (|points| - 1 - i), start, res, log)
  {
    SlotPoint(points[i], start, res, log, |points| - 1 - i);
  }

  /** The points stand for the newest slots of the log, one each, oldest first. */
  ghost predicate StandForSlots(points: seq<DataPoint>, start: int, res: int, log: seq<Event>) {
    forall i :: 0 <= i < |points| ==>
      StandsFor(points[i], Latest(start, log) - (|points| - 1 - i), start, res, log)
  }

  lemma AllStand(points: seq<DataPoint>, start: int, res: int, log: seq<Event>)
    requires forall i :: 0 <= i < |points| ==> points[i] == PointOf(BucketAt(start, res, log, |points| - 1 - i))
    ensures StandForSlots(points, start, res, log)
  {
    forall i | 0 <= i < |points|
      ensures StandsFor(points[i], Latest(start, log) - (|points| - 1 - i), start, res, log)
    {
      PointStands(points, i, start, res, log);
    }
  }

  /** Every point of a history carries the counts, the average and the percentiles of the
      events logged in its slot. */
  lemma HistoryStands(start: int, res: int, log: seq<Event>, n: nat, from: int)
    requires res > 0
    ensures StandForSlots(Since(Points(LogRing(start, res, log, n)), from), start, res, log)
  {
    var history := Since(Points(LogRing(start, res, log, n)), from);
    HistoryIsLogRing(start, res, log, n, from);
    forall i | 0 <= i < |history|
      ensures history[i] == PointOf(BucketAt(start, res, log, |history| - 1 - i))
    {
      LogRingPoint(start, res, log, |history|, i);
    }
    AllStand(history, start, res, log);
  }

  // ---- conservation ----

  lemma LogRingGrows(start: int, res: int, log: seq<Event>, n: nat)
    requires n > 0
    ensures Points(LogRing(start, res, log, n))
            == [PointOf(BucketAt(start, res, log, n - 1))] + Points(LogRing(start, res, log, n - 1))
  {
    var ring, newer := LogRing(start, res, log, n), LogRing(start, res, log, n - 1);
    assert ring == [BucketAt(start, res, log, n - 1)] + newer;
    PointsOfFirst(BucketAt(start, res, log, n - 1), newer);
  }

  lemma PointsOfFirst(b: Bucket, bs: seq<Bucket>)
    ensures Points([b] + bs) == [PointOf(b)] + Points(bs)
  {
  }

  lemma {:induction false} PointsCount(start: int, res: int, log: seq<Event>, n: nat)
    ensures Requests(Points(LogRing(start, res, log, n))) == WindowRequests(start, log, n)
    ensures Errors(Points(LogRing(start, res, log, n))) == WindowErrors(start, log, n)
  {
    if n > 0 {
      PointsCount(start, res, log, n - 1);
      LogRingGrows(start, res, log, n);
      var oldest := PointOf(BucketAt(start, res, log, n - 1));
      RequestsConcat([oldest], Points(LogRing(start, res, log, n - 1)));
      CountOne(oldest);
    }
  }

  lemma CountOne(p: DataPoint)
    ensures Requests([p]) == p.requests && Errors([p]) == p.errors
  {
    assert [p][..|[p]| - 1] == [];
  }

  lemma RecentRing(start: int, res: int, log: seq<Event>, n: nat, m: nat)
    requires m <= n
    ensures Points(LogRing(start, res, log, n))[n - m..] == Points(LogRing(start, res, log, m))
  {
  }

  lemma HistoryIsLogRing(start: int, res: int, log: seq<Event>, n: nat, from: int)
    requires res > 0
    ensures var history := Since(Points(LogRing(start, res, log, n)), from);
            history == Points(LogRing(start, res, log, |history|))
  {
    LogRingAscending(start, res, log, n);
    var m := SinceIsSuffix(Points(LogRing(start, res, log, n)), from);
    RecentRing(start, res, log, n, n - m);
  }

  /** The points count exactly the events of the newest slots. */
  ghost predicate CountAllEvents(points: seq<DataPoint>, start: int, log: seq<Event>, slots: nat) {
    var covered := Recent(start, log, Latest(start, log) - slots);
    Requests(points) == |Latencies(covered)| && Errors(points) == Failures(covered)
  }

  lemma LogRingCounts(start: int, res: int, log: seq<Event>, slots: nat)
    ensures CountAllEvents(Points(LogRing(start, res, log, slots)), start, log, slots)
  {
    PointsCount(start, res, log, slots);
    WindowConserves(start, log, slots);
  }

  /** A history counts every event logged in the slots it covers exactly once. */
  lemma HistoryCountsEvents(start: int, res: int, log: seq<Event>, n: nat, from: int)
    requires res > 0
    ensures var history := Since(Points(LogRing(start, res, log, n)), from);
            CountAllEvents(history, start, log, |history|)
  {
    HistoryIsLogRing(start, res, log, n, from);
    LogRingCounts(start, res, log, |Since(Points(LogRing(start, res, log, n)), from)|);
  }
}

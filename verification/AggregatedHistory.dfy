/** What aggregating a history gives, in terms of the log: RecordRequest, RecordError,
    GetHistory and aggregatePoints put together. */
module AggregatedHistory {
  import opened Sorting
  import opened OrderStatistics
  import opened EventLog
  import opened Ring
  import opened History
  import opened Aggregation

  // ---- groups of buckets ----

  /** The counts of a real bucket are those of some events. */
  ghost predicate Genuine(b: Bucket) {
    && b.counts.requests == |b.counts.latencies|
    && b.counts.totalLatency == Sum(b.counts.latencies)
    && b.counts.errors >= 0
  }

  /** Whole milliseconds and requests of the buckets with a positive millisecond total. */
  function TotalMilliseconds(bs: seq<Bucket>): int {
    if bs == [] then 0
    else
      var ms := Milliseconds(bs[|bs| - 1].counts.totalLatency);
      TotalMilliseconds(bs[..|bs| - 1]) + if ms > 0 then ms else 0
  }

  function TotalRequests(bs: seq<Bucket>): int {
    if bs == [] then 0
    else
      var c := bs[|bs| - 1].counts;
      TotalRequests(bs[..|bs| - 1]) + if Milliseconds(c.totalLatency) > 0 then c.requests else 0
  }

  lemma PointLatency(b: Bucket)
    requires Genuine(b)
    ensures var ms := Milliseconds(b.counts.totalLatency);
            && Latency(PointOf(b)) == (if ms > 0 then ms else 0) as real
            && Weight(PointOf(b)) == if ms > 0 then b.counts.requests else 0
  {
    AveragePoint(PointOf(b), Milliseconds(b.counts.totalLatency));
  }

  lemma AveragePoint(p: DataPoint, ms: int)
    requires p.requests >= 0
    requires if p.requests == 0 then ms == 0 && p.avgLatency == 0.0
             else p.avgLatency == ms as real / p.requests as real
    ensures Latency(p) == (if ms > 0 then ms else 0) as real
    ensures Weight(p) == if ms > 0 then p.requests else 0
  {
    if p.requests > 0 {
      QuotientTimes(ms, p.requests);
    }
  }

  lemma QuotientTimes(m: int, n: int)
    requires n > 0
    ensures m as real / n as real * n as real == m as real
    ensures m as real / n as real > 0.0 <==> m > 0
  {
    var q, nr := m as real / n as real, n as real;
    assert q * nr == m as real;
    assert q > 0.0 ==> q * nr > 0.0;
    assert q <= 0.0 ==> q * nr <= 0.0;
  }

  lemma {:induction false} GroupLatency(bs: seq<Bucket>)
    requires forall i :: 0 <= i < |bs| ==> Genuine(bs[i])
    ensures LatencySum(Points(bs)) == TotalMilliseconds(bs) as real
    ensures LatencyCount(Points(bs)) == TotalRequests(bs)
  {
    if bs != [] {
      var init, b := bs[..|bs| - 1], bs[|bs| - 1];
      assert Points(bs)[..|bs| - 1] == Points(init);
      GroupLatency(init);
      PointLatency(b);
    }
  }

  /** If the group of these buckets' points is kept, its average is that of their whole
      milliseconds over their requests, leaving out the buckets whose total is below a
      millisecond. */
  ghost predicate Averaged(bs: seq<Bucket>, res: int)
    requires res > 0 && bs != []
  {
    LatencyCount(Points(bs)) > 0 ==>
      TotalRequests(bs) > 0
      && Summary(Points(bs), res).avgLatency == TotalMilliseconds(bs) as real / TotalRequests(bs) as real
  }

  lemma GroupAverage(bs: seq<Bucket>, res: int)
    requires res > 0 && bs != [] && forall i :: 0 <= i < |bs| ==> Genuine(bs[i])
    ensures Averaged(bs, res)
  {
    GroupLatency(bs);
  }

  // ---- which groups are dropped ----

  /** The bucket totals a positive whole millisecond. */
  predicate Audible(b: Bucket) {
    Milliseconds(b.counts.totalLatency) > 0
  }

  lemma ContributesIffAudible(b: Bucket)
    requires Genuine(b)
    ensures Contributes(PointOf(b)) <==> Audible(b)
  {
    PointLatency(b);
    var n := |b.counts.latencies|;
    if n > 0 {
      QuotientTimes(Milliseconds(b.counts.totalLatency), n);
    }
  }

  ghost predicate AllGenuine(bs: seq<Bucket>) {
    forall i :: 0 <= i < |bs| ==> Genuine(bs[i])
  }

  lemma SilentIffInaudible(bs: seq<Bucket>)
    requires AllGenuine(bs)
    ensures Silent(Points(bs)) <==> forall i :: 0 <= i < |bs| ==> !Audible(bs[i])
  {
    forall i | 0 <= i < |bs|
      ensures Contributes(Points(bs)[i]) <==> Audible(bs[i])
    {
      ContributesIffAudible(bs[i]);
    }
  }

  lemma PointsNonNegative(bs: seq<Bucket>)
    requires AllGenuine(bs)
    ensures NonNegative(Points(bs))
  {
  }

  // ---- what a kept group becomes ----

  /** The value lies between the averages of two buckets that total a positive whole
      millisecond. */
  ghost predicate BetweenAverages(value: real, bs: seq<Bucket>) {
    exists j, k ::
      && 0 <= j < |bs| && 0 <= k < |bs| && Audible(bs[j]) && Audible(bs[k])
      && PointOf(bs[j]).avgLatency <= value <= PointOf(bs[k]).avgLatency
  }

  /** Each percentile of p is the maximum over the buckets. */
  ghost predicate MaximumOfEach(p: DataPoint, bs: seq<Bucket>) {
    && IsMaximum(p.p50Latency, P50s(Points(bs)))
    && IsMaximum(p.p90Latency, P90s(Points(bs)))
    && IsMaximum(p.p99Latency, P99s(Points(bs)))
  }

  ghost predicate SomePercentilesReachZero(bs: seq<Bucket>) {
    ReachesZero(P50s(Points(bs))) && ReachesZero(P90s(Points(bs))) && ReachesZero(P99s(Points(bs)))
  }

  /** p is what these buckets are aggregated to. */
  ghost predicate SumsUp(p: DataPoint, bs: seq<Bucket>, coarse: int)
    requires coarse > 0 && bs != []
  {
    && p.timestamp == Truncate(bs[0].timestamp, coarse)
    && p.requests == Requests(Points(bs)) && p.errors == Errors(Points(bs))
    && TotalRequests(bs) > 0
    && p.avgLatency == TotalMilliseconds(bs) as real / TotalRequests(bs) as real
    && BetweenAverages(p.avgLatency, bs)
    && (MaximumOfEach(p, bs) <==> SomePercentilesReachZero(bs))
  }

  lemma AverageBetweenBuckets(bs: seq<Bucket>, coarse: int)
    requires coarse > 0 && bs != [] && AllGenuine(bs)
    ensures LatencyCount(Points(bs)) > 0 ==> BetweenAverages(Summary(Points(bs), coarse).avgLatency, bs)
  {
    if LatencyCount(Points(bs)) > 0 {
      PointsNonNegative(bs);
      var j, k := AverageBetweenPoints(Points(bs), coarse);
      ContributesIffAudible(bs[j]);
      ContributesIffAudible(bs[k]);
    }
  }

  lemma KeptGroup(bs: seq<Bucket>, coarse: int)
    requires coarse > 0 && bs != [] && AllGenuine(bs)
    ensures LatencyCount(Points(bs)) > 0 ==> SumsUp(Summary(Points(bs), coarse), bs, coarse)
  {
    GroupAverage(bs, coarse);
    AverageBetweenBuckets(bs, coarse);
    PercentilesAreMaxima(Points(bs));
  }

  // ---- percentiles of a log without negative latencies ----

  ghost predicate NoneNegative(s: seq<int>) {
    forall i :: 0 <= i < |s| ==> s[i] >= 0
  }

  ghost predicate NoNegativeLatency(log: seq<Event>) {
    forall i :: 0 <= i < |log| && log[i].Request? ==> log[i].latency >= 0
  }

  lemma {:induction false} LatenciesNotNegative(events: seq<Event>)
    requires NoNegativeLatency(events)
    ensures NoneNegative(Latencies(events))
  {
    if events != [] {
      LatenciesNotNegative(events[..|events| - 1]);
    }
  }

  lemma {:induction false} SlotNotNegative(start: int, log: seq<Event>, slot: int)
    requires NoNegativeLatency(log)
    ensures NoNegativeLatency(InSlot(start, log, slot))
  {
    if log != [] {
      SlotNotNegative(start, log[..|log| - 1], slot);
    }
  }

  lemma PercentileNonNegative(s: seq<int>, p: nat)
    requires s != [] && p < 100 && forall i :: 0 <= i < |s| ==> s[i] >= 0
    ensures Milliseconds(Percentile(s, p)) >= 0
  {
    PercentileRank(s, p);
  }

  /** Latencies that are not negative give percentiles that are not negative. */
  lemma PointPercentiles(b: Bucket)
    requires forall i :: 0 <= i < |b.counts.latencies| ==> b.counts.latencies[i] >= 0
    ensures var p := PointOf(b); p.p50Latency >= 0.0 && p.p90Latency >= 0.0 && p.p99Latency >= 0.0
  {
    var s := b.counts.latencies;
    if s != [] {
      PercentileNonNegative(s, 50);
      PercentileNonNegative(s, 90);
      PercentileNonNegative(s, 99);
    }
  }

  lemma SlotPercentiles(start: int, res: int, log: seq<Event>, k: nat)
    requires NoNegativeLatency(log)
    ensures var p := PointOf(BucketAt(start, res, log, k));
            p.p50Latency >= 0.0 && p.p90Latency >= 0.0 && p.p99Latency >= 0.0
  {
    var slot := InSlot(start, log, Latest(start, log) - k);
    SlotNotNegative(start, log, Latest(start, log) - k);
    LatenciesNotNegative(slot);
    PointPercentiles(BucketAt(start, res, log, k));
  }

  /** Some slots of a log without negative latencies have percentiles that are not
      negative. */
  lemma SlotsReachZero(start: int, res: int, log: seq<Event>, n: nat, a: nat, b: nat)
    requires a < b <= n && NoNegativeLatency(log)
    ensures SomePercentilesReachZero(LogRing(start, res, log, n)[a..b])
  {
    var bs := LogRing(start, res, log, n)[a..b];
    assert bs[0] == BucketAt(start, res, log, n - 1 - a);
    SlotPercentiles(start, res, log, n - 1 - a);
    FirstReachesZero(Points(bs));
  }

  lemma FirstReachesZero(g: seq<DataPoint>)
    requires g != [] && g[0].p50Latency >= 0.0 && g[0].p90Latency >= 0.0 && g[0].p99Latency >= 0.0
    ensures ReachesZero(P50s(g)) && ReachesZero(P90s(g)) && ReachesZero(P99s(g))
  {
    assert P50s(g)[0] >= 0.0 && P90s(g)[0] >= 0.0 && P99s(g)[0] >= 0.0;
  }

  // ---- the groups of a history ----

  lemma LogRingGenuine(start: int, res: int, log: seq<Event>, n: nat)
    ensures AllGenuine(LogRing(start, res, log, n))
  {
    forall j | 0 <= j < n
      ensures Genuine(LogRing(start, res, log, n)[j])
    {
      assert LogRing(start, res, log, n)[j] == BucketAt(start, res, log, n - 1 - j);
    }
  }

  lemma PointsSlice(ring: seq<Bucket>, a: nat, b: nat)
    requires a <= b <= |ring|
    ensures Points(ring)[a..b] == Points(ring[a..b])
  {
  }

  lemma GroupOfBuckets(ring: seq<Bucket>, coarse: int, i: nat) returns (a: nat, b: nat)
    requires coarse > 0 && AllGenuine(ring) && i < |Groups(Points(ring), coarse)|
    ensures a < b <= |ring| && AllGenuine(ring[a..b])
    ensures Groups(Points(ring), coarse)[i] == Points(ring[a..b])
  {
    a, b := GroupIsSlice(Points(ring), coarse, i);
    PointsSlice(ring, a, b);
  }

  /** Every group of a history is made of consecutive slots a..b of the log's newest, and is
      silent exactly if none of these slots totals a positive whole millisecond. */
  lemma HistoryGroup(start: int, res: int, log: seq<Event>, n: nat, from: int, coarse: int, i: nat)
    returns (a: nat, b: nat)
    requires res > 0 && coarse > 0
    requires i < |Groups(Since(Points(LogRing(start, res, log, n)), from), coarse)|
    ensures var history := Since(Points(LogRing(start, res, log, n)), from);
            var ring := LogRing(start, res, log, |history|);
            && a < b <= |history|
            && Groups(history, coarse)[i] == Points(ring[a..b])
            && (Silent(Groups(history, coarse)[i]) <==> forall j :: a <= j < b ==> !Audible(ring[j]))
  {
    var history := Since(Points(LogRing(start, res, log, n)), from);
    var ring := LogRing(start, res, log, |history|);
    HistoryIsLogRing(start, res, log, n, from);
    LogRingGenuine(start, res, log, |history|);
    a, b := GroupOfBuckets(ring, coarse, i);
    SliceSilent(ring, a, b);
  }

  lemma SliceSilent(ring: seq<Bucket>, a: nat, b: nat)
    requires a < b <= |ring| && AllGenuine(ring[a..b])
    ensures Silent(Points(ring[a..b])) <==> forall j :: a <= j < b ==> !Audible(ring[j])
  {
    var bs := ring[a..b];
    SilentIffInaudible(bs);
    assert forall j :: a <= j < b ==> ring[j] == bs[j - a];
  }

  /** a[k]..b[k] are slices of n elements, one after another. */
  ghost predicate SlicesInOrder(a: seq<nat>, b: seq<nat>, n: nat) {
    && |a| == |b|
    && (forall k :: 0 <= k < |a| ==> a[k] < b[k] <= n)
    && (forall k, l :: 0 <= k < l < |a| ==> b[k] <= a[l])
  }

  /** Every bucket that totals a positive whole millisecond lies in one of the slices. */
  ghost predicate CoverAudible(a: seq<nat>, b: seq<nat>, ring: seq<Bucket>)
    requires |a| == |b|
  {
    forall j :: 0 <= j < |ring| && Audible(ring[j]) ==> exists k :: 0 <= k < |a| && a[k] <= j < b[k]
  }

  lemma PickedOffsets(gs: seq<Group>, picked: seq<nat>, k: nat, l: nat)
    requires Increasing(picked) && k < l < |picked| && picked[l] < |gs|
    ensures Offset(gs, picked[k] + 1) <= Offset(gs, picked[l])
  {
    OffsetsAscend(gs, picked[k] + 1, picked[l]);
  }

  /** The slices of the picked groups. */
  ghost predicate SlicesOf(gs: seq<Group>, picked: seq<nat>, a: seq<nat>, b: seq<nat>) {
    && |a| == |b| == |picked|
    && forall k :: 0 <= k < |picked| ==>
         picked[k] < |gs| && a[k] == Offset(gs, picked[k]) && b[k] == Offset(gs, picked[k] + 1)
  }

  lemma PickedSlices(gs: seq<Group>, picked: seq<nat>) returns (a: seq<nat>, b: seq<nat>)
    requires forall k :: 0 <= k < |picked| ==> picked[k] < |gs|
    ensures SlicesOf(gs, picked, a, b)
  {
    a := seq(|picked|, k requires 0 <= k < |picked| => Offset(gs, picked[k]));
    b := seq(|picked|, k requires 0 <= k < |picked| => Offset(gs, picked[k] + 1));
  }

  lemma SlicesAscend(points: seq<DataPoint>, coarse: int, picked: seq<nat>, a: seq<nat>, b: seq<nat>)
    requires coarse > 0 && Increasing(picked) && SlicesOf(Groups(points, coarse), picked, a, b)
    ensures SlicesInOrder(a, b, |points|)
  {
    var gs := Groups(points, coarse);
    forall k | 0 <= k < |a|
      ensures a[k] < b[k] <= |points|
    {
      GroupAt(points, coarse, picked[k]);
    }
    forall k, l | 0 <= k < l < |a|
      ensures b[k] <= a[l]
    {
      PickedOffsets(gs, picked, k, l);
    }
  }

  /** The group of a contributing point is kept. */
  lemma ContributorIsKept(points: seq<DataPoint>, coarse: int, j: nat) returns (i: nat)
    requires coarse > 0 && NonNegative(points) && j < |points| && Contributes(points[j])
    ensures var gs := Groups(points, coarse);
            i < |gs| && Offset(gs, i) <= j < Offset(gs, i + 1) && LatencyCount(gs[i]) > 0
  {
    var gs := Groups(points, coarse);
    i := PointInGroup(points, coarse, j);
    GroupAt(points, coarse, i);
    assert gs[i][j - Offset(gs, i)] == points[j];
    GroupsNonNegative(points, coarse);
    assert NonNegative(gs[i]);
    DroppedIffSilent(gs[i]);
  }

  lemma SlicesCover(ring: seq<Bucket>, coarse: int, picked: seq<nat>, a: seq<nat>, b: seq<nat>)
    requires coarse > 0 && AllGenuine(ring)
    requires var gs := Groups(Points(ring), coarse); PicksAll(gs, picked) && SlicesOf(gs, picked, a, b)
    ensures CoverAudible(a, b, ring)
  {
    PointsNonNegative(ring);
    forall j | 0 <= j < |ring| && Audible(ring[j])
      ensures exists k :: 0 <= k < |a| && a[k] <= j < b[k]
    {
      ContributesIffAudible(ring[j]);
      var i := ContributorIsKept(Points(ring), coarse, j);
      var k :| 0 <= k < |picked| && picked[k] == i;
      assert a[k] <= j < b[k];
    }
  }

  /** The points of the result sum up slices of the buckets, in order and without overlap, and
      leave out no audible bucket. */
  lemma PointsOfBuckets(ring: seq<Bucket>, coarse: int) returns (a: seq<nat>, b: seq<nat>)
    requires coarse > 0 && AllGenuine(ring)
    ensures var result := Aggregate(Points(ring), coarse);
            && |a| == |result| && SlicesInOrder(a, b, |ring|) && CoverAudible(a, b, ring)
            && forall k :: 0 <= k < |result| ==> SumsUp(result[k], ring[a[k]..b[k]], coarse)
  {
    var points := Points(ring);
    var gs, result := Groups(points, coarse), Aggregate(points, coarse);
    var picked := SummariesInOrder(gs, coarse);
    a, b := PickedSlices(gs, picked);
    SlicesAscend(points, coarse, picked, a, b);
    SlicesCover(ring, coarse, picked, a, b);
    forall k | 0 <= k < |result|
      ensures SumsUp(result[k], ring[a[k]..b[k]], coarse)
    {
      GroupAt(points, coarse, picked[k]);
      KeptSlice(ring, coarse, gs[picked[k]], a[k], b[k], result[k]);
    }
  }

  lemma KeptSlice(ring: seq<Bucket>, coarse: int, g: Group, a: nat, b: nat, p: DataPoint)
    requires coarse > 0 && AllGenuine(ring) && a < b <= |ring|
    requires g == Points(ring)[a..b] && LatencyCount(g) > 0 && p == Summary(g, coarse)
    ensures SumsUp(p, ring[a..b], coarse)
  {
    PointsSlice(ring, a, b);
    KeptGroup(ring[a..b], coarse);
  }

  /** Every point of an aggregated history sums up consecutive slots of the log, later points
      later slots, and every slot that totals a positive whole millisecond is in one of them.
      A point's average is that of the whole milliseconds over the requests, and lies between
      two of the slots' averages; its percentiles are the maxima of theirs, if no latency is
      negative. */
  lemma AggregatedPoints(start: int, res: int, log: seq<Event>, n: nat, from: int, coarse: int)
    returns (a: seq<nat>, b: seq<nat>)
    requires res > 0 && coarse > 0
    ensures var history := Since(Points(LogRing(start, res, log, n)), from);
            var ring := LogRing(start, res, log, |history|);
            var result := Aggregate(history, coarse);
            && |a| == |result| && SlicesInOrder(a, b, |ring|) && CoverAudible(a, b, ring)
            && (forall k :: 0 <= k < |result| ==> SumsUp(result[k], ring[a[k]..b[k]], coarse))
            && (NoNegativeLatency(log) ==>
                  forall k :: 0 <= k < |result| ==> MaximumOfEach(result[k], ring[a[k]..b[k]]))
  {
    var history := Since(Points(LogRing(start, res, log, n)), from);
    var ring := LogRing(start, res, log, |history|);
    HistoryIsLogRing(start, res, log, n, from);
    LogRingGenuine(start, res, log, |history|);
    a, b := PointsOfBuckets(ring, coarse);
    var result := Aggregate(history, coarse);
    if NoNegativeLatency(log) {
      forall k | 0 <= k < |result|
        ensures MaximumOfEach(result[k], ring[a[k]..b[k]])
      {
        SlotsReachZero(start, res, log, |history|, a[k], b[k]);
        assert SumsUp(result[k], ring[a[k]..b[k]], coarse);
      }
    }
  }

  // ---- what aggregating a history loses ----

  /** Aggregating these points counts the events of the newest slots except for those of the
      silent groups, so it counts them all if and only if the silent groups are empty. */
  ghost predicate CountAllButSilent(points: seq<DataPoint>, coarse: int, start: int, log: seq<Event>, slots: nat)
    requires coarse > 0
  {
    var covered := Recent(start, log, Latest(start, log) - slots);
    var groups := Groups(points, coarse);
    var silent := SilentGroups(groups);
    && Dropped(groups) == silent
    && Requests(Aggregate(points, coarse)) == |Latencies(covered)| - Requests(Flatten(silent))
    && Errors(Aggregate(points, coarse)) == Failures(covered) - Errors(Flatten(silent))
    && (CountAllEvents(Aggregate(points, coarse), start, log, slots) <==> SilentAreEmpty(groups))
  }

  lemma AggregateCounts(points: seq<DataPoint>, coarse: int, start: int, log: seq<Event>, slots: nat)
    requires coarse > 0 && NonNegative(points) && CountAllEvents(points, start, log, slots)
    ensures CountAllButSilent(points, coarse, start, log, slots)
  {
    LostIffSilent(points, coarse);
  }

  lemma HistoryNonNegative(start: int, res: int, log: seq<Event>, n: nat, from: int)
    requires res > 0
    ensures NonNegative(Since(Points(LogRing(start, res, log, n)), from))
  {
    var slots := |Since(Points(LogRing(start, res, log, n)), from)|;
    HistoryIsLogRing(start, res, log, n, from);
    LogRingGenuine(start, res, log, slots);
    PointsNonNegative(LogRing(start, res, log, slots));
  }

  /** An aggregated history counts the events of the slots it covers in this way. */
  lemma AggregateCountsEvents(start: int, res: int, log: seq<Event>, n: nat, from: int, coarse: int)
    requires res > 0 && coarse > 0
    ensures var history := Since(Points(LogRing(start, res, log, n)), from);
            CountAllButSilent(history, coarse, start, log, |history|)
  {
    var history := Since(Points(LogRing(start, res, log, n)), from);
    HistoryNonNegative(start, res, log, n, from);
    HistoryCountsEvents(start, res, log, n, from);
    AggregateCounts(history, coarse, start, log, |history|);
  }

  /** What GetHistory returns counts all events of the slots it covers, unless it
      aggregates a silent group in which something was counted. */
  lemma CompleteUnlessSilent(start: int, res: int, log: seq<Event>, n: nat, from: int, coarse: int)
    requires res > 0
    ensures var history := Since(Points(LogRing(start, res, log, n)), from);
            var points := if coarse > res then Aggregate(history, coarse) else history;
            CountAllEvents(points, start, log, |history|)
            <==> coarse <= res || SilentAreEmpty(Groups(history, coarse))
  {
    HistoryCountsEvents(start, res, log, n, from);
    if coarse > res {
      AggregateCountsEvents(start, res, log, n, from, coarse);
    }
  }

  /** What GetHistory answers, in one place. */
  lemma AnswerIsSound(start: int, res: int, log: seq<Event>, n: nat, from: int, coarse: int, points: seq<DataPoint>)
    requires res > 0
    requires var history := Since(Points(LogRing(start, res, log, n)), from);
             points == if coarse > res then Aggregate(history, coarse) else history
    ensures StrictlyAscending(points)
    ensures coarse <= res ==> StandForSlots(points, start, res, log)
    ensures var history := Since(Points(LogRing(start, res, log, n)), from);
            CountAllEvents(points, start, log, |history|)
            <==> coarse <= res || SilentAreEmpty(Groups(history, coarse))
  {
    CompleteUnlessSilent(start, res, log, n, from, coarse);
    if coarse > res {
      AggregateAscends(Since(Points(LogRing(start, res, log, n)), from), coarse);
    } else {
      HistoryStands(start, res, log, n, from);
      HistoryIsSuffix(start, res, log, n, from);
    }
  }

  // ---- two inputs that fail ----

  /** The history of a log whose events all lie in slot 0 is one point. */
  lemma OneSlotHistory(res: int, log: seq<Event>)
    requires res > 0 && Latest(0, log) == 0
    ensures var p := PointOf(Bucket(0, CountsOf(InSlot(0, log, 0))));
            Since(Points(LogRing(0, res, log, 1)), 0) == [p]
  {
    var p := PointOf(Bucket(0, CountsOf(InSlot(0, log, 0))));
    assert LogRing(0, res, log, 1) == [BucketAt(0, res, log, 0)];
    assert Points([BucketAt(0, res, log, 0)]) == [p];
    assert [p][..0] == [];
  }

  lemma SummariesOfOne(g: Group, res: int)
    requires res > 0
    ensures Summaries([g], res) == if LatencyCount(g) > 0 then [Summary(g, res)] else []
  {
    var gs := [g];
    assert gs[..|gs| - 1] == [];
  }

  lemma GroupsOfOne(p: DataPoint, res: int)
    requires res > 0
    ensures Groups([p], res) == [[p]]
  {
    assert [p][..|[p]| - 1] == [];
  }

  lemma AggregateOfOne(p: DataPoint, res: int)
    requires res > 0
    ensures Aggregate([p], res) == if Weight(p) > 0 then [Summary([p], res)] else []
    ensures LatencyCount([p]) == Weight(p)
  {
    GroupOfOne(p, res);
    GroupsOfOne(p, res);
    SummariesOfOne([p], res);
  }

  lemma {:induction false} AllInSlotZero(log: seq<Event>)
    requires forall i :: 0 <= i < |log| ==> log[i].at == 0
    ensures Latest(0, log) == 0 && InSlot(0, log, 0) == log
  {
    if log != [] {
      AllInSlotZero(log[..|log| - 1]);
    }
  }

  /** An error in a slot without requests does not survive aggregation. */
  lemma AggregationLosesAnError()
    ensures var log := [Failure(0)];
            var history := Since(Points(LogRing(0, 60, log, 1)), 0);
            Errors(history) == 1 && Aggregate(history, 3600) == []
  {
    var log := [Failure(0)];
    AllInSlotZero(log);
    OneSlotHistory(60, log);
    AppendToBucket([], Failure(0));
    assert [] + log == log;
    var p := DataPoint(0, 0, 1, 0.0, 0.0, 0.0, 0.0);
    CountOne(p);
    AggregateOfOne(p, 3600);
  }

  lemma AlreadySorted(s: seq<int>)
    requires Ascending(s, Same)
    ensures Sort(s, Same) == s
  {
    SortIsTheOnly(s, s, Same);
  }

  lemma CountsAppended(events: seq<Event>, e: Event, more: seq<Event>)
    requires more == events + [e]
    ensures CountsOf(more) == Record(CountsOf(events), e)
  {
    AppendToBucket(events, e);
  }

  lemma CountsOfThree(a: Event, b: Event, c: Event, s: seq<Event>)
    requires s == [a, b, c]
    ensures CountsOf(s) == Record(Record(Record(Counts(0, 0, [], 0), a), b), c)
  {
    assert CountsOf([]) == Counts(0, 0, [], 0);
    CountsAppended([], a, s[..1]);
    CountsAppended(s[..1], b, s[..2]);
    CountsAppended(s[..2], c, s);
  }

  const MEDIAN: seq<Event> := [Request(0, -1_000_000), Request(0, -1_000_000), Request(0, 10_000_000)]

  lemma MedianCounts()
    ensures CountsOf(MEDIAN) == Counts(3, 0, [-1_000_000, -1_000_000, 10_000_000], 8_000_000)
  {
    CountsOfThree(MEDIAN[0], MEDIAN[1], MEDIAN[2], MEDIAN);
  }

  lemma MedianPoint() returns (p: DataPoint)
    ensures p == PointOf(Bucket(0, CountsOf(MEDIAN))) && p.p50Latency == -1.0 && Weight(p) == 3
  {
    MedianCounts();
    p := PointOf(Bucket(0, CountsOf(MEDIAN)));
    var s := [-1_000_000, -1_000_000, 10_000_000];
    AlreadySorted(s);
    assert Percentile(s, 50) == s[1];
    QuotientTimes(8, 3);
  }

  /** Two latencies of minus one millisecond and one of ten: the median of the slot is
      negative, and its group reports zero instead. */
  lemma NegativeMedianIsHidden()
    ensures var history := Since(Points(LogRing(0, 60, MEDIAN, 1)), 0);
            var points := Aggregate(history, 3600);
            && |history| == |points| == 1
            && history[0].p50Latency == -1.0 && points[0].p50Latency == 0.0
  {
    var p := MedianPoint();
    AllInSlotZero(MEDIAN);
    OneSlotHistory(60, MEDIAN);
    NegativeIsHidden(p, 3600);
  }

  lemma NegativeIsHidden(p: DataPoint, res: int)
    requires res > 0 && Weight(p) > 0
    ensures |Aggregate([p], res)| == 1
    ensures p.p50Latency < 0.0 ==> Aggregate([p], res)[0].p50Latency == 0.0
  {
    AggregateOfOne(p, res);
    GroupOfOne(p, res);
  }
}

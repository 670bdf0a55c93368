/** How wide the points of an aggregated history are.  A window is one requested resolution,
    aligned; a history's groups are two windows wide. */
module HistoryWindows {
  import opened EventLog
  import opened Ring
  import opened History
  import opened Aggregation
  import opened AggregatedHistory

  /** All points of the group lie in the window in which the group starts. */
  ghost predicate OneWindow(g: Group, coarse: int)
    requires coarse > 0
  {
    forall i :: 0 <= i < |g| ==> Truncate(g[i].timestamp, coarse) == GroupStart(g, coarse)
  }

  /** The window of the last point of the last group. */
  function LastWindow(gs: seq<Group>, coarse: int): int
    requires coarse > 0 && gs != []
  {
    var g := gs[|gs| - 1];
    Truncate(g[|g| - 1].timestamp, coarse)
  }

  /** The groups start two windows after one another, and each reaches into its second
      window, except that the last may not have come to it. */
  ghost predicate Tiled(gs: seq<Group>, coarse: int)
    requires coarse > 0 && gs != []
  {
    var last := |gs| - 1;
    var start := GroupStart(gs[last], coarse);
    && (forall i :: 0 <= i <= last ==> GroupStart(gs[i], coarse) == GroupStart(gs[0], coarse) + 2 * i * coarse)
    && (forall i :: 0 <= i < last ==> !OneWindow(gs[i], coarse))
    && (LastWindow(gs, coarse) == start || LastWindow(gs, coarse) == start + coarse)
    && (OneWindow(gs[last], coarse) <==> LastWindow(gs, coarse) == start)
  }

  // ---- one more point ----

  /** A step of at most a window stays in the window or enters the next. */
  lemma TruncateStep(t: int, step: int, d: int)
    requires 0 <= step <= d && d > 0
    ensures Truncate(t + step, d) == Truncate(t, d) || Truncate(t + step, d) == Truncate(t, d) + d
  {
    TruncateBounds(t, d);
    TruncateBounds(t + step, d);
    var q, q' := t / d, (t + step) / d;
    assert q' * d > q * d - d && q' * d < q * d + 2 * d;
    NearMultiples(q, q', d);
  }

  lemma NearMultiples(q: int, q': int, d: int)
    requires d > 0 && q * d - d < q' * d < q * d + 2 * d
    ensures q' == q || q' == q + 1
  {
    if q' <= q - 1 {
      MultiplesOrdered(q', q - 1, d);
    } else if q' >= q + 2 {
      MultiplesOrdered(q + 2, q', d);
    }
  }

  lemma GrowWindow(g: Group, p: DataPoint, coarse: int)
    requires coarse > 0
    ensures var h: Group := g + [p];
            && GroupStart(h, coarse) == GroupStart(g, coarse)
            && (OneWindow(h, coarse) <==>
                  OneWindow(g, coarse) && Truncate(p.timestamp, coarse) == GroupStart(g, coarse))
  {
    var h: Group := g + [p];
    assert forall i :: 0 <= i < |g| ==> h[i] == g[i];
    assert h[|g|] == p;
  }

  lemma SpacingGoesOn(start: int, n: int, coarse: int)
    ensures start + 2 * n * coarse + 2 * coarse == start + 2 * (n + 1) * coarse
  {
  }

  lemma AddPointTiled(gs: seq<Group>, p: DataPoint, coarse: int)
    requires coarse > 0 && gs != [] && Tiled(gs, coarse)
    requires var next := Truncate(p.timestamp, coarse);
             next == LastWindow(gs, coarse) || next == LastWindow(gs, coarse) + coarse
    ensures Tiled(AddPoint(gs, p, coarse), coarse)
  {
    var n := |gs|;
    var g, gs' := gs[n - 1], AddPoint(gs, p, coarse);
    if Outside(g, p, coarse) {
      assert gs'[n] == [p] && forall i :: 0 <= i < n ==> gs'[i] == gs[i];
      SpacingGoesOn(GroupStart(gs[0], coarse), n - 1, coarse);
    } else {
      GrowWindow(g, p, coarse);
      assert gs'[n - 1] == g + [p] && forall i :: 0 <= i < n - 1 ==> gs'[i] == gs[i];
    }
  }

  /** The groups of points one storage resolution apart. */
  lemma {:induction false} GroupsTiled(points: seq<DataPoint>, res: int, coarse: int)
    requires 0 < res <= coarse && points != [] && OneApart(points, res)
    ensures Groups(points, coarse) != [] && Tiled(Groups(points, coarse), coarse)
  {
    var init, p := points[..|points| - 1], points[|points| - 1];
    if init == [] {
      assert Groups(points, coarse) == [[p]];
    } else {
      var gs := Groups(init, coarse);
      PrefixOneApart(points, res);
      GroupsTiled(init, res, coarse);
      LastPoint(init, coarse);
      assert p.timestamp == init[|init| - 1].timestamp + res;
      TruncateStep(init[|init| - 1].timestamp, res, coarse);
      AddPointTiled(gs, p, coarse);
    }
  }

  lemma PrefixOneApart(points: seq<DataPoint>, res: int)
    requires points != [] && OneApart(points, res)
    ensures OneApart(points[..|points| - 1], res)
  {
  }

  lemma FirstPoint(points: seq<DataPoint>, coarse: int)
    requires coarse > 0 && points != [] && Groups(points, coarse) != []
    ensures Groups(points, coarse)[0][0] == points[0]
  {
    var gs := Groups(points, coarse);
    GroupsPartition(points, coarse);
    FlattenFirst(gs);
  }

  lemma {:induction false} FlattenFirst(gs: seq<Group>)
    requires gs != []
    ensures Flatten(gs) != [] && Flatten(gs)[0] == gs[0][0]
  {
    var init := gs[..|gs| - 1];
    if init != [] {
      FlattenFirst(init);
    }
  }

  // ---- the groups of a history ----

  ghost predicate KeepsWidth(gs: seq<Group>, coarse: int)
    requires coarse > 0
  {
    forall i :: 0 <= i < |gs| ==> OneWindow(gs[i], coarse)
  }

  /** Grouping by the requested resolution gives groups of twice that width, counted from
      the window of the first point; a group keeps to one window exactly if it is the last and
      the points end in its first window.  So all of them do exactly if the first and the last
      point share a window. */
  ghost predicate DoubleWindows(points: seq<DataPoint>, coarse: int)
    requires coarse > 0 && points != []
  {
    var gs := Groups(points, coarse);
    var origin := Truncate(points[0].timestamp, coarse);
    var end := Truncate(points[|points| - 1].timestamp, coarse);
    && (forall i :: 0 <= i < |gs| ==> GroupStart(gs[i], coarse) == origin + 2 * i * coarse)
    && NumberedFrom(gs, origin, coarse)
    && (forall i :: 0 <= i < |gs| ==>
          (OneWindow(gs[i], coarse) <==> i == |gs| - 1 && end == GroupStart(gs[i], coarse)))
    && (KeepsWidth(gs, coarse) <==> origin == end)
  }

  lemma QuotientIs(t: int, i: int, d: int)
    requires d > 0 && 0 <= t - i * d < d
    ensures t / d == i
  {
    var q := t / d;
    assert q * d <= t < q * d + d;
    if q < i {
      MultiplesOrdered(q + 1, i, d);
    } else if q > i {
      MultiplesOrdered(i + 1, q, d);
    }
  }

  lemma WithinIsQuotient(t: int, origin: int, i: int, coarse: int)
    requires coarse > 0 && origin + 2 * i * coarse <= t < origin + 2 * i * coarse + 2 * coarse
    ensures (t - origin) / (2 * coarse) == i
  {
    assert i * (2 * coarse) == 2 * i * coarse;
    QuotientIs(t - origin, i, 2 * coarse);
  }

  lemma DoubleWindowsApart(i: int, coarse: int)
    requires i >= 1 && coarse > 0
    ensures 2 * i * coarse >= 2 * coarse
  {
    MultiplesOrdered(2, 2 * i, coarse);
  }

  /** One window in all means one group in all. */
  lemma OneWindowMeansOneGroup(gs: seq<Group>, coarse: int)
    requires coarse > 0 && gs != [] && Tiled(gs, coarse)
    ensures KeepsWidth(gs, coarse) <==> GroupStart(gs[0], coarse) == LastWindow(gs, coarse)
  {
    var last := |gs| - 1;
    if last > 0 {
      assert !OneWindow(gs[0], coarse);
      DoubleWindowsApart(last, coarse);
    }
  }

  /** The number of the group of each point. */
  ghost predicate NumberedFrom(gs: seq<Group>, origin: int, coarse: int)
    requires coarse > 0
  {
    forall i, j :: 0 <= i < |gs| && 0 <= j < |gs[i]| ==> (gs[i][j].timestamp - origin) / (2 * coarse) == i
  }

  lemma TiledIsNumbered(gs: seq<Group>, coarse: int)
    requires coarse > 0 && gs != [] && Tiled(gs, coarse) && AllWithin(gs, coarse)
    ensures NumberedFrom(gs, GroupStart(gs[0], coarse), coarse)
  {
    var origin := GroupStart(gs[0], coarse);
    forall i, j | 0 <= i < |gs| && 0 <= j < |gs[i]|
      ensures (gs[i][j].timestamp - origin) / (2 * coarse) == i
    {
      assert Within(gs[i], coarse);
      WithinIsQuotient(gs[i][j].timestamp, origin, i, coarse);
    }
  }

  lemma ContiguousDoubleWindows(points: seq<DataPoint>, res: int, coarse: int)
    requires 0 < res <= coarse && points != [] && OneApart(points, res) && StrictlyAscending(points)
    ensures DoubleWindows(points, coarse)
  {
    var gs := Groups(points, coarse);
    GroupsTiled(points, res, coarse);
    FirstPoint(points, coarse);
    LastPoint(points, coarse);
    GroupsWithin(points, coarse);
    OneWindowMeansOneGroup(gs, coarse);
    TiledIsNumbered(gs, coarse);
  }

  /** The groups of every history are two windows wide, the last perhaps excepted. */
  lemma HistoryDoubleWindows(start: int, res: int, log: seq<Event>, n: nat, from: int, coarse: int)
    requires 0 < res <= coarse
    ensures var history := Since(Points(LogRing(start, res, log, n)), from);
            history != [] ==> DoubleWindows(history, coarse)
  {
    var history := Since(Points(LogRing(start, res, log, n)), from);
    HistoryIsSuffix(start, res, log, n, from);
    if history != [] {
      ContiguousDoubleWindows(history, res, coarse);
    }
  }

  /** The points are those of the newest slots of the log. */
  ghost predicate NewestSlots(points: seq<DataPoint>, start: int, res: int, log: seq<Event>) {
    points == Points(LogRing(start, res, log, |points|))
  }

  function Oldest(start: int, res: int, log: seq<Event>, slots: nat): int {
    Stamp(Latest(start, log) - (slots - 1), res)
  }

  function Newest(start: int, res: int, log: seq<Event>): int {
    Stamp(Latest(start, log), res)
  }

  lemma SlotEnds(points: seq<DataPoint>, start: int, res: int, log: seq<Event>)
    requires points != [] && NewestSlots(points, start, res, log)
    ensures points[0].timestamp == Oldest(start, res, log, |points|)
    ensures points[|points| - 1].timestamp == Newest(start, res, log)
  {
    PointStamp(start, res, log, |points|, 0);
    PointStamp(start, res, log, |points|, |points| - 1);
  }

  /** The points are aggregated at the width asked for if and only if the oldest and the
      newest slot share a window. */
  ghost predicate WidthKeptIffShared(points: seq<DataPoint>, start: int, res: int, log: seq<Event>, coarse: int)
    requires coarse > 0
  {
    points != [] ==>
      (KeepsWidth(Groups(points, coarse), coarse)
       <==> Truncate(Oldest(start, res, log, |points|), coarse) == Truncate(Newest(start, res, log), coarse))
  }

  lemma SlotsWidth(points: seq<DataPoint>, start: int, res: int, log: seq<Event>, coarse: int)
    requires 0 < res <= coarse && NewestSlots(points, start, res, log)
    requires OneApart(points, res) && StrictlyAscending(points)
    ensures WidthKeptIffShared(points, start, res, log, coarse)
  {
    if points != [] {
      SlotEnds(points, start, res, log);
      ContiguousDoubleWindows(points, res, coarse);
    }
  }

  lemma HistoryWidth(start: int, res: int, log: seq<Event>, n: nat, from: int, coarse: int)
    requires 0 < res <= coarse
    ensures WidthKeptIffShared(Since(Points(LogRing(start, res, log, n)), from), start, res, log, coarse)
  {
    HistoryIsSuffix(start, res, log, n, from);
    HistoryIsLogRing(start, res, log, n, from);
    SlotsWidth(Since(Points(LogRing(start, res, log, n)), from), start, res, log, coarse);
  }

  /** The points of an aggregated history are whole numbers of double windows apart. */
  lemma HistoryTimestamps(start: int, res: int, log: seq<Event>, n: nat, from: int, coarse: int, k: nat)
    returns (i: nat)
    requires 0 < res <= coarse
    requires k < |Aggregate(Since(Points(LogRing(start, res, log, n)), from), coarse)|
    ensures var history := Since(Points(LogRing(start, res, log, n)), from);
            && history != []
            && Aggregate(history, coarse)[k].timestamp == Truncate(history[0].timestamp, coarse) + 2 * i * coarse
  {
    var history := Since(Points(LogRing(start, res, log, n)), from);
    i := SummaryOfGroup(Groups(history, coarse), coarse, k);
    HistoryDoubleWindows(start, res, log, n, from, coarse);
  }

  // ---- an input for which a point is wider than asked for ----

  const MINUTE: int := 60_000_000_000

  /** A request of one millisecond in minute 4 and one in minute 5. */
  const TWO_MINUTES: seq<Event> := [Request(4, 1_000_000), Request(5, 1_000_000)]

  lemma TwoSlots(first: Event, second: Event, log: seq<Event>)
    requires log == [first, second] && first.at == 4 && second.at == 5
    ensures Latest(4, log) == 5 && InSlot(4, log, 4) == [first] && InSlot(4, log, 5) == [second]
  {
    var one := log[..1];
    assert one[..0] == [];
    assert Latest(4, one) == 4 && InSlot(4, one, 4) == [first] && InSlot(4, one, 5) == [];
    assert log[..|log| - 1] == one;
  }

  /** The point of a slot with one request of one millisecond. */
  lemma OneRequestPoint(timestamp: int, at: int)
    ensures var p := PointOf(Bucket(timestamp, CountsOf([Request(at, 1_000_000)])));
            p.timestamp == timestamp && p.requests == 1 && Weight(p) == 1
  {
    var e := Request(at, 1_000_000);
    CountsAppended([], e, [e]);
    assert CountsOf([e]).latencies == [1_000_000];
    QuotientTimes(1, 1);
  }

  lemma TwoSlotHistory(start: int, res: int, log: seq<Event>)
    requires res > 0 && Stamp(Latest(start, log) - 1, res) >= 0
    ensures Since(Points(LogRing(start, res, log, 2)), 0)
            == [PointOf(BucketAt(start, res, log, 1)), PointOf(BucketAt(start, res, log, 0))]
  {
    var ring := LogRing(start, res, log, 2);
    assert ring == [BucketAt(start, res, log, 1), BucketAt(start, res, log, 0)];
    StampOrder(Latest(start, log) - 1, Latest(start, log), res);
    SinceAll(Points(ring), 0);
  }

  lemma TwoMinutesHistory() returns (p: DataPoint, q: DataPoint)
    ensures Since(Points(LogRing(4, MINUTE, TWO_MINUTES, 2)), 0) == [p, q]
    ensures p.timestamp == 4 * MINUTE && p.requests == 1 && Weight(p) == 1
    ensures q.timestamp == 5 * MINUTE && q.requests == 1 && Weight(q) == 1
  {
    TwoSlots(TWO_MINUTES[0], TWO_MINUTES[1], TWO_MINUTES);
    TwoSlotHistory(4, MINUTE, TWO_MINUTES);
    OneRequestPoint(4 * MINUTE, 4);
    OneRequestPoint(5 * MINUTE, 5);
    p, q := PointOf(BucketAt(4, MINUTE, TWO_MINUTES, 1)), PointOf(BucketAt(4, MINUTE, TWO_MINUTES, 0));
  }

  lemma GroupOfTwo(p: DataPoint, q: DataPoint, coarse: int)
    requires coarse > 0 && !Outside([p], q, coarse)
    ensures Groups([p, q], coarse) == [[p, q]]
  {
    var g: Group, h: Group := [p], [p, q];
    GroupsOfOne(p, coarse);
    assert h[..|h| - 1] == g && g + [q] == h;
    assert AddPoint([g], q, coarse) == [h];
  }

  lemma CountsOfTwo(p: DataPoint, q: DataPoint, coarse: int)
    requires coarse > 0
    ensures LatencyCount([p, q]) == Weight(p) + Weight(q) && Requests([p, q]) == p.requests + q.requests
  {
    var g: Group := [p];
    GroupOfOne(p, coarse);
    GroupPlusOne(g, q, coarse);
    CountOne(p);
    assert g + [q] == [p, q];
  }

  lemma AggregateOfTwo(p: DataPoint, q: DataPoint, coarse: int)
    requires coarse > 0 && !Outside([p], q, coarse) && Weight(p) > 0 && Weight(q) > 0
    ensures LatencyCount([p, q]) > 0 && Aggregate([p, q], coarse) == [Summary([p, q], coarse)]
    ensures Requests([p, q]) == p.requests + q.requests
  {
    CountsOfTwo(p, q, coarse);
    GroupOfTwo(p, q, coarse);
    SummariesOfOne([p, q], coarse);
  }

  /** Asked for points of five minutes, the history answers with one that counts the requests
      of two windows. */
  lemma FiveMinutesBecomeTen()
    ensures var history := Since(Points(LogRing(4, MINUTE, TWO_MINUTES, 2)), 0);
            var points := Aggregate(history, 5 * MINUTE);
            && |history| == 2 && history[0].requests == history[1].requests == 1
            && Truncate(history[0].timestamp, 5 * MINUTE) == 0
            && Truncate(history[1].timestamp, 5 * MINUTE) == 5 * MINUTE
            && |points| == 1 && points[0].timestamp == 0 && points[0].requests == 2
  {
    var p, q := TwoMinutesHistory();
    AggregateOfTwo(p, q, 5 * MINUTE);
  }
}

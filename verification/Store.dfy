/** The metrics store: a ring of buckets that rotates with the clock, and a sliding window
    of the latest latencies. */
module Store {
  import opened Sorting
  import opened OrderStatistics
  import opened EventLog
  import opened Ring
  import opened History
  import opened Aggregation
  import opened AggregatedHistory

  const MAX_LATENCIES: int := 10000
  const DEFAULT_BUCKETS: int := 1440

  datatype LatencyPercentiles = LatencyPercentiles(p50: real, p90: real, p99: real, avg: real)

  /** The last n elements. */
  function LastN(s: seq<int>, n: nat): seq<int> {
    if |s| <= n then s else s[|s| - n..]
  }

  function PercentilesOf(s: seq<int>): LatencyPercentiles {
    if s == [] then LatencyPercentiles(0.0, 0.0, 0.0, 0.0)
    else LatencyPercentiles(
           Milliseconds(Percentile(s, 50)) as real,
           Milliseconds(Percentile(s, 90)) as real,
           Milliseconds(Percentile(s, 99)) as real,
           Milliseconds(Sum(s)) as real / |s| as real)
  }

  /** What the record says about the samples. */
  ghost predicate Describes(r: LatencyPercentiles, s: seq<int>) {
    if s == [] then r == LatencyPercentiles(0.0, 0.0, 0.0, 0.0)
    else
      && IsPercentile(r.p50, s, 50) && IsPercentile(r.p90, s, 90) && IsPercentile(r.p99, s, 99)
      && IsAverage(r.avg, s)
  }

  lemma PercentilesDescribe(s: seq<int>)
    ensures Describes(PercentilesOf(s), s)
  {
    if s != [] {
      PercentileIs(s, 50);
      PercentileIs(s, 90);
      PercentileIs(s, 99);
      AverageIs(s);
    }
  }

  /** Percentiles grow with the rank, and for non-negative samples the average lies
      between the extremes, in whole milliseconds. */
  lemma PercentilesSound(s: seq<int>, lo: int, hi: int)
    requires s != []
    ensures PercentilesOf(s).p50 <= PercentilesOf(s).p90 <= PercentilesOf(s).p99
    ensures 0 <= lo && (forall i :: 0 <= i < |s| ==> lo <= s[i] <= hi) ==>
              Milliseconds(lo) as real <= PercentilesOf(s).avg < (Milliseconds(hi) + 1) as real
  {
    PercentilesOrdered(s, 50, 90);
    PercentilesOrdered(s, 90, 99);
    if 0 <= lo && forall i :: 0 <= i < |s| ==> lo <= s[i] <= hi {
      AverageBounds(s, lo, hi);
    }
  }

  // ---- the window of latencies ----

  /** The window is a suffix, so it ends with the newest latency. */
  lemma LastNIsSuffix(s: seq<int>, n: nat)
    ensures |LastN(s, n)| == (if |s| < n then |s| else n)
    ensures LastN(s, n) == s[|s| - |LastN(s, n)|..]
  {
  }

  lemma SlideWindow(s: seq<int>, x: int, n: nat)
    requires n > 0
    ensures LastN(LastN(s, n) + [x], n) == LastN(s + [x], n)
  {
  }

  lemma SlideLatencies(log: seq<Event>, e: Event)
    ensures var window := LastN(Latencies(log), MAX_LATENCIES);
            LastN(Latencies(log + [e]), MAX_LATENCIES)
            == if e.Request? then LastN(window + [e.latency], MAX_LATENCIES) else window
  {
    assert (log + [e])[..|log + [e]| - 1] == log;
    if e.Request? {
      SlideWindow(Latencies(log), e.latency, MAX_LATENCIES);
    }
  }

  // ---- the object ----

  class Store {
    const buckets: array<Bucket>
    const resolution: int
    const duration: int
    const maxBuckets: int
    var current: int
    var allLatencies: seq<int>
    // everything recorded since creation or the last Reset, and the slot of that moment
    ghost var log: seq<Event>
    ghost var start: int

    ghost predicate Shape()
      reads this
    {
      resolution > 0 && 0 <= current < maxBuckets == buckets.Length
    }

    /** The ring, oldest bucket first and the current one last. */
    ghost function Window(): seq<Bucket>
      requires Shape()
      reads this, buckets
    {
      Cut(buckets[..], current)
    }

    ghost predicate Valid()
      reads this, buckets
    {
      && Shape()
      && Mirrors(Window(), start, resolution, log)
      && allLatencies == LastN(Latencies(log), MAX_LATENCIES)
    }

    /** The bucket k steps before the current index holds exactly the slot k resolutions
        before the current one. */
    lemma BucketBack(k: nat)
      requires Valid() && k < maxBuckets
      ensures var i := (current - k) % maxBuckets;
              && 0 <= i < maxBuckets
              && buckets[i].timestamp == Stamp(Latest(start, log) - k, resolution)
              && buckets[i].counts == CountsAt(start, log, k)
    {
      assert Window()[maxBuckets - 1 - k] == BucketAt(start, resolution, log, k);
      CutAt(buckets[..], current, k);
    }

    // NewStore
    constructor (duration: int, resolution: int, clock: int)
      requires resolution > 0
      ensures Valid() && fresh(buckets)
      ensures this.resolution == resolution && this.duration == duration
      ensures maxBuckets == if duration / resolution < 1 then 1440 else duration / resolution
      ensures log == [] && start == clock / resolution
    {
      var n := duration / resolution;
      if n < 1 {
        n := DEFAULT_BUCKETS;
      }
      this.duration, this.resolution, maxBuckets := duration, resolution, n;
      buckets := new Bucket[n](i => Bucket(0, Counts(0, 0, [], 0)));
      current, allLatencies := n - 1, [];
      log, start := [], clock / resolution;
      new;
      Clear(clock);
    }

    /** Every bucket empty, stamped back from the clock reading. */
    method Clear(clock: int)
      requires Shape()
      modifies this`current, buckets
      ensures Shape() && Mirrors(Window(), clock / resolution, resolution, [])
    {
      var now := Truncate(clock, resolution);
      TruncateBounds(clock, resolution);
      for i := 0 to maxBuckets
        invariant forall j :: 0 <= j < i ==> buckets[j] == BucketAt(clock / resolution, resolution, [], maxBuckets - j - 1)
      {
        StampLater(clock / resolution, -(maxBuckets - i - 1), resolution);
        buckets[i] := Bucket(now + -(maxBuckets - i - 1) * resolution, Counts(0, 0, [], 0));
      }
      current := maxBuckets - 1;
      assert Window() == buckets[..];
    }

    method Reset(clock: int)
      requires Valid()
      modifies this, buckets
      ensures Valid()
      ensures log == [] && start == clock / resolution
    {
      Clear(clock);
      allLatencies := [];
      log, start := [], clock / resolution;
    }

    /** getCurrentBucket: turns the ring up to the slot of the clock reading, if that is
        later.  `latest` is the slot of the current bucket. */
    method GetCurrentBucket(clock: int, ghost latest: int)
      requires Shape() && Window()[maxBuckets - 1].timestamp == Stamp(latest, resolution)
      modifies this`current, buckets
      ensures Shape()
      ensures var now := if clock / resolution > latest then clock / resolution else latest;
              Window() == Turned(old(Window()), resolution, now - latest)
    {
      var now := Truncate(clock, resolution);
      var currentBucket := buckets[current];
      OverwriteCurrent(buckets[..], current, currentBucket);
      TruncateBounds(clock, resolution);
      StampOrder(latest, clock / resolution, resolution);
      if now > currentBucket.timestamp {
        var elapsed := now - currentBucket.timestamp;
        var skip := elapsed / resolution;
        StampDifference(latest, clock / resolution, resolution);
        RotateTo(currentBucket.timestamp, skip);
      }
    }

    /** The loop of getCurrentBucket. */
    method RotateTo(timestamp: int, skip: nat)
      requires Shape() && Window()[maxBuckets - 1].timestamp == timestamp
      modifies this`current, buckets
      ensures Shape() && Window() == Turned(old(Window()), resolution, skip)
    {
      for i := 0 to skip
        invariant Shape()
        invariant Window() == Turned(old(Window()), resolution, i)
        invariant Window()[maxBuckets - 1].timestamp == timestamp + i * resolution
      {
        assert (i + 1) * resolution == i * resolution + resolution;
        Rotate(timestamp + (i + 1) * resolution);
      }
    }

    /** The body of that loop. */
    method Rotate(timestamp: int)
      requires Shape()
      modifies this`current, buckets
      ensures Shape() && Window() == old(Window())[1..] + [Bucket(timestamp, CountsOf([]))]
    {
      OverwriteNext(buckets[..], current, Bucket(timestamp, Counts(0, 0, [], 0)));
      ghost var s := buckets[..];
      current := (current + 1) % maxBuckets;
      buckets[current] := Bucket(timestamp, Counts(0, 0, [], 0));
      assert buckets[..] == s[current := Bucket(timestamp, Counts(0, 0, [], 0))];
    }

    /** The current bucket counts the event. */
    method Count(e: Event)
      requires Shape()
      modifies buckets
      ensures Window() == Counted(old(Window()), e)
    {
      var b := buckets[current];
      var counts := match e
        case Request(_, latency) =>
          b.counts.(requests := b.counts.requests + 1, latencies := b.counts.latencies + [latency],
                    totalLatency := b.counts.totalLatency + latency)
        case Failure(_) => b.counts.(errors := b.counts.errors + 1);
      OverwriteCurrent(buckets[..], current, b.(counts := counts));
      buckets[current] := b.(counts := counts);
    }

    /** Turn to the slot of the clock reading, then count. */
    method CountEvent(e: Event, clock: int, ghost latest: int)
      requires Shape() && Window()[maxBuckets - 1].timestamp == Stamp(latest, resolution)
      requires e.at == clock / resolution
      modifies this`current, buckets
      ensures Shape()
      ensures var now := if e.at > latest then e.at else latest;
              Window() == Counted(Turned(old(Window()), resolution, now - latest), e)
    {
      GetCurrentBucket(clock, latest);
      Count(e);
    }

    /** The window follows the log through one event. */
    method LogEvent(e: Event, clock: int)
      requires Shape() && Mirrors(Window(), start, resolution, log)
      requires e.at == clock / resolution
      modifies this`current, this`log, buckets
      ensures Shape() && Mirrors(Window(), start, resolution, log)
      ensures log == old(log) + [e]
    {
      ghost var turns := Moved(start, log, e.at) - Latest(start, log);
      ghost var turned := Turned(Window(), resolution, turns);
      RecordMirrors(Window(), start, resolution, log, e);
      NewestStamp(Window(), start, resolution, log);
      CountEvent(e, clock, Latest(start, log));
      assert Window() == Counted(turned, e);
      log := log + [e];
    }

    method RecordRequest(latency: int, clock: int)
      requires Valid()
      modifies this, buckets
      ensures Valid()
      ensures start == old(start)
      ensures log == old(log) + [Request(clock / resolution, latency)]
    {
      var e := Request(clock / resolution, latency);
      SlideLatencies(log, e);
      LogEvent(e, clock);
      KeepLatency(latency);
    }

    method KeepLatency(latency: int)
      modifies this`allLatencies
      ensures allLatencies == LastN(old(allLatencies) + [latency], MAX_LATENCIES)
    {
      allLatencies := allLatencies + [latency];
      if |allLatencies| > MAX_LATENCIES {
        allLatencies := allLatencies[|allLatencies| - MAX_LATENCIES..];
      }
    }

    method RecordError(clock: int)
      requires Valid()
      modifies this, buckets
      ensures Valid()
      ensures start == old(start)
      ensures log == old(log) + [Failure(clock / resolution)]
    {
      var e := Failure(clock / resolution);
      SlideLatencies(log, e);
      LogEvent(e, clock);
    }

    method GetLatencyPercentiles() returns (r: LatencyPercentiles)
      requires Valid()
      ensures r == PercentilesOf(LastN(Latencies(log), MAX_LATENCIES))
      ensures var all := Latencies(log);
              Describes(r, if |all| <= 10_000 then all else all[|all| - 10_000..])
    {
      PercentilesDescribe(allLatencies);
      if |allLatencies| == 0 {
        return LatencyPercentiles(0.0, 0.0, 0.0, 0.0);
      }
      var sorted := Sort(allLatencies, Same);
      SortKeeps(allLatencies, Same);
      SumSort(allLatencies);
      var n := |sorted|;
      var total := TotalOf(sorted);
      r := LatencyPercentiles(
        Milliseconds(sorted[n * 50 / 100]) as real,
        Milliseconds(sorted[n * 90 / 100]) as real,
        Milliseconds(sorted[n * 99 / 100]) as real,
        Milliseconds(total) as real / n as real);
    }

    /** The loop of GetLatencyPercentiles. */
    method TotalOf(sorted: seq<int>) returns (total: int)
      ensures total == Sum(sorted)
    {
      total := 0;
      for i := 0 to |sorted|
        invariant total == Sum(sorted[..i])
      {
        SumOneMore(sorted, i);
        total := total + sorted[i];
      }
      assert sorted[..|sorted|] == sorted;
    }

    method GetHistory(duration: int, resolution: int, clock: int) returns (points: seq<DataPoint>)
      requires Valid()
      ensures var history := Since(Points(LogRing(start, this.resolution, log, maxBuckets)), clock - duration);
              && points == (if resolution > this.resolution then Aggregate(history, resolution) else history)
              && (CountAllEvents(points, start, log, |history|) <==>
                    resolution <= this.resolution || SilentAreEmpty(Groups(history, resolution)))
      ensures StrictlyAscending(points)
      ensures resolution <= this.resolution ==> StandForSlots(points, start, this.resolution, log)
    {
      points := Answer(duration, resolution, clock);
      AnswerIsSound(start, this.resolution, log, maxBuckets, clock - duration, resolution, points);
    }

    /** The body of GetHistory. */
    method Answer(duration: int, resolution: int, clock: int) returns (points: seq<DataPoint>)
      requires Valid()
      ensures var history := Since(Points(LogRing(start, this.resolution, log, maxBuckets)), clock - duration);
              points == if resolution > this.resolution then Aggregate(history, resolution) else history
    {
      points := SortedSince(clock - duration);
      if resolution > this.resolution {
        points := AggregatePoints(points, resolution);
      }
    }

    method SortedSince(startTime: int) returns (points: seq<DataPoint>)
      requires Valid()
      ensures points == Since(Points(LogRing(start, resolution, log, maxBuckets)), startTime)
    {
      SortedArrayIsHistory(buckets[..], current, start, resolution, log, startTime);
      points := PointsSince(startTime);
      points := Sort(points, TimestampOf);
    }

    /** The loop of GetHistory. */
    method PointsSince(startTime: int) returns (points: seq<DataPoint>)
      ensures points == Since(Points(buckets[..]), startTime)
    {
      points := [];
      ghost var all := Points(buckets[..]);
      for i := 0 to buckets.Length
        invariant points == Since(all[..i], startTime)
      {
        SinceOneMore(all, i, startTime);
        var b := buckets[i];
        if b.timestamp < startTime {
          continue;
        }
        points := points + [PointOf(b)];
      }
      assert all[..buckets.Length] == all;
    }
  }
}

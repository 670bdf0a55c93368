/** aggregatePoints: one pass that merges history points into coarser groups. */
module Aggregation {
  import opened Common

  // A history point; its Connections field is never set and is left out.
  datatype DataPoint = DataPoint(
    timestamp: int, requests: int, errors: int,
    avgLatency: real, p50Latency: real, p90Latency: real, p99Latency: real)

  /** Time.Truncate, with time in nanoseconds since the zero time. */
  function Truncate(t: int, d: int): int
    requires d > 0
  {
    t - t % d
  }

  // ---- the grouping, as a function of the points ----

  type Group = g: seq<DataPoint> | g != [] witness [DataPoint(0, 0, 0, 0.0, 0.0, 0.0, 0.0)]

  function GroupStart(g: Group, res: int): int
    requires res > 0
  {
    Truncate(g[0].timestamp, res)
  }

  /** p does not fit into the group: its truncated time is more than one resolution after
      the group's start. */
  predicate Outside(g: Group, p: DataPoint, res: int)
    requires res > 0
  {
    Truncate(p.timestamp, res) > GroupStart(g, res) + res
  }

  function AddPoint(gs: seq<Group>, p: DataPoint, res: int): seq<Group>
    requires res > 0
  {
    if gs == [] || Outside(gs[|gs| - 1], p, res) then gs + [[p]]
    else gs[..|gs| - 1] + [gs[|gs| - 1] + [p]]
  }

  function Groups(points: seq<DataPoint>, res: int): seq<Group>
    requires res > 0
  {
    if points == [] then []
    else AddPoint(Groups(points[..|points| - 1], res), points[|points| - 1], res)
  }

  // ---- what a group is reduced to ----

  function Requests(g: seq<DataPoint>): int {
    if g == [] then 0 else Requests(g[..|g| - 1]) + g[|g| - 1].requests
  }

  function Errors(g: seq<DataPoint>): int {
    if g == [] then 0 else Errors(g[..|g| - 1]) + g[|g| - 1].errors
  }

  /** Only points with a positive average contribute to the latency of a group. */
  function Weight(p: DataPoint): int {
    if p.avgLatency > 0.0 then p.requests else 0
  }

  function Latency(p: DataPoint): real {
    if p.avgLatency > 0.0 then p.avgLatency * p.requests as real else 0.0
  }

  function LatencyCount(g: seq<DataPoint>): int {
    if g == [] then 0 else LatencyCount(g[..|g| - 1]) + Weight(g[|g| - 1])
  }

  function LatencySum(g: seq<DataPoint>): real {
    if g == [] then 0.0
    else LatencySum(g[..|g| - 1]) + Latency(g[|g| - 1])
  }

  function Max(a: real, b: real): real { if b > a then b else a }

  function MaxP50(g: seq<DataPoint>): real {
    if g == [] then 0.0 else Max(MaxP50(g[..|g| - 1]), g[|g| - 1].p50Latency)
  }

  function MaxP90(g: seq<DataPoint>): real {
    if g == [] then 0.0 else Max(MaxP90(g[..|g| - 1]), g[|g| - 1].p90Latency)
  }

  function MaxP99(g: seq<DataPoint>): real {
    if g == [] then 0.0 else Max(MaxP99(g[..|g| - 1]), g[|g| - 1].p99Latency)
  }

  /** The group before its average is filled in. */
  function Open(g: Group, res: int): DataPoint
    requires res > 0
  {
    DataPoint(GroupStart(g, res), Requests(g), Errors(g), 0.0, MaxP50(g), MaxP90(g), MaxP99(g))
  }

  function Summary(g: Group, res: int): DataPoint
    requires res > 0 && LatencyCount(g) > 0
  {
    Open(g, res).(avgLatency := LatencySum(g) / LatencyCount(g) as real)
  }

  /** A group whose points carry no latency is dropped. */
  function Summaries(gs: seq<Group>, res: int): seq<DataPoint>
    requires res > 0
  {
    if gs == [] then []
    else
      var g := gs[|gs| - 1];
      var before := Summaries(gs[..|gs| - 1], res);
      if LatencyCount(g) > 0 then before + [Summary(g, res)] else before
  }

  function Aggregate(points: seq<DataPoint>, res: int): seq<DataPoint>
    requires res > 0
  {
    Summaries(Groups(points, res), res)
  }

  // ---- the loop ----

  /** What the running variables stand for while the last group is being filled. */
  ghost predicate Collecting(gs: seq<Group>, res: int, result: seq<DataPoint>, current: DataPoint,
                             currentEnd: int, latencySum: real, latencyCount: int)
    requires res > 0
  {
    && gs != []
    && var g := gs[|gs| - 1];
    && result == Summaries(gs[..|gs| - 1], res)
    && current == Open(g, res)
    && currentEnd == GroupStart(g, res) + res
    && latencySum == LatencySum(g)
    && latencyCount == LatencyCount(g)
  }

  /** A group summary takes in one more point. */
  function Absorb(c: DataPoint, p: DataPoint): DataPoint {
    c.(requests := c.requests + p.requests, errors := c.errors + p.errors,
       p50Latency := Max(c.p50Latency, p.p50Latency), p90Latency := Max(c.p90Latency, p.p90Latency),
       p99Latency := Max(c.p99Latency, p.p99Latency))
  }

  function Blank(start: int): DataPoint {
    DataPoint(start, 0, 0, 0.0, 0.0, 0.0, 0.0)
  }

  /** The result once the group being filled is finished. */
  function Flushed(result: seq<DataPoint>, current: DataPoint, latencySum: real, latencyCount: int): seq<DataPoint> {
    if latencyCount > 0 then result + [current.(avgLatency := latencySum / latencyCount as real)] else result
  }

  method AggregatePoints(points: seq<DataPoint>, resolution: int) returns (result: seq<DataPoint>)
    requires resolution > 0
    ensures result == Aggregate(points, resolution)
  {
    if |points| == 0 {
      return points;
    }
    result := [];
    var current: Option<DataPoint> := None;
    var currentEnd := 0;
    var latencySum := 0.0;
    var latencyCount := 0;
    ghost var groups: seq<Group> := [];
    for i := 0 to |points|
      invariant groups == Groups(points[..i], resolution)
      invariant current.None? <==> i == 0
      invariant current.None? ==> result == [] && groups == []
      invariant current.Some? ==>
                  Collecting(groups, resolution, result, current.value, currentEnd, latencySum, latencyCount)
    {
      var p := points[i];
      OneMorePoint(points, i, resolution);
      var bucketStart := Truncate(p.timestamp, resolution);
      if current.None? || bucketStart > currentEnd {
        if current.Some? {
          NextGroup(groups, p, resolution, result, current.value, currentEnd, latencySum, latencyCount);
          result := Flushed(result, current.value, latencySum, latencyCount);
        } else {
          FirstGroup(p, resolution);
        }
        current := Some(Blank(bucketStart));
        currentEnd := bucketStart + resolution;
        latencySum := 0.0;
        latencyCount := 0;
      } else {
        GrowGroup(groups, p, resolution, result, current.value, currentEnd, latencySum, latencyCount);
      }
      current := Some(Absorb(current.value, p));
      latencySum := latencySum + Latency(p);
      latencyCount := latencyCount + Weight(p);
      groups := AddPoint(groups, p, resolution);
    }
    assert points[..|points|] == points;
    LastGroup(groups, resolution, result, current.value, currentEnd, latencySum, latencyCount);
    result := Flushed(result, current.value, latencySum, latencyCount);
  }

  lemma LastGroup(gs: seq<Group>, res: int, result: seq<DataPoint>, current: DataPoint,
                  currentEnd: int, latencySum: real, latencyCount: int)
    requires res > 0 && Collecting(gs, res, result, current, currentEnd, latencySum, latencyCount)
    ensures Flushed(result, current, latencySum, latencyCount) == Summaries(gs, res)
  {
  }

  lemma OneMorePoint(points: seq<DataPoint>, i: nat, res: int)
    requires res > 0 && i < |points|
    ensures Groups(points[..i + 1], res) == AddPoint(Groups(points[..i], res), points[i], res)
  {
    assert points[..i + 1][..i] == points[..i];
  }

  lemma FirstGroup(p: DataPoint, res: int)
    requires res > 0
    ensures var start := Truncate(p.timestamp, res);
            Collecting(AddPoint([], p, res), res, [], Absorb(Blank(start), p), start + res, Latency(p), Weight(p))
  {
    GroupOfOne(p, res);
  }

  /** The finished group is summed up and a new one begins with p. */
  lemma NextGroup(gs: seq<Group>, p: DataPoint, res: int, result: seq<DataPoint>, current: DataPoint,
                   currentEnd: int, latencySum: real, latencyCount: int)
    requires res > 0 && Collecting(gs, res, result, current, currentEnd, latencySum, latencyCount)
    requires Outside(gs[|gs| - 1], p, res)
    ensures var start := Truncate(p.timestamp, res);
            var flushed := Flushed(result, current, latencySum, latencyCount);
            Collecting(AddPoint(gs, p, res), res, flushed, Absorb(Blank(start), p), start + res, Latency(p), Weight(p))
  {
    GroupOfOne(p, res);
    var gs' := AddPoint(gs, p, res);
    assert gs'[..|gs'| - 1] == gs;
  }

  /** p joins the group being filled. */
  lemma GrowGroup(gs: seq<Group>, p: DataPoint, res: int, result: seq<DataPoint>, current: DataPoint,
                  currentEnd: int, latencySum: real, latencyCount: int)
    requires res > 0 && Collecting(gs, res, result, current, currentEnd, latencySum, latencyCount)
    requires !Outside(gs[|gs| - 1], p, res)
    ensures Collecting(AddPoint(gs, p, res), res, result, Absorb(current, p), currentEnd,
                       latencySum + Latency(p), latencyCount + Weight(p))
  {
    var gs' := AddPoint(gs, p, res);
    assert gs'[..|gs'| - 1] == gs[..|gs| - 1];
    GroupPlusOne(gs[|gs| - 1], p, res);
  }

  lemma GroupOfOne(p: DataPoint, res: int)
    requires res > 0
    ensures Open([p], res) == Absorb(Blank(Truncate(p.timestamp, res)), p)
    ensures LatencyCount([p]) == Weight(p)
    ensures LatencySum([p]) == Latency(p)
  {
    var g: Group := [p];
    var none: seq<DataPoint> := [];
    assert g[..|g| - 1] == none && g[|g| - 1] == p;
    assert Requests(g) == Requests(none) + p.requests;
    assert Errors(g) == Errors(none) + p.errors;
    assert MaxP50(g) == Max(MaxP50(none), p.p50Latency);
    assert MaxP90(g) == Max(MaxP90(none), p.p90Latency);
    assert MaxP99(g) == Max(MaxP99(none), p.p99Latency);
  }

  lemma GroupPlusOne(g: Group, p: DataPoint, res: int)
    requires res > 0
    ensures Open(g + [p], res) == Absorb(Open(g, res), p)
    ensures LatencyCount(g + [p]) == LatencyCount(g) + Weight(p)
    ensures LatencySum(g + [p]) == LatencySum(g) + Latency(p)
  {
    assert (g + [p])[..|g + [p]| - 1] == g;
  }

  // ---- the groups partition the points ----

  function Flatten(gs: seq<Group>): seq<DataPoint> {
    if gs == [] then [] else Flatten(gs[..|gs| - 1]) + gs[|gs| - 1]
  }

  /** The groups hold the points, all of them, in order. */
  lemma {:induction false} GroupsPartition(points: seq<DataPoint>, res: int)
    requires res > 0
    ensures Flatten(Groups(points, res)) == points
  {
    if points != [] {
      var init, p := points[..|points| - 1], points[|points| - 1];
      GroupsPartition(init, res);
      var gs := Groups(init, res);
      var gs' := AddPoint(gs, p, res);
      if gs == [] || Outside(gs[|gs| - 1], p, res) {
        assert gs'[..|gs'| - 1] == gs;
      } else {
        assert gs'[..|gs'| - 1] == gs[..|gs| - 1];
      }
      assert points == init + [p];
    }
  }

  /** Where group i begins among the points, if the groups are laid end to end. */
  function Offset(gs: seq<Group>, i: nat): nat
    requires i <= |gs|
  {
    |Flatten(gs[..i])|
  }

  lemma {:induction false} FlattenAt(gs: seq<Group>, i: nat)
    requires i < |gs|
    ensures Offset(gs, i + 1) == Offset(gs, i) + |gs[i]| <= |Flatten(gs)|
    ensures Flatten(gs)[Offset(gs, i)..Offset(gs, i + 1)] == gs[i]
  {
    var init, last := gs[..|gs| - 1], gs[|gs| - 1];
    assert gs[..i + 1][..i] == gs[..i];
    if i == |gs| - 1 {
      assert gs[..i + 1] == gs;
    } else {
      FlattenAt(init, i);
      assert init[..i] == gs[..i] && init[..i + 1] == gs[..i + 1];
      var a, b := Offset(gs, i), Offset(gs, i + 1);
      assert (Flatten(init) + last)[a..b] == Flatten(init)[a..b];
    }
  }

  lemma {:induction false} OffsetsAscend(gs: seq<Group>, i: nat, j: nat)
    requires i <= j <= |gs|
    ensures Offset(gs, i) <= Offset(gs, j)
  {
    if i < j {
      OffsetsAscend(gs, i, j - 1);
      FlattenAt(gs, j - 1);
    }
  }

  /** Group i is the points from its offset to the next. */
  lemma GroupAt(points: seq<DataPoint>, res: int, i: nat)
    requires res > 0 && i < |Groups(points, res)|
    ensures var gs := Groups(points, res);
            && Offset(gs, i) < Offset(gs, i + 1) <= |points|
            && gs[i] == points[Offset(gs, i)..Offset(gs, i + 1)]
  {
    GroupsPartition(points, res);
    FlattenAt(Groups(points, res), i);
  }

  /** Each group is a run of consecutive points. */
  lemma GroupIsSlice(points: seq<DataPoint>, res: int, i: nat) returns (a: nat, b: nat)
    requires res > 0 && i < |Groups(points, res)|
    ensures a < b <= |points| && Groups(points, res)[i] == points[a..b]
  {
    GroupAt(points, res, i);
    a, b := Offset(Groups(points, res), i), Offset(Groups(points, res), i + 1);
  }

  // ---- where the groups lie ----

  ghost predicate Sorted(points: seq<DataPoint>) {
    forall i, j :: 0 <= i < j < |points| ==> points[i].timestamp <= points[j].timestamp
  }

  /** Successive groups start two or more resolutions apart. */
  ghost predicate Spaced(gs: seq<Group>, res: int)
    requires res > 0
  {
    forall i :: 0 < i < |gs| ==> GroupStart(gs[i], res) >= GroupStart(gs[i - 1], res) + 2 * res
  }

  /** Every point lies at or after its group's start, and less than two resolutions after. */
  ghost predicate Within(g: Group, res: int)
    requires res > 0
  {
    forall i :: 0 <= i < |g| ==> GroupStart(g, res) <= g[i].timestamp < GroupStart(g, res) + 2 * res
  }

  lemma TruncateBounds(t: int, d: int)
    requires d > 0
    ensures Truncate(t, d) <= t < Truncate(t, d) + d
    ensures Truncate(t, d) == t / d * d
  {
  }

  lemma MultiplesOrdered(a: int, b: int, d: int)
    requires d > 0 && a <= b
    ensures a * d <= b * d
  {
  }

  /** Multiples more than one step apart are at least two apart. */
  lemma MultiplesGap(a: int, b: int, d: int)
    requires d > 0 && b * d > a * d + d
    ensures b * d >= a * d + 2 * d
  {
    if b <= a + 1 {
      MultiplesOrdered(b, a + 1, d);
    } else {
      MultiplesOrdered(a + 2, b, d);
    }
  }

  /** Aligned times more than one resolution apart are at least two apart. */
  lemma AlignedGap(s: int, t: int, d: int)
    requires d > 0 && Truncate(t, d) > Truncate(s, d) + d
    ensures Truncate(t, d) >= Truncate(s, d) + 2 * d
  {
    TruncateBounds(s, d);
    TruncateBounds(t, d);
    MultiplesGap(s / d, t / d, d);
  }

  lemma {:induction false} LastPoint(points: seq<DataPoint>, res: int)
    requires res > 0 && points != []
    ensures var gs := Groups(points, res);
            gs != [] && (var g := gs[|gs| - 1]; g[|g| - 1] == points[|points| - 1])
  {
  }

  lemma PointStaysWithin(g: Group, p: DataPoint, res: int)
    requires res > 0 && Within(g, res) && g[|g| - 1].timestamp <= p.timestamp && !Outside(g, p, res)
    ensures Within(g + [p], res)
  {
    var h: Group := g + [p];
    TruncateBounds(p.timestamp, res);
    assert h[0] == g[0];
    assert GroupStart(g, res) <= g[|g| - 1].timestamp;
  }

  lemma AddPointSpaced(gs: seq<Group>, p: DataPoint, res: int)
    requires res > 0 && Spaced(gs, res)
    ensures Spaced(AddPoint(gs, p, res), res)
  {
    var gs' := AddPoint(gs, p, res);
    var n := |gs|;
    if n > 0 && Outside(gs[n - 1], p, res) {
      AlignedGap(gs[n - 1][0].timestamp, p.timestamp, res);
      assert gs'[n][0] == p;
    } else if n > 0 {
      assert gs'[n - 1][0] == gs[n - 1][0];
    }
    forall i | 0 < i < |gs'|
      ensures GroupStart(gs'[i], res) >= GroupStart(gs'[i - 1], res) + 2 * res
    {
      assert gs'[i - 1][0] == gs[i - 1][0];
      assert i < n ==> gs'[i][0] == gs[i][0];
    }
  }

  /** Successive groups start at least two resolutions apart, on any input. */
  lemma {:induction false} GroupsSpaced(points: seq<DataPoint>, res: int)
    requires res > 0
    ensures Spaced(Groups(points, res), res)
  {
    if points != [] {
      GroupsSpaced(points[..|points| - 1], res);
      AddPointSpaced(Groups(points[..|points| - 1], res), points[|points| - 1], res);
    }
  }

  ghost predicate AllWithin(gs: seq<Group>, res: int)
    requires res > 0
  {
    forall i :: 0 <= i < |gs| ==> Within(gs[i], res)
  }

  lemma AddPointWithin(gs: seq<Group>, p: DataPoint, res: int)
    requires res > 0 && AllWithin(gs, res)
    requires gs != [] ==> var g := gs[|gs| - 1]; g[|g| - 1].timestamp <= p.timestamp
    ensures AllWithin(AddPoint(gs, p, res), res)
  {
    TruncateBounds(p.timestamp, res);
    if gs != [] && !Outside(gs[|gs| - 1], p, res) {
      PointStaysWithin(gs[|gs| - 1], p, res);
    }
  }

  /** On sorted points each group spans less than two resolutions. */
  lemma {:induction false} GroupsWithin(points: seq<DataPoint>, res: int)
    requires res > 0 && Sorted(points)
    ensures AllWithin(Groups(points, res), res)
  {
    if points != [] {
      var init, p := points[..|points| - 1], points[|points| - 1];
      GroupsWithin(init, res);
      if init != [] {
        LastPoint(init, res);
      }
      AddPointWithin(Groups(init, res), p, res);
    }
  }

  // ---- conservation ----

  function Dropped(gs: seq<Group>): seq<Group> {
    if gs == [] then []
    else
      var g := gs[|gs| - 1];
      if LatencyCount(g) > 0 then Dropped(gs[..|gs| - 1]) else Dropped(gs[..|gs| - 1]) + [g]
  }

  lemma {:induction false} RequestsConcat(s: seq<DataPoint>, t: seq<DataPoint>)
    ensures Requests(s + t) == Requests(s) + Requests(t)
    ensures Errors(s + t) == Errors(s) + Errors(t)
  {
    if t == [] {
      assert s + t == s;
    } else {
      assert (s + t)[..|s + t| - 1] == s + t[..|t| - 1];
      RequestsConcat(s, t[..|t| - 1]);
    }
  }

  lemma {:induction false} SummariesConserve(gs: seq<Group>, res: int)
    requires res > 0
    ensures Requests(Summaries(gs, res)) == Requests(Flatten(gs)) - Requests(Flatten(Dropped(gs)))
    ensures Errors(Summaries(gs, res)) == Errors(Flatten(gs)) - Errors(Flatten(Dropped(gs)))
  {
    if gs != [] {
      var init, g := gs[..|gs| - 1], gs[|gs| - 1];
      SummariesConserve(init, res);
      RequestsConcat(Flatten(init), g);
      if LatencyCount(g) > 0 {
        var out := Summaries(gs, res);
        assert out[..|out| - 1] == Summaries(init, res);
      } else {
        var dropped := Dropped(gs);
        assert dropped[..|dropped| - 1] == Dropped(init);
        RequestsConcat(Flatten(Dropped(init)), g);
      }
    }
  }

  /** Aggregation loses exactly the requests and errors of the dropped groups. */
  lemma AggregateConserves(points: seq<DataPoint>, res: int)
    requires res > 0
    ensures var dropped := Flatten(Dropped(Groups(points, res)));
            && Requests(Aggregate(points, res)) == Requests(points) - Requests(dropped)
            && Errors(Aggregate(points, res)) == Errors(points) - Errors(dropped)
  {
    GroupsPartition(points, res);
    SummariesConserve(Groups(points, res), res);
  }

  /** A point that gives its group a latency. */
  predicate Contributes(p: DataPoint) {
    p.avgLatency > 0.0 && p.requests > 0
  }

  /** No point gives the group a latency. */
  ghost predicate Silent(g: seq<DataPoint>) {
    forall i :: 0 <= i < |g| ==> !Contributes(g[i])
  }

  ghost predicate NonNegative(g: seq<DataPoint>) {
    forall i :: 0 <= i < |g| ==> g[i].requests >= 0 && g[i].errors >= 0
  }

  /** A group is dropped exactly if none of its points has a positive average and
      requests. */
  lemma {:induction false} DroppedIffSilent(g: seq<DataPoint>)
    requires forall i :: 0 <= i < |g| ==> g[i].requests >= 0
    ensures LatencyCount(g) >= 0
    ensures LatencyCount(g) > 0 <==> !Silent(g)
  {
    if g != [] {
      var init, p := g[..|g| - 1], g[|g| - 1];
      DroppedIffSilent(init);
      assert Silent(g) <==> Silent(init) && !Contributes(p) by {
        assert forall i :: 0 <= i < |init| ==> init[i] == g[i];
      }
    }
  }

  ghost function SilentGroups(gs: seq<Group>): seq<Group> {
    if gs == [] then []
    else
      var g := gs[|gs| - 1];
      var before := SilentGroups(gs[..|gs| - 1]);
      if Silent(g) then before + [g] else before
  }

  lemma {:induction false} DroppedAreSilent(gs: seq<Group>)
    requires forall i :: 0 <= i < |gs| ==> NonNegative(gs[i])
    ensures Dropped(gs) == SilentGroups(gs)
  {
    if gs != [] {
      DroppedAreSilent(gs[..|gs| - 1]);
      assert NonNegative(gs[|gs| - 1]);
      DroppedIffSilent(gs[|gs| - 1]);
    }
  }

  /** Nothing was counted in a silent group. */
  ghost predicate SilentAreEmpty(gs: seq<Group>) {
    forall i :: 0 <= i < |gs| && Silent(gs[i]) ==> Requests(gs[i]) == 0 && Errors(gs[i]) == 0
  }

  lemma {:induction false} CountsNotNegative(g: seq<DataPoint>)
    requires NonNegative(g)
    ensures Requests(g) >= 0 && Errors(g) >= 0
  {
    if g != [] {
      CountsNotNegative(g[..|g| - 1]);
    }
  }

  lemma {:induction false} LossIsNotNegative(gs: seq<Group>)
    requires forall i :: 0 <= i < |gs| ==> NonNegative(gs[i])
    ensures var lost := Flatten(SilentGroups(gs));
            && Requests(lost) >= 0 && Errors(lost) >= 0
            && (Requests(lost) == 0 && Errors(lost) == 0 <==> SilentAreEmpty(gs))
  {
    if gs != [] {
      var init, g := gs[..|gs| - 1], gs[|gs| - 1];
      assert NonNegative(g);
      LossIsNotNegative(init);
      assert SilentAreEmpty(gs) <==> SilentAreEmpty(init) && (Silent(g) ==> Requests(g) == 0 && Errors(g) == 0) by {
        assert forall i :: 0 <= i < |init| ==> init[i] == gs[i];
      }
      if Silent(g) {
        var silent := SilentGroups(gs);
        assert silent[..|silent| - 1] == SilentGroups(init);
        RequestsConcat(Flatten(SilentGroups(init)), g);
        CountsNotNegative(g);
      }
    }
  }

  lemma GroupsNonNegative(points: seq<DataPoint>, res: int)
    requires res > 0 && NonNegative(points)
    ensures forall i :: 0 <= i < |Groups(points, res)| ==> NonNegative(Groups(points, res)[i])
  {
    forall i | 0 <= i < |Groups(points, res)|
      ensures NonNegative(Groups(points, res)[i])
    {
      var a, b := GroupIsSlice(points, res, i);
    }
  }

  /** Aggregation loses exactly what the silent groups counted, and so nothing at all if and
      only if nothing was counted in them. */
  lemma LostIffSilent(points: seq<DataPoint>, res: int)
    requires res > 0 && NonNegative(points)
    ensures var gs := Groups(points, res);
            var lost := Flatten(SilentGroups(gs));
            && Dropped(gs) == SilentGroups(gs)
            && Requests(Aggregate(points, res)) == Requests(points) - Requests(lost)
            && Errors(Aggregate(points, res)) == Errors(points) - Errors(lost)
            && (SilentAreEmpty(gs) <==>
                  Requests(Aggregate(points, res)) == Requests(points)
                  && Errors(Aggregate(points, res)) == Errors(points))
  {
    GroupsNonNegative(points, res);
    DroppedAreSilent(Groups(points, res));
    AggregateConserves(points, res);
    LossIsNotNegative(Groups(points, res));
  }

  /** Every point of the result sums up one of the groups that are kept. */
  lemma {:induction false} SummaryOfGroup(gs: seq<Group>, res: int, k: nat) returns (i: nat)
    requires res > 0 && k < |Summaries(gs, res)|
    ensures i < |gs| && LatencyCount(gs[i]) > 0 && Summaries(gs, res)[k] == Summary(gs[i], res)
  {
    var init := gs[..|gs| - 1];
    i := |gs| - 1;
    if k < |Summaries(init, res)| {
      i := SummaryOfGroup(init, res, k);
    }
  }

  // ---- the order of the result ----

  ghost predicate Increasing(s: seq<nat>) {
    forall k, l :: 0 <= k < l < |s| ==> s[k] < s[l]
  }

  /** The k-th summary is that of group picked[k]. */
  ghost predicate SumsUpPicked(gs: seq<Group>, res: int, picked: seq<nat>, result: seq<DataPoint>)
    requires res > 0
  {
    && |picked| == |result|
    && forall k :: 0 <= k < |picked| ==>
         picked[k] < |gs| && LatencyCount(gs[picked[k]]) > 0 && result[k] == Summary(gs[picked[k]], res)
  }

  ghost predicate PicksAll(gs: seq<Group>, picked: seq<nat>) {
    forall i :: 0 <= i < |gs| && LatencyCount(gs[i]) > 0 ==> i in picked
  }

  lemma PickMore(gs: seq<Group>, g: Group, res: int, picked: seq<nat>, result: seq<DataPoint>)
    requires res > 0 && SumsUpPicked(gs, res, picked, result)
    ensures SumsUpPicked(gs + [g], res, picked, result)
    ensures LatencyCount(g) > 0 ==> SumsUpPicked(gs + [g], res, picked + [|gs|], result + [Summary(g, res)])
  {
  }

  lemma PickAllMore(gs: seq<Group>, g: Group, picked: seq<nat>, more: seq<nat>)
    requires PicksAll(gs, picked) && (LatencyCount(g) > 0 ==> |gs| in more)
    ensures PicksAll(gs + [g], picked + more)
  {
    var gs' := gs + [g];
    forall i | 0 <= i < |gs'| && LatencyCount(gs'[i]) > 0
      ensures i in picked + more
    {
      assert i < |gs| ==> gs'[i] == gs[i] && i in picked;
    }
  }

  lemma IncreasingMore(gs: seq<Group>, res: int, picked: seq<nat>, result: seq<DataPoint>)
    requires res > 0 && Increasing(picked) && SumsUpPicked(gs, res, picked, result)
    ensures Increasing(picked + [|gs|])
  {
  }

  /** The result sums up the groups that carry latency: each exactly once, and in order. */
  lemma {:induction false} SummariesInOrder(gs: seq<Group>, res: int) returns (picked: seq<nat>)
    requires res > 0
    ensures Increasing(picked) && PicksAll(gs, picked) && SumsUpPicked(gs, res, picked, Summaries(gs, res))
  {
    picked := [];
    if gs != [] {
      var init, g := gs[..|gs| - 1], gs[|gs| - 1];
      var before := SummariesInOrder(init, res);
      var more := if LatencyCount(g) > 0 then [|init|] else [];
      picked := before + more;
      assert gs == init + [g];
      assert more == [] ==> picked == before;
      PickMore(init, g, res, before, Summaries(init, res));
      PickAllMore(init, g, before, more);
      IncreasingMore(init, res, before, Summaries(init, res));
    }
  }

  /** Later groups start later. */
  lemma {:induction false} StartsAscend(gs: seq<Group>, res: int, i: nat, j: nat)
    requires res > 0 && Spaced(gs, res) && i < j < |gs|
    ensures GroupStart(gs[i], res) < GroupStart(gs[j], res)
  {
    if i < j - 1 {
      StartsAscend(gs, res, i, j - 1);
    }
    assert GroupStart(gs[j], res) >= GroupStart(gs[j - 1], res) + 2 * res;
  }

  ghost predicate StrictlyAscending(points: seq<DataPoint>) {
    forall i, j :: 0 <= i < j < |points| ==> points[i].timestamp < points[j].timestamp
  }

  /** The points of the result come oldest first, on any input. */
  lemma AggregateAscends(points: seq<DataPoint>, res: int)
    requires res > 0
    ensures StrictlyAscending(Aggregate(points, res))
  {
    var gs, result := Groups(points, res), Aggregate(points, res);
    GroupsSpaced(points, res);
    var picked := SummariesInOrder(gs, res);
    forall k, l | 0 <= k < l < |result|
      ensures result[k].timestamp < result[l].timestamp
    {
      StartsAscend(gs, res, picked[k], picked[l]);
    }
  }

  /** Every point lies in some group. */
  lemma PointInGroup(points: seq<DataPoint>, res: int, j: nat) returns (i: nat)
    requires res > 0 && j < |points|
    ensures var gs := Groups(points, res);
            i < |gs| && Offset(gs, i) <= j < Offset(gs, i + 1)
  {
    var gs := Groups(points, res);
    GroupsPartition(points, res);
    assert gs[..|gs|] == gs;
    i := 0;
    while i < |gs| && Offset(gs, i + 1) <= j
      invariant i <= |gs| && Offset(gs, i) <= j
    {
      i := i + 1;
    }
  }

  // ---- averages and percentiles ----

  lemma {:induction false} SumBetween(g: seq<DataPoint>, lo: real, hi: real)
    requires forall i :: 0 <= i < |g| ==> g[i].requests >= 0
    requires forall i :: 0 <= i < |g| && Contributes(g[i]) ==> lo <= g[i].avgLatency <= hi
    ensures Weighed(lo, LatencyCount(g)) <= LatencySum(g) <= Weighed(hi, LatencyCount(g))
  {
    if g != [] {
      var init, p := g[..|g| - 1], g[|g| - 1];
      assert forall i :: 0 <= i < |init| ==> init[i] == g[i];
      SumBetween(init, lo, hi);
      WeighOne(LatencyCount(init), p, lo, hi);
    }
  }

  function Weighed(average: real, n: int): real {
    average * n as real
  }

  lemma WeighOne(n: int, p: DataPoint, lo: real, hi: real)
    requires p.requests >= 0 && (Contributes(p) ==> lo <= p.avgLatency <= hi)
    ensures Weighed(lo, n) + Latency(p) >= Weighed(lo, n + Weight(p))
    ensures Weighed(hi, n) + Latency(p) <= Weighed(hi, n + Weight(p))
  {
    var nr, wr := n as real, Weight(p) as real;
    assert (n + Weight(p)) as real == nr + wr;
    if Contributes(p) {
      assert lo * wr <= p.avgLatency * wr <= hi * wr;
    }
  }

  /** The average of a kept group lies between those of its contributing points. */
  lemma AverageBetween(g: Group, res: int, lo: real, hi: real)
    requires res > 0 && LatencyCount(g) > 0
    requires forall i :: 0 <= i < |g| ==> g[i].requests >= 0
    requires forall i :: 0 <= i < |g| && Contributes(g[i]) ==> lo <= g[i].avgLatency <= hi
    ensures lo <= Summary(g, res).avgLatency <= hi
  {
    SumBetween(g, lo, hi);
    DivideBounds(lo, LatencySum(g), hi, LatencyCount(g));
  }

  lemma DivideBounds(lo: real, sum: real, hi: real, n: int)
    requires n > 0 && Weighed(lo, n) <= sum <= Weighed(hi, n)
    ensures lo <= sum / n as real <= hi
  {
    var nr := n as real;
    assert (lo * nr) / nr == lo && (hi * nr) / nr == hi;
  }

  /** The average of a kept group lies between the least and the greatest average of its
      contributing points. */
  lemma AverageBetweenPoints(g: Group, res: int) returns (j: nat, k: nat)
    requires res > 0 && LatencyCount(g) > 0
    requires forall i :: 0 <= i < |g| ==> g[i].requests >= 0
    ensures j < |g| && k < |g| && Contributes(g[j]) && Contributes(g[k])
    ensures forall i :: 0 <= i < |g| && Contributes(g[i]) ==> g[j].avgLatency <= g[i].avgLatency <= g[k].avgLatency
    ensures g[j].avgLatency <= Summary(g, res).avgLatency <= g[k].avgLatency
  {
    DroppedIffSilent(g);
    j, k := ExtremePoints(g);
    AverageBetween(g, res, g[j].avgLatency, g[k].avgLatency);
  }

  lemma {:induction false} ExtremePoints(g: seq<DataPoint>) returns (j: nat, k: nat)
    requires !Silent(g)
    ensures j < |g| && k < |g| && Contributes(g[j]) && Contributes(g[k])
    ensures forall i :: 0 <= i < |g| && Contributes(g[i]) ==> g[j].avgLatency <= g[i].avgLatency <= g[k].avgLatency
  {
    var init, last := g[..|g| - 1], |g| - 1;
    assert forall i :: 0 <= i < |init| ==> init[i] == g[i];
    if Silent(init) {
      j, k := last, last;
    } else {
      j, k := ExtremePoints(init);
      if Contributes(g[last]) && g[last].avgLatency < g[j].avgLatency {
        j := last;
      }
      if Contributes(g[last]) && g[last].avgLatency > g[k].avgLatency {
        k := last;
      }
    }
  }

  ghost predicate IsMaximum(m: real, s: seq<real>) {
    m in s && forall i :: 0 <= i < |s| ==> s[i] <= m
  }

  /** Some element is not negative. */
  ghost predicate ReachesZero(s: seq<real>) {
    exists i :: 0 <= i < |s| && s[i] >= 0.0
  }

  function P50s(g: seq<DataPoint>): seq<real> {
    seq(|g|, i requires 0 <= i < |g| => g[i].p50Latency)
  }

  function P90s(g: seq<DataPoint>): seq<real> {
    seq(|g|, i requires 0 <= i < |g| => g[i].p90Latency)
  }

  function P99s(g: seq<DataPoint>): seq<real> {
    seq(|g|, i requires 0 <= i < |g| => g[i].p99Latency)
  }

  /** The largest element; zero if all are negative. */
  function Greatest(s: seq<real>): real {
    if s == [] then 0.0 else Max(Greatest(s[..|s| - 1]), s[|s| - 1])
  }

  lemma {:induction false} GreatestBounds(s: seq<real>)
    ensures Greatest(s) >= 0.0 && forall i :: 0 <= i < |s| ==> s[i] <= Greatest(s)
    ensures Greatest(s) == 0.0 || Greatest(s) in s
  {
    if s != [] {
      var init := s[..|s| - 1];
      GreatestBounds(init);
      assert forall i :: 0 <= i < |init| ==> init[i] == s[i];
    }
  }

  lemma GreatestIsMaximum(s: seq<real>)
    ensures IsMaximum(Greatest(s), s) <==> ReachesZero(s)
  {
    GreatestBounds(s);
    if i :| 0 <= i < |s| && s[i] >= 0.0 {
      assert Greatest(s) == 0.0 ==> s[i] == 0.0;
    }
  }

  lemma {:induction false} MaximaAreGreatest(g: seq<DataPoint>)
    ensures MaxP50(g) == Greatest(P50s(g))
    ensures MaxP90(g) == Greatest(P90s(g))
    ensures MaxP99(g) == Greatest(P99s(g))
  {
    if g != [] {
      var init := g[..|g| - 1];
      MaximaAreGreatest(init);
      assert P50s(g)[..|g| - 1] == P50s(init);
      assert P90s(g)[..|g| - 1] == P90s(init);
      assert P99s(g)[..|g| - 1] == P99s(init);
    }
  }

  /** Each percentile of a group is the maximum over its points, exactly if that maximum is
      not negative: the running maximum starts at zero. */
  lemma PercentilesAreMaxima(g: seq<DataPoint>)
    ensures IsMaximum(MaxP50(g), P50s(g)) <==> ReachesZero(P50s(g))
    ensures IsMaximum(MaxP90(g), P90s(g)) <==> ReachesZero(P90s(g))
    ensures IsMaximum(MaxP99(g), P99s(g)) <==> ReachesZero(P99s(g))
  {
    MaximaAreGreatest(g);
    GreatestIsMaximum(P50s(g));
    GreatestIsMaximum(P90s(g));
    GreatestIsMaximum(P99s(g));
  }
}

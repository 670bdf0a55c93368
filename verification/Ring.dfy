/** The ring of buckets as a sequence, oldest bucket first, and how it follows the log. */
module Ring {
  import opened EventLog

  datatype Bucket = Bucket(timestamp: int, counts: Counts)

  // ---- time stamps ----

  /** The first nanosecond of a slot. */
  function Stamp(slot: int, res: int): int {
    slot * res
  }

  lemma StampOrder(a: int, b: int, res: int)
    requires res > 0
    ensures Stamp(b, res) > Stamp(a, res) <==> b > a
  {
    if b > a {
      assert (b - a) * res > 0;
    } else {
      assert (b - a) * res <= 0;
    }
  }

  lemma StampDifference(a: int, b: int, res: int)
    requires res > 0
    ensures (Stamp(b, res) - Stamp(a, res)) / res == b - a
  {
    var d := b - a;
    var q, r := d * res / res, d * res % res;
    assert Stamp(b, res) - Stamp(a, res) == d * res;
    assert (d - q) * res == r;
    assert d - q >= 1 ==> (d - q) * res >= res;
    assert d - q <= -1 ==> (d - q) * res <= -res;
  }

  lemma StampLater(a: int, i: int, res: int)
    ensures Stamp(a, res) + i * res == Stamp(a + i, res)
  {
  }

  // ---- the ring as a sequence, oldest bucket first ----

  /** The bucket k slots back, as the log has it. */
  function BucketAt(start: int, res: int, log: seq<Event>, k: nat): Bucket {
    Bucket(Stamp(Latest(start, log) - k, res), CountsAt(start, log, k))
  }

  /** The log's newest n slots. */
  function LogRing(start: int, res: int, log: seq<Event>, n: nat): seq<Bucket> {
    seq(n, j requires 0 <= j < n => BucketAt(start, res, log, n - 1 - j))
  }

  /** The ring holds exactly the log's newest |ring| slots. */
  ghost predicate Mirrors(ring: seq<Bucket>, start: int, res: int, log: seq<Event>) {
    forall k :: 0 <= k < |ring| ==> ring[|ring| - 1 - k] == BucketAt(start, res, log, k)
  }

  /** One turn: the oldest bucket makes way for a new one, a resolution later. */
  function Turn(ring: seq<Bucket>, res: int): seq<Bucket>
    requires ring != []
  {
    ring[1..] + [Bucket(ring[|ring| - 1].timestamp + res, CountsOf([]))]
  }

  function Turned(ring: seq<Bucket>, res: int, turns: nat): (r: seq<Bucket>)
    requires ring != []
    ensures |r| == |ring|
  {
    if turns == 0 then ring else Turn(Turned(ring, res, turns - 1), res)
  }

  /** After some turns the newest buckets are empty and the others have moved back. */
  lemma {:induction false} TurnedAt(ring: seq<Bucket>, res: int, turns: nat, k: nat)
    requires k < |ring|
    ensures var n := |ring|;
            Turned(ring, res, turns)[n - 1 - k]
            == if k < turns then Bucket(ring[n - 1].timestamp + (turns - k) * res, CountsOf([]))
               else ring[n - 1 - (k - turns)]
  {
    if turns > 0 {
      var before := Turned(ring, res, turns - 1);
      if k > 0 {
        TurnedAt(ring, res, turns - 1, k - 1);
        assert Turn(before, res)[|ring| - 1 - k] == before[|ring| - 1 - (k - 1)];
      } else {
        TurnedAt(ring, res, turns - 1, 0);
        assert (turns - 1) * res + res == turns * res;
      }
    }
  }

  /** Turning to the slot of a clock reading moves the ring as the log moves. */
  lemma TurnedMirrors(ring: seq<Bucket>, start: int, res: int, log: seq<Event>, at: int, k: nat)
    requires Mirrors(ring, start, res, log) && k < |ring|
    ensures var latest, moved := Latest(start, log), Moved(start, log, at);
            Turned(ring, res, moved - latest)[|ring| - 1 - k]
            == Bucket(Stamp(moved - k, res), Shifted(start, log, at, k))
  {
    var latest, moved := Latest(start, log), Moved(start, log, at);
    var turns, n := moved - latest, |ring|;
    TurnedAt(ring, res, turns, k);
    assert ring[n - 1 - 0] == BucketAt(start, res, log, 0);
    if k < turns {
      StampLater(latest, turns - k, res);
    } else {
      assert latest - (k - turns) == moved - k;
      assert ring[n - 1 - (k - turns)] == BucketAt(start, res, log, k - turns);
    }
  }

  /** The ring once an event has been counted in its newest bucket. */
  function Counted(ring: seq<Bucket>, e: Event): seq<Bucket>
    requires ring != []
  {
    var last := |ring| - 1;
    ring[last := ring[last].(counts := Record(ring[last].counts, e))]
  }

  /** Turn, then count: the ring still mirrors the log, one event longer. */
  lemma RecordMirrors(ring: seq<Bucket>, start: int, res: int, log: seq<Event>, e: Event)
    requires ring != [] && Mirrors(ring, start, res, log)
    ensures var turned := Turned(ring, res, Moved(start, log, e.at) - Latest(start, log));
            Mirrors(Counted(turned, e), start, res, log + [e])
  {
    var turned := Turned(ring, res, Moved(start, log, e.at) - Latest(start, log));
    var ring' := Counted(turned, e);
    forall k | 0 <= k < |ring'|
      ensures ring'[|ring'| - 1 - k] == BucketAt(start, res, log + [e], k)
    {
      RecordMirrorsAt(ring, start, res, log, e, k);
    }
  }

  lemma RecordMirrorsAt(ring: seq<Bucket>, start: int, res: int, log: seq<Event>, e: Event, k: nat)
    requires Mirrors(ring, start, res, log) && k < |ring|
    ensures var turned := Turned(ring, res, Moved(start, log, e.at) - Latest(start, log));
            Counted(turned, e)[|ring| - 1 - k] == BucketAt(start, res, log + [e], k)
  {
    TurnedMirrors(ring, start, res, log, e.at, k);
    BucketAfterEvent(start, res, log, e, k);
  }

  lemma BucketAfterEvent(start: int, res: int, log: seq<Event>, e: Event, k: nat)
    ensures var shifted := Shifted(start, log, e.at, k);
            BucketAt(start, res, log + [e], k)
            == Bucket(Stamp(Moved(start, log, e.at) - k, res), if k == 0 then Record(shifted, e) else shifted)
  {
    SlotsAfterEvent(start, log, e, k);
  }

  /** The array of a ring, cut after the current index, is the ring oldest first. */
  function Cut(s: seq<Bucket>, current: int): seq<Bucket>
    requires 0 <= current < |s|
  {
    s[current + 1..] + s[..current + 1]
  }

  lemma ModuloUnique(x: int, n: int, q: int, r: int)
    requires n > 0 && x == q * n + r && 0 <= r < n
    ensures x % n == r
  {
    var q', r' := x / n, x % n;
    assert (q - q') * n == r' - r;
    assert q - q' >= 1 ==> (q - q') * n >= n;
    assert q - q' <= -1 ==> (q - q') * n <= -n;
  }

  lemma CutAt(s: seq<Bucket>, current: int, k: int)
    requires 0 <= current < |s| && 0 <= k < |s|
    ensures 0 <= (current - k) % |s| < |s|
    ensures Cut(s, current)[|s| - 1 - k] == s[(current - k) % |s|]
  {
    if k <= current {
      ModuloUnique(current - k, |s|, 0, current - k);
    } else {
      ModuloUnique(current - k, |s|, -1, current - k + |s|);
    }
  }

  /** Overwriting the slot after the current one drops the oldest bucket. */
  lemma OverwriteNext(s: seq<Bucket>, current: int, b: Bucket)
    requires 0 <= current < |s|
    ensures var next := (current + 1) % |s|;
            0 <= next < |s| && Cut(s[next := b], next) == Cut(s, current)[1..] + [b]
  {
    var next := (current + 1) % |s|;
    if current + 1 == |s| {
      assert next == 0;
      assert Cut(s, current) == s;
      assert Cut(s[0 := b], 0) == s[1..] + [b];
    } else {
      assert next == current + 1;
    }
  }

  lemma OverwriteCurrent(s: seq<Bucket>, current: int, b: Bucket)
    requires 0 <= current < |s|
    ensures Cut(s, current)[|s| - 1] == s[current]
    ensures Cut(s[current := b], current) == Cut(s, current)[|s| - 1 := b]
  {
  }

  lemma MirrorsIsLogRing(ring: seq<Bucket>, start: int, res: int, log: seq<Event>)
    requires Mirrors(ring, start, res, log)
    ensures ring == LogRing(start, res, log, |ring|)
  {
    forall j | 0 <= j < |ring|
      ensures ring[j] == BucketAt(start, res, log, |ring| - 1 - j)
    {
      assert ring[|ring| - 1 - (|ring| - 1 - j)] == BucketAt(start, res, log, |ring| - 1 - j);
    }
  }

  lemma NewestStamp(ring: seq<Bucket>, start: int, res: int, log: seq<Event>)
    requires ring != [] && Mirrors(ring, start, res, log)
    ensures ring[|ring| - 1].timestamp == Stamp(Latest(start, log), res)
  {
    assert ring[|ring| - 1 - 0] == BucketAt(start, res, log, 0);
  }
}

/** The plain meaning of the metrics store: an append-only log of events, each counted in
    a slot one resolution wide.  Slots are numbered: slot n covers the times from
    n * resolution up to (n + 1) * resolution, so the slot of a clock reading is its
    quotient by the resolution. */
module EventLog {
  import opened OrderStatistics

  // `at` is the slot of the clock reading under which the event was recorded.
  datatype Event = Request(at: int, latency: int) | Failure(at: int)

  /** What a bucket has counted (its timestamp is kept apart). */
  datatype Counts = Counts(requests: int, errors: int, latencies: seq<int>, totalLatency: int)

  /** The number of the current slot: time never runs backwards here, whatever the
      clock does. */
  function Latest(start: int, log: seq<Event>): int
  {
    if log == [] then start
    else
      var before := Latest(start, log[..|log| - 1]);
      var now := log[|log| - 1].at;
      if now > before then now else before
  }

  function AddIf(events: seq<Event>, e: Event, included: bool): seq<Event> {
    if included then events + [e] else events
  }

  /** The events of one slot; an event's slot is the current one once it is recorded. */
  function InSlot(start: int, log: seq<Event>, slot: int): seq<Event>
  {
    if log == [] then []
    else
      AddIf(InSlot(start, log[..|log| - 1], slot), log[|log| - 1], Latest(start, log) == slot)
  }

  function Latencies(events: seq<Event>): seq<int> {
    if events == [] then []
    else
      var last := events[|events| - 1];
      Latencies(events[..|events| - 1]) + if last.Request? then [last.latency] else []
  }

  function Failures(events: seq<Event>): nat {
    if events == [] then 0
    else Failures(events[..|events| - 1]) + if events[|events| - 1].Failure? then 1 else 0
  }

  function CountsOf(events: seq<Event>): Counts {
    var latencies := Latencies(events);
    Counts(|latencies|, Failures(events), latencies, Sum(latencies))
  }

  /** What the bucket k slots back must hold. */
  function CountsAt(start: int, log: seq<Event>, k: nat): Counts
  {
    CountsOf(InSlot(start, log, Latest(start, log) - k))
  }

  /** The bucket after one more event. */
  function Record(b: Counts, e: Event): Counts {
    match e
    case Request(_, latency) =>
      b.(requests := b.requests + 1, latencies := b.latencies + [latency],
         totalLatency := b.totalLatency + latency)
    case Failure(_) => b.(errors := b.errors + 1)
  }

  // ---- the log ----

  /** The current slot is the latest of the start and the slots of all clock readings. */
  lemma {:induction false} LatestIsMaximum(start: int, log: seq<Event>)
    ensures start <= Latest(start, log)
    ensures forall i :: 0 <= i < |log| ==> log[i].at <= Latest(start, log)
    ensures Latest(start, log) == start
            || exists i :: 0 <= i < |log| && log[i].at == Latest(start, log)
  {
    if log != [] {
      LatestIsMaximum(start, log[..|log| - 1]);
    }
  }

  lemma {:induction false} NothingAfterLatest(start: int, log: seq<Event>, slot: int)
    requires slot > Latest(start, log)
    ensures InSlot(start, log, slot) == []
  {
    if log != [] {
      NothingAfterLatest(start, log[..|log| - 1], slot);
    }
  }

  lemma AppendToBucket(events: seq<Event>, e: Event)
    ensures CountsOf(events + [e]) == Record(CountsOf(events), e)
  {
    var events' := events + [e];
    assert events'[..|events'| - 1] == events && events'[|events'| - 1] == e;
    var before, after := Latencies(events), Latencies(events');
    if e.Request? {
      assert after == before + [e.latency];
      assert after[..|after| - 1] == before;
      assert Sum(after) == Sum(before) + e.latency;
    } else {
      assert after == before;
    }
  }

  /** The current slot once the clock has shown slot `at`. */
  function Moved(start: int, log: seq<Event>, at: int): int {
    var latest := Latest(start, log);
    if at > latest then at else latest
  }

  /** What the bucket k slots back holds once the clock has shown slot `at`, before the
      event is counted: fresh slots appear in front. */
  function Shifted(start: int, log: seq<Event>, at: int, k: nat): Counts {
    var skip := Moved(start, log, at) - Latest(start, log);
    if k < skip then CountsOf([]) else CountsAt(start, log, k - skip)
  }

  lemma LatestOfOneMore(start: int, log: seq<Event>, e: Event)
    ensures Latest(start, log + [e]) == Moved(start, log, e.at)
  {
    assert (log + [e])[..|log + [e]| - 1] == log;
  }

  lemma SlotOfOneMore(start: int, log: seq<Event>, e: Event, slot: int)
    ensures InSlot(start, log + [e], slot)
            == AddIf(InSlot(start, log, slot), e, Latest(start, log + [e]) == slot)
  {
    assert (log + [e])[..|log + [e]| - 1] == log;
  }

  /** An event moves the slots and lands in the newest. */
  lemma SlotsAfterEvent(start: int, log: seq<Event>, e: Event, k: nat)
    ensures Latest(start, log + [e]) == Moved(start, log, e.at)
    ensures CountsAt(start, log + [e], k)
            == if k == 0 then Record(Shifted(start, log, e.at, k), e) else Shifted(start, log, e.at, k)
  {
    LatestOfOneMore(start, log, e);
    var slot := Moved(start, log, e.at) - k;
    SlotOfOneMore(start, log, e, slot);
    if slot > Latest(start, log) {
      NothingAfterLatest(start, log, slot);
    }
    if k == 0 {
      AppendToBucket(InSlot(start, log, slot), e);
    }
  }

  // ---- conservation over the window ----

  /** The events whose slot is after the cutoff. */
  function Recent(start: int, log: seq<Event>, cutoff: int): seq<Event>
  {
    if log == [] then []
    else
      AddIf(Recent(start, log[..|log| - 1], cutoff), log[|log| - 1], Latest(start, log) > cutoff)
  }

  function WindowRequests(start: int, log: seq<Event>, n: nat): int
  {
    if n == 0 then 0
    else WindowRequests(start, log, n - 1) + CountsAt(start, log, n - 1).requests
  }

  function WindowErrors(start: int, log: seq<Event>, n: nat): int
  {
    if n == 0 then 0
    else WindowErrors(start, log, n - 1) + CountsAt(start, log, n - 1).errors
  }

  lemma CountOneMore(events: seq<Event>, e: Event)
    ensures |Latencies(events + [e])| == |Latencies(events)| + if e.Request? then 1 else 0
    ensures Failures(events + [e]) == Failures(events) + if e.Failure? then 1 else 0
  {
    assert (events + [e])[..|events + [e]| - 1] == events;
  }

  lemma {:induction false} RecentSplits(start: int, log: seq<Event>, slot: int)
    ensures var older := Recent(start, log, slot - 1);
            var newer := Recent(start, log, slot);
            var here := InSlot(start, log, slot);
            && |Latencies(older)| == |Latencies(newer)| + |Latencies(here)|
            && Failures(older) == Failures(newer) + Failures(here)
  {
    if log != [] {
      var init, e := log[..|log| - 1], log[|log| - 1];
      RecentSplits(start, init, slot);
      CountOneMore(Recent(start, init, slot - 1), e);
      CountOneMore(Recent(start, init, slot), e);
      CountOneMore(InSlot(start, init, slot), e);
    }
  }

  lemma {:induction false} NothingRecent(start: int, log: seq<Event>, cutoff: int)
    requires cutoff >= Latest(start, log)
    ensures Recent(start, log, cutoff) == []
  {
    if log != [] {
      NothingRecent(start, log[..|log| - 1], cutoff);
    }
  }

  /** The newest n slots count each of their events once. */
  ghost predicate Conserved(start: int, log: seq<Event>, n: nat) {
    var recent := Recent(start, log, Latest(start, log) - n);
    && WindowRequests(start, log, n) == |Latencies(recent)|
    && WindowErrors(start, log, n) == Failures(recent)
  }

  /** Going one slot further back adds the counts of that slot. */
  lemma NextSlot(start: int, log: seq<Event>, k: nat)
    requires Conserved(start, log, k)
    ensures Conserved(start, log, k + 1)
  {
    RecentSplits(start, log, Latest(start, log) - k);
    CountsAreSizes(InSlot(start, log, Latest(start, log) - k));
  }

  lemma CountsAreSizes(events: seq<Event>)
    ensures CountsOf(events).requests == |Latencies(events)|
    ensures CountsOf(events).errors == Failures(events)
  {
  }

  /** The newest n slots together count every event of the last n slots exactly once. */
  lemma {:induction false} WindowConserves(start: int, log: seq<Event>, n: nat)
    ensures Conserved(start, log, n)
  {
    if n == 0 {
      NothingRecent(start, log, Latest(start, log));
    } else {
      WindowConserves(start, log, n - 1);
      NextSlot(start, log, n - 1);
    }
  }
}

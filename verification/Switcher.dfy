/** The switch orchestrator: a health-gated two-state machine with a bounded history. */
module Switching {
  import opened Common
  import DrainProtocol
  import SerialSwitch

  const MAX_HISTORY: int := 100

  datatype Trigger = Webhook | GitTag

  datatype SwitchError = NotHealthy(target: ServiceTarget)

  datatype SwitchEvent = SwitchEvent(
    from: ServiceTarget, to: ServiceTarget, trigger: Trigger,
    timestamp: int, duration: int, success: bool)

  /** One call of Switch: `healthy` is what IsHealthy(target) answers during the call,
      `begin` and `end` are its clock readings. */
  datatype Call = Call(target: ServiceTarget, trigger: Trigger, healthy: bool, begin: int, end: int)

  // ---- what a sequence of calls amounts to ----

  /** Where the events lead; a proxy starts on blue. */
  function ActiveAfter(events: seq<SwitchEvent>): ServiceTarget {
    if events == [] then Blue else events[|events| - 1].to
  }

  predicate Accepts(active: ServiceTarget, call: Call) {
    active != call.target && call.healthy
  }

  function EventOf(active: ServiceTarget, call: Call): SwitchEvent {
    SwitchEvent(active, call.target, call.trigger, call.begin, call.end - call.begin, true)
  }

  /** All events ever recorded. */
  function Events(calls: seq<Call>): seq<SwitchEvent> {
    if calls == [] then []
    else
      var before := Events(calls[..|calls| - 1]);
      var call := calls[|calls| - 1];
      if Accepts(ActiveAfter(before), call) then before + [EventOf(ActiveAfter(before), call)]
      else before
  }

  /** The target of the last call whose target was healthy; blue if there is none. */
  function LastHealthy(calls: seq<Call>): ServiceTarget {
    if calls == [] then Blue
    else if calls[|calls| - 1].healthy then calls[|calls| - 1].target
    else LastHealthy(calls[..|calls| - 1])
  }

  function Recent(events: seq<SwitchEvent>): seq<SwitchEvent> {
    if |events| <= MAX_HISTORY then events else events[|events| - MAX_HISTORY..]
  }

  /** One more call: an event if it is accepted, otherwise nothing. */
  lemma OneMoreCall(calls: seq<Call>, call: Call)
    ensures var before := Events(calls);
            var active := ActiveAfter(before);
            var after := Events(calls + [call]);
            if Accepts(active, call)
            then after == before + [EventOf(active, call)] && ActiveAfter(after) == call.target
                 && Recent(after) == Trimmed(Recent(before) + [EventOf(active, call)])
            else after == before
  {
    assert (calls + [call])[..|calls + [call]| - 1] == calls;
    var before := Events(calls);
    RecentOfOneMore(before, EventOf(ActiveAfter(before), call));
  }

  /** A history that has grown too long loses its oldest event. */
  function Trimmed(history: seq<SwitchEvent>): seq<SwitchEvent> {
    if |history| > MAX_HISTORY then history[1..] else history
  }

  lemma RecentOfOneMore(events: seq<SwitchEvent>, e: SwitchEvent)
    ensures Recent(events + [e]) == Trimmed(Recent(events) + [e])
  {
  }

  // ---- properties ----

  /** Every event starts where the one before ended and goes somewhere else. */
  ghost predicate Chained(events: seq<SwitchEvent>) {
    forall i :: 0 <= i < |events| ==>
      events[i].success && events[i].from == ActiveAfter(events[..i]) && events[i].from != events[i].to
  }

  lemma {:induction false} EventsChained(calls: seq<Call>)
    ensures Chained(Events(calls))
  {
    if calls != [] {
      var before, after := Events(calls[..|calls| - 1]), Events(calls);
      EventsChained(calls[..|calls| - 1]);
      forall i | 0 <= i < |after|
        ensures after[i].success && after[i].from == ActiveAfter(after[..i]) && after[i].from != after[i].to
      {
        if i < |before| {
          assert after[i] == before[i] && after[..i] == before[..i];
        } else {
          assert after[..i] == before;
        }
      }
    }
  }

  /** The active target is the last one asked for while healthy: refused calls and calls
      for the active target leave no trace. */
  lemma {:induction false} ActiveIsLastHealthy(calls: seq<Call>)
    ensures ActiveAfter(Events(calls)) == LastHealthy(calls)
  {
    if calls != [] {
      ActiveIsLastHealthy(calls[..|calls| - 1]);
    }
  }

  /** Between blue and green every event is a flip, so green is active exactly after an
      odd number of events. */
  lemma {:induction false} GreenIffOdd(events: seq<SwitchEvent>)
    requires Chained(events)
    requires forall i :: 0 <= i < |events| ==> events[i].to == Blue || events[i].to == Green
    ensures ActiveAfter(events) == if |events| % 2 == 1 then Green else Blue
  {
    if events != [] {
      var init := events[..|events| - 1];
      ChainedPrefix(events);
      GreenIffOdd(init);
    }
  }

  lemma ChainedPrefix(events: seq<SwitchEvent>)
    requires Chained(events) && events != []
    ensures var init, last := events[..|events| - 1], events[|events| - 1];
            Chained(init) && last.from == ActiveAfter(init) && last.from != last.to
  {
    var init := events[..|events| - 1];
    assert forall i :: 0 <= i < |init| ==> init[i] == events[i] && init[..i] == events[..i];
  }

  lemma {:induction false} EventTargets(calls: seq<Call>)
    requires forall i :: 0 <= i < |calls| ==> calls[i].target == Blue || calls[i].target == Green
    ensures forall i :: 0 <= i < |Events(calls)| ==> Events(calls)[i].to == Blue || Events(calls)[i].to == Green
  {
    if calls != [] {
      var init := calls[..|calls| - 1];
      assert forall i :: 0 <= i < |init| ==> init[i] == calls[i];
      EventTargets(init);
    }
  }

  /** In every run of calls for blue or green: the history is the last 100 events, chained
      end to end, and the parity of the count tells the active target. */
  lemma {:induction false} SwitchRun(calls: seq<Call>)
    requires forall i :: 0 <= i < |calls| ==> calls[i].target == Blue || calls[i].target == Green
    ensures var events := Events(calls);
            var history := Recent(events);
            && |history| == (if |events| < 100 then |events| else 100)
            && history == events[|events| - |history|..]
            && (forall i :: 0 < i < |history| ==> history[i].from == history[i - 1].to)
            && (forall i :: 0 <= i < |history| ==> history[i].from != history[i].to)
            && (history != [] ==> history[|history| - 1].to == LastHealthy(calls))
            && LastHealthy(calls) == if |events| % 2 == 1 then Green else Blue
  {
    EventsChained(calls);
    EventTargets(calls);
    GreenIffOdd(Events(calls));
    ActiveIsLastHealthy(calls);
    RecentChained(Events(calls));
  }

  lemma RecentChained(events: seq<SwitchEvent>)
    requires Chained(events)
    ensures var history := Recent(events);
            && (forall i :: 0 < i < |history| ==> history[i].from == history[i - 1].to)
            && (forall i :: 0 <= i < |history| ==> history[i].from != history[i].to)
  {
    var history := Recent(events);
    var skip := |events| - |history|;
    forall i | 0 < i < |history|
      ensures history[i].from == history[i - 1].to
    {
      assert events[skip + i].from == ActiveAfter(events[..skip + i]);
    }
  }

  // ---- the proxy behind the switcher ----

  function Targets(events: seq<SwitchEvent>): seq<ServiceTarget> {
    seq(|events|, i requires 0 <= i < |events| => events[i].to)
  }

  /** The switcher and the drain protocol agree: in a run of the protocol whose Switch calls
      do not overlap and are those of the switcher's events, the active target is where the
      events lead, whatever the requests and the drains did in between. */
  lemma ProtocolFollowsEvents(calls: seq<Call>, ss: seq<DrainProtocol.State>, acts: seq<DrainProtocol.Action>)
    requires SerialSwitch.IsSerialRun(ss, acts) && SerialSwitch.NobodyStoring(ss[|acts|])
    requires SerialSwitch.Switched(ss, acts, |acts|) == Targets(Events(calls))
    ensures ss[|acts|].gate.activeTarget == ActiveAfter(Events(calls)) == LastHealthy(calls)
  {
    SerialSwitch.TargetIsLastSwitched(ss, acts, |acts|);
    ActiveIsLastHealthy(calls);
  }

  // ---- the objects ----

  /** What a Switcher sees of the proxy.  Its Switch stands for one non-overlapping run of
      the drain protocol, which always ends on the new target and reports no error. */
  class Proxy {
    var activeTarget: ServiceTarget
    ghost var switched: seq<ServiceTarget>  // the targets of all Switch calls so far

    constructor ()
      ensures activeTarget == Blue && switched == []
    {
      activeTarget, switched := Blue, [];
    }

    method Switch(target: ServiceTarget) returns (err: Option<SwitchError>)
      modifies this
      ensures err.None? && activeTarget == target && switched == old(switched) + [target]
    {
      switched := switched + [target];
      if activeTarget != target {
        activeTarget := target;
      }
      err := None;
    }
  }

  class Switcher {
    const proxy: Proxy
    var lastSwitch: Option<int>
    var switchCount: int
    var history: seq<SwitchEvent>
    ghost var calls: seq<Call>  // every call so far

    ghost predicate Valid()
      reads this, proxy
    {
      && proxy.activeTarget == ActiveAfter(Events(calls))
      && proxy.switched == Targets(Events(calls))
      && switchCount == |Events(calls)|
      && history == Recent(Events(calls))
      && (lastSwitch.None? <==> Events(calls) == [])
    }

    constructor (proxy: Proxy)
      requires proxy.activeTarget == Blue && proxy.switched == []
      ensures Valid() && this.proxy == proxy && calls == []
    {
      this.proxy := proxy;
      lastSwitch, switchCount, history := None, 0, [];
      calls := [];
    }

    method Switch(target: ServiceTarget, trigger: Trigger, healthy: bool, begin: int, end: int)
      returns (err: Option<SwitchError>)
      requires Valid()
      modifies this, proxy
      ensures Valid()
      ensures calls == old(calls) + [Call(target, trigger, healthy, begin, end)]
      ensures err == if old(proxy.activeTarget) != target && !healthy then Some(NotHealthy(target)) else None
      ensures proxy.activeTarget == if healthy then target else old(proxy.activeTarget)
      ensures switchCount == old(switchCount) + if healthy && old(proxy.activeTarget) != target then 1 else 0
      ensures switchCount == old(switchCount) ==> lastSwitch == old(lastSwitch) && history == old(history)
      ensures switchCount > old(switchCount) ==>
                && lastSwitch == Some(end)
                && history != [] && history[|history| - 1]
                   == SwitchEvent(old(proxy.activeTarget), target, trigger, begin, end - begin, true)
    {
      ghost var call := Call(target, trigger, healthy, begin, end);
      OneMoreCall(calls, call);
      calls := calls + [call];
      var from := proxy.activeTarget;
      if from == target {
        return None;
      }
      if !healthy {
        return Some(NotHealthy(target));
      }
      err := proxy.Switch(target);
      var event := SwitchEvent(from, target, trigger, begin, end - begin, err.None?);
      if err.None? {
        lastSwitch := Some(end);
        switchCount := switchCount + 1;
      }
      history := history + [event];
      if |history| > MAX_HISTORY {
        history := history[1..];
      }
    }
  }
}

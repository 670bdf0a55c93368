/** The git watcher: detects tag changes across polls and drives the Switcher. */
module GitWatcher {
  import opened Common
  import opened Switching

  /** A commit hash; never empty. */
  type Commit = s: string | s != "" witness "0"

  datatype GitStatus = GitStatus(
    lastFetch: int, lastTag: string,
    blueCommit: string, greenCommit: string, activeCommit: string, error: string)

  datatype TagChange = TagChange(tag: string, commit: Commit, target: ServiceTarget, timestamp: int)

  // The remote's answer to one fetch.
  datatype Fetch = Failed(error: string) | Refs(refs: map<string, Commit>)

  /** What a notification meets: the clock when it is made, whether its target is healthy
      then, and the clock when the switch begins and ends. */
  datatype Moment = Moment(notified: int, healthy: bool, begin: int, end: int)

  /** One poll: the fetch, its time, and the moments of a blue and of a green change. */
  datatype Poll = Poll(fetch: Fetch, fetched: int, blue: Moment, green: Moment)

  datatype Tags = Tags(blue: string, green: string, active: string)

  function Ref(tag: string): string {
    "refs/tags/" + tag
  }

  // ---- sightings ----

  function Seen(poll: Poll, tag: string): Option<Commit> {
    if poll.fetch.Refs? && Ref(tag) in poll.fetch.refs then Some(poll.fetch.refs[Ref(tag)]) else None
  }

  /** The commit a tag had when it was last seen. */
  function LastSeen(polls: seq<Poll>, tag: string): Option<Commit> {
    if polls == [] then None
    else if Seen(polls[|polls| - 1], tag).Some? then Seen(polls[|polls| - 1], tag)
    else LastSeen(polls[..|polls| - 1], tag)
  }

  /** The tag is seen on another commit than at its previous sighting. */
  predicate Changed(before: seq<Poll>, poll: Poll, tag: string) {
    Seen(poll, tag).Some? && LastSeen(before, tag).Some? && Seen(poll, tag) != LastSeen(before, tag)
  }

  // ---- what a sequence of polls amounts to ----

  function BlueChange(before: seq<Poll>, poll: Poll, tags: Tags): seq<TagChange> {
    if Changed(before, poll, tags.blue)
    then [TagChange(tags.blue, Seen(poll, tags.blue).value, Blue, poll.blue.notified)] else []
  }

  function GreenChange(before: seq<Poll>, poll: Poll, tags: Tags): seq<TagChange> {
    if Changed(before, poll, tags.green)
    then [TagChange(tags.green, Seen(poll, tags.green).value, Green, poll.green.notified)] else []
  }

  /** All notifications, blue before green within a poll. */
  function Changes(polls: seq<Poll>, tags: Tags): seq<TagChange> {
    if polls == [] then []
    else
      var before, poll := polls[..|polls| - 1], polls[|polls| - 1];
      Changes(before, tags) + BlueChange(before, poll, tags) + GreenChange(before, poll, tags)
  }

  function CallAt(target: ServiceTarget, m: Moment): Call {
    Call(target, GitTag, m.healthy, m.begin, m.end)
  }

  function BlueCall(before: seq<Poll>, poll: Poll, tags: Tags): seq<Call> {
    if Changed(before, poll, tags.blue) then [CallAt(Blue, poll.blue)] else []
  }

  function GreenCall(before: seq<Poll>, poll: Poll, tags: Tags): seq<Call> {
    if Changed(before, poll, tags.green) then [CallAt(Green, poll.green)] else []
  }

  /** All calls of Switch. */
  function Calls(polls: seq<Poll>, tags: Tags): seq<Call> {
    if polls == [] then []
    else
      var before, poll := polls[..|polls| - 1], polls[|polls| - 1];
      Calls(before, tags) + BlueCall(before, poll, tags) + GreenCall(before, poll, tags)
  }

  /** The target of the last notification whose target was healthy then; blue if none. */
  function FinalTarget(polls: seq<Poll>, tags: Tags): ServiceTarget {
    if polls == [] then Blue
    else
      var before, poll := polls[..|polls| - 1], polls[|polls| - 1];
      if Changed(before, poll, tags.green) && poll.green.healthy then Green
      else if Changed(before, poll, tags.blue) && poll.blue.healthy then Blue
      else FinalTarget(before, tags)
  }

  // ---- properties ----

  /** The Switcher ends on the target of the last healthy notification, green last when
      both tags change in one poll. */
  lemma {:induction false} CallsEndOnFinalTarget(polls: seq<Poll>, tags: Tags)
    ensures LastHealthy(Calls(polls, tags)) == FinalTarget(polls, tags)
  {
    if polls != [] {
      var before, poll := polls[..|polls| - 1], polls[|polls| - 1];
      CallsEndOnFinalTarget(before, tags);
      var calls := Calls(before, tags);
      var blue := BlueCall(before, poll, tags);
      var green := GreenCall(before, poll, tags);
      assert Calls(polls, tags) == calls + blue + green;
      LastHealthyOfOneMore(calls, blue);
      LastHealthyOfOneMore(calls + blue, green);
    }
  }

  lemma LastHealthyOfOneMore(calls: seq<Call>, more: seq<Call>)
    requires |more| <= 1
    ensures LastHealthy(calls + more)
            == if more != [] && more[0].healthy then more[0].target else LastHealthy(calls)
  {
    if more == [] {
      assert calls + more == calls;
    } else {
      assert (calls + more)[..|calls + more| - 1] == calls;
    }
  }

  /** The commits a tag was seen on, sighting after sighting. */
  function Sightings(polls: seq<Poll>, tag: string): seq<Commit> {
    if polls == [] then []
    else
      var before := Sightings(polls[..|polls| - 1], tag);
      var seen := Seen(polls[|polls| - 1], tag);
      if seen.Some? then before + [seen.value] else before
  }

  /** The elements that differ from the one before. */
  function Steps(s: seq<Commit>): seq<Commit> {
    if |s| <= 1 then []
    else Steps(s[..|s| - 1]) + if s[|s| - 1] != s[|s| - 2] then [s[|s| - 1]] else []
  }

  /** The commits of the notifications for one target. */
  function CommitsFor(changes: seq<TagChange>, target: ServiceTarget): seq<Commit> {
    if changes == [] then []
    else
      var last := changes[|changes| - 1];
      CommitsFor(changes[..|changes| - 1], target) + if last.target == target then [last.commit] else []
  }

  lemma {:induction false} LastSeenIsLastSighting(polls: seq<Poll>, tag: string)
    ensures var s := Sightings(polls, tag);
            LastSeen(polls, tag) == if s == [] then None else Some(s[|s| - 1])
  {
    if polls != [] {
      LastSeenIsLastSighting(polls[..|polls| - 1], tag);
    }
  }

  lemma CommitsOfOneMore(changes: seq<TagChange>, more: seq<TagChange>, target: ServiceTarget)
    requires |more| <= 1
    ensures CommitsFor(changes + more, target)
            == CommitsFor(changes, target)
               + if more != [] && more[0].target == target then [more[0].commit] else []
  {
    if more == [] {
      assert changes + more == changes;
    } else {
      assert (changes + more)[..|changes + more| - 1] == changes;
    }
  }

  /** One more poll extends the steps of a tag exactly if the tag changed. */
  lemma StepsOfOneMore(before: seq<Poll>, poll: Poll, tag: string)
    ensures Steps(Sightings(before + [poll], tag))
            == Steps(Sightings(before, tag))
               + if Changed(before, poll, tag) then [Seen(poll, tag).value] else []
  {
    var polls := before + [poll];
    assert polls[..|polls| - 1] == before;
    LastSeenIsLastSighting(before, tag);
    var s, t := Sightings(before, tag), Sightings(polls, tag);
    if Seen(poll, tag).Some? {
      assert t[..|t| - 1] == s;
    }
  }

  /** The notifications for a target are exactly the changes between consecutive sightings
      of its tag, with the new commits, in order. */
  lemma {:induction false} ChangesAreSteps(polls: seq<Poll>, tags: Tags)
    ensures CommitsFor(Changes(polls, tags), Blue) == Steps(Sightings(polls, tags.blue))
    ensures CommitsFor(Changes(polls, tags), Green) == Steps(Sightings(polls, tags.green))
  {
    if polls != [] {
      var before, poll := polls[..|polls| - 1], polls[|polls| - 1];
      assert polls == before + [poll];
      ChangesAreSteps(before, tags);
      StepsOfOneMore(before, poll, tags.blue);
      StepsOfOneMore(before, poll, tags.green);
      var changes := Changes(before, tags);
      var blue, green := BlueChange(before, poll, tags), GreenChange(before, poll, tags);
      CommitsOfOneMore(changes, blue, Blue);
      CommitsOfOneMore(changes, blue, Green);
      CommitsOfOneMore(changes + blue, green, Blue);
      CommitsOfOneMore(changes + blue, green, Green);
    }
  }

  // ---- where notifications and calls come from ----

  /** The commit is what the fetch found under refs/tags. */
  lemma SeenUnderTags(poll: Poll, tag: string, commit: Commit)
    ensures Seen(poll, tag) == Some(commit)
            <==> poll.fetch.Refs? && "refs/tags/" + tag in poll.fetch.refs && poll.fetch.refs["refs/tags/" + tag] == commit
  {
  }

  /** The poll saw the tag of this target on this commit, and asked for a switch to it. */
  ghost predicate Notifies(poll: Poll, tags: Tags, change: TagChange, call: Call) {
    || (&& Seen(poll, tags.blue) == Some(change.commit)
        && change == TagChange(tags.blue, change.commit, Blue, poll.blue.notified)
        && call == Call(Blue, GitTag, poll.blue.healthy, poll.blue.begin, poll.blue.end))
    || (&& Seen(poll, tags.green) == Some(change.commit)
        && change == TagChange(tags.green, change.commit, Green, poll.green.notified)
        && call == Call(Green, GitTag, poll.green.healthy, poll.green.begin, poll.green.end))
  }

  ghost predicate Notified(polls: seq<Poll>, tags: Tags, change: TagChange, call: Call) {
    exists k :: 0 <= k < |polls| && Notifies(polls[k], tags, change, call)
  }

  ghost predicate Paired(polls: seq<Poll>, tags: Tags, changes: seq<TagChange>, calls: seq<Call>) {
    && |changes| == |calls|
    && forall i :: 0 <= i < |changes| ==> Notified(polls, tags, changes[i], calls[i])
  }

  lemma PairMore(before: seq<Poll>, poll: Poll, tags: Tags, changes: seq<TagChange>, calls: seq<Call>)
    requires Paired(before, tags, changes, calls)
    ensures Paired(before + [poll], tags, changes, calls)
  {
    var polls := before + [poll];
    forall i | 0 <= i < |changes|
      ensures Notified(polls, tags, changes[i], calls[i])
    {
      var k :| 0 <= k < |before| && Notifies(before[k], tags, changes[i], calls[i]);
      assert polls[k] == before[k];
    }
  }

  lemma PairOne(polls: seq<Poll>, tags: Tags, changes: seq<TagChange>, calls: seq<Call>, change: TagChange, call: Call)
    requires polls != [] && Paired(polls, tags, changes, calls)
    requires Notifies(polls[|polls| - 1], tags, change, call)
    ensures Paired(polls, tags, changes + [change], calls + [call])
  {
    assert Notified(polls, tags, change, call);
  }

  /** Every notification and the call of Switch that it makes come from one poll, with its
      tag, its commit and its times. */
  lemma {:induction false} ChangesMakeCalls(polls: seq<Poll>, tags: Tags)
    ensures Paired(polls, tags, Changes(polls, tags), Calls(polls, tags))
  {
    if polls != [] {
      var before, poll := polls[..|polls| - 1], polls[|polls| - 1];
      assert polls == before + [poll];
      ChangesMakeCalls(before, tags);
      var changes, calls := Changes(before, tags), Calls(before, tags);
      PairMore(before, poll, tags, changes, calls);
      var blue, blueCall := BlueChange(before, poll, tags), BlueCall(before, poll, tags);
      if blue != [] {
        PairOne(polls, tags, changes, calls, blue[0], blueCall[0]);
      }
      assert Paired(polls, tags, changes + blue, calls + blueCall) by {
        assert blue == [] ==> changes + blue == changes && calls + blueCall == calls;
      }
      var green, greenCall := GreenChange(before, poll, tags), GreenCall(before, poll, tags);
      if green != [] {
        PairOne(polls, tags, changes + blue, calls + blueCall, green[0], greenCall[0]);
      } else {
        assert changes + blue + green == changes + blue && calls + blueCall + greenCall == calls + blueCall;
      }
    }
  }

  /** A healthy green change has the last word of its poll, whatever blue does. */
  lemma GreenHasLastWord(polls: seq<Poll>, tags: Tags)
    requires polls != []
    ensures var before, poll := polls[..|polls| - 1], polls[|polls| - 1];
            Changed(before, poll, tags.green) && poll.green.healthy ==>
              ActiveAfter(Events(Calls(polls, tags))) == Green
  {
    CallsEndOnFinalTarget(polls, tags);
    ActiveIsLastHealthy(Calls(polls, tags));
  }

  // ---- the active tag never drives a switch ----

  /** The polls differ at most in what they show of the active tag. */
  ghost predicate SameButActive(p: Poll, q: Poll, tags: Tags) {
    && p.blue == q.blue && p.green == q.green
    && Seen(p, tags.blue) == Seen(q, tags.blue)
    && Seen(p, tags.green) == Seen(q, tags.green)
  }

  lemma {:induction false} LastSeenSame(ps: seq<Poll>, qs: seq<Poll>, tag: string)
    requires |ps| == |qs| && forall i :: 0 <= i < |ps| ==> Seen(ps[i], tag) == Seen(qs[i], tag)
    ensures LastSeen(ps, tag) == LastSeen(qs, tag)
  {
    if ps != [] {
      LastSeenSame(ps[..|ps| - 1], qs[..|qs| - 1], tag);
    }
  }

  lemma {:induction false} ActiveTagIsIgnored(ps: seq<Poll>, qs: seq<Poll>, tags: Tags)
    requires |ps| == |qs| && forall i :: 0 <= i < |ps| ==> SameButActive(ps[i], qs[i], tags)
    ensures Calls(ps, tags) == Calls(qs, tags) && Changes(ps, tags) == Changes(qs, tags)
  {
    if ps != [] {
      var p0, q0 := ps[..|ps| - 1], qs[..|qs| - 1];
      assert forall i :: 0 <= i < |p0| ==> SameButActive(ps[i], qs[i], tags);
      ActiveTagIsIgnored(p0, q0, tags);
      LastSeenSame(p0, q0, tags.blue);
      LastSeenSame(p0, q0, tags.green);
    }
  }

  /** Moving the active tag, or deleting it, is such a difference as long as it is not also
      the blue or the green tag. */
  lemma ActiveTagMoves(p: Poll, tags: Tags, commit: Commit)
    requires p.fetch.Refs? && tags.active != tags.blue && tags.active != tags.green
    ensures SameButActive(p, p.(fetch := Refs(p.fetch.refs[Ref(tags.active) := commit])), tags)
    ensures SameButActive(p, p.(fetch := Refs(p.fetch.refs - {Ref(tags.active)})), tags)
  {
    RefInjective(tags.active, tags.blue);
    RefInjective(tags.active, tags.green);
  }

  lemma RefInjective(a: string, b: string)
    requires a != b
    ensures Ref(a) != Ref(b)
  {
    var n := |"refs/tags/"|;
    assert Ref(a)[n..] == a && Ref(b)[n..] == b;
  }

  // ---- one more poll ----

  /** The watcher's fields use the empty string for a tag not yet seen. */
  function OrEmpty(c: Option<Commit>): string {
    if c.Some? then c.value else ""
  }

  lemma OneMorePoll(before: seq<Poll>, poll: Poll, tags: Tags)
    ensures Changes(before + [poll], tags)
            == Changes(before, tags) + BlueChange(before, poll, tags) + GreenChange(before, poll, tags)
    ensures Calls(before + [poll], tags) == Calls(before, tags) + BlueCall(before, poll, tags) + GreenCall(before, poll, tags)
  {
    assert (before + [poll])[..|before + [poll]| - 1] == before;
  }

  lemma OneMoreSighting(before: seq<Poll>, poll: Poll, tag: string)
    ensures LastSeen(before + [poll], tag)
            == if Seen(poll, tag).Some? then Seen(poll, tag) else LastSeen(before, tag)
  {
    assert (before + [poll])[..|before + [poll]| - 1] == before;
  }

  // ---- the object ----

  class GitWatcher {
    const tags: Tags
    const switcher: Switcher
    var status: GitStatus
    var lastBlue: string
    var lastGreen: string
    ghost var polls: seq<Poll>          // every poll so far
    ghost var changes: seq<TagChange>   // every notification so far

    /** The fields remember the last sighting of each tag in these polls. */
    ghost predicate Remembers(polls: seq<Poll>)
      reads this`lastBlue, this`lastGreen, this`status
    {
      && lastBlue == OrEmpty(LastSeen(polls, tags.blue)) == status.blueCommit
      && lastGreen == OrEmpty(LastSeen(polls, tags.green)) == status.greenCommit
      && status.activeCommit == OrEmpty(LastSeen(polls, tags.active))
    }

    ghost predicate Valid()
      reads this, switcher, switcher.proxy
    {
      switcher.Valid() && Remembers(polls) && changes == Changes(polls, tags)
    }

    constructor (tags: Tags, switcher: Switcher)
      requires switcher.Valid()
      ensures Valid() && this.tags == tags && this.switcher == switcher && polls == []
    {
      this.tags, this.switcher := tags, switcher;
      status := GitStatus(0, "", "", "", "", "");
      lastBlue, lastGreen := "", "";
      polls, changes := [], [];
    }

    /** notifyTagChange, with HandleTagChange as the callback; a refused switch is only
        logged. */
    method NotifyTagChange(change: TagChange, m: Moment)
      requires switcher.Valid()
      modifies this`changes, switcher, switcher.proxy
      ensures switcher.Valid()
      ensures changes == old(changes) + [change]
      ensures switcher.calls == old(switcher.calls) + [Call(change.target, GitTag, m.healthy, m.begin, m.end)]
    {
      changes := changes + [change];
      var _ := switcher.Switch(change.target, GitTag, m.healthy, m.begin, m.end);
    }

    method FetchAndCheck(poll: Poll)
      requires Valid()
      modifies this, switcher, switcher.proxy
      ensures Valid()
      ensures polls == old(polls) + [poll]
      ensures switcher.calls == old(switcher.calls) + BlueCall(old(polls), poll, tags) + GreenCall(old(polls), poll, tags)
      ensures status.lastFetch == poll.fetched
      ensures status.error == if poll.fetch.Failed? then poll.fetch.error else ""
      ensures status.lastTag == if Seen(poll, tags.active).Some? then tags.active else old(status.lastTag)
    {
      OneMorePoll(polls, poll, tags);
      status := status.(lastFetch := poll.fetched);
      match poll.fetch {
        case Failed(error) =>
          OneMoreSighting(polls, poll, tags.blue);
          OneMoreSighting(polls, poll, tags.green);
          OneMoreSighting(polls, poll, tags.active);
          status := status.(error := error);
        case Refs(refs) =>
          status := status.(error := "");
          CheckTags(refs, poll);
      }
      polls := polls + [poll];
    }

    method CheckTags(refs: map<string, Commit>, poll: Poll)
      requires switcher.Valid() && Remembers(polls) && poll.fetch == Refs(refs)
      modifies this`status, this`lastBlue, this`lastGreen, this`changes, switcher, switcher.proxy
      ensures switcher.Valid() && Remembers(polls + [poll])
      ensures changes == old(changes) + BlueChange(polls, poll, tags) + GreenChange(polls, poll, tags)
      ensures switcher.calls == old(switcher.calls) + BlueCall(polls, poll, tags) + GreenCall(polls, poll, tags)
      ensures status.lastFetch == old(status.lastFetch) && status.error == old(status.error)
      ensures status.lastTag == if Seen(poll, tags.active).Some? then tags.active else old(status.lastTag)
    {
      OneMoreSighting(polls, poll, tags.active);
      CheckBlue(refs, poll);
      CheckGreen(refs, poll);
      if Ref(tags.active) in refs {
        status := status.(activeCommit := refs[Ref(tags.active)], lastTag := tags.active);
      }
    }

    method CheckBlue(refs: map<string, Commit>, poll: Poll)
      requires switcher.Valid() && poll.fetch == Refs(refs)
      requires lastBlue == OrEmpty(LastSeen(polls, tags.blue))
      modifies this`status, this`lastBlue, this`changes, switcher, switcher.proxy
      ensures switcher.Valid()
      ensures var seen := Seen(poll, tags.blue);
              && lastBlue == OrEmpty(LastSeen(polls + [poll], tags.blue))
              && status == (if seen.Some? then old(status).(blueCommit := seen.value) else old(status))
      ensures changes == old(changes) + BlueChange(polls, poll, tags)
      ensures switcher.calls == old(switcher.calls) + BlueCall(polls, poll, tags)
    {
      OneMoreSighting(polls, poll, tags.blue);
      if Ref(tags.blue) in refs {
        var commit := refs[Ref(tags.blue)];
        status := status.(blueCommit := commit);
        if lastBlue != "" && lastBlue != commit {
          NotifyTagChange(TagChange(tags.blue, commit, Blue, poll.blue.notified), poll.blue);
        }
        lastBlue := commit;
      }
    }

    method CheckGreen(refs: map<string, Commit>, poll: Poll)
      requires switcher.Valid() && poll.fetch == Refs(refs)
      requires lastGreen == OrEmpty(LastSeen(polls, tags.green))
      modifies this`status, this`lastGreen, this`changes, switcher, switcher.proxy
      ensures switcher.Valid()
      ensures var seen := Seen(poll, tags.green);
              && lastGreen == OrEmpty(LastSeen(polls + [poll], tags.green))
              && status == (if seen.Some? then old(status).(greenCommit := seen.value) else old(status))
      ensures changes == old(changes) + GreenChange(polls, poll, tags)
      ensures switcher.calls == old(switcher.calls) + GreenCall(polls, poll, tags)
    {
      OneMoreSighting(polls, poll, tags.green);
      if Ref(tags.green) in refs {
        var commit := refs[Ref(tags.green)];
        status := status.(greenCommit := commit);
        if lastGreen != "" && lastGreen != commit {
          NotifyTagChange(TagChange(tags.green, commit, Green, poll.green.notified), poll.green);
        }
        lastGreen := commit;
      }
    }

    /** Polls one after another, with no other caller of Switch: the proxy ends on the
        target of the last notification whose target was healthy. */
    method PollLoop(ticks: seq<Poll>)
      requires Valid() && polls == [] && switcher.calls == []
      modifies this, switcher, switcher.proxy
      ensures Valid() && polls == ticks
      ensures switcher.proxy.activeTarget == FinalTarget(ticks, tags)
      ensures switcher.history == Recent(Events(Calls(ticks, tags)))
    {
      for i := 0 to |ticks|
        invariant Valid() && polls == ticks[..i]
        invariant switcher.calls == Calls(ticks[..i], tags)
      {
        assert ticks[..i + 1] == ticks[..i] + [ticks[i]];
        OneMorePoll(ticks[..i], ticks[i], tags);
        FetchAndCheck(ticks[i]);
      }
      assert ticks[..|ticks|] == ticks;
      CallsEndOnFinalTarget(ticks, tags);
      ActiveIsLastHealthy(switcher.calls);
    }
  }
}

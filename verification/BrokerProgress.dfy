/** What the broker can do from any state it gets into: clients come and go, a broadcast
    reaches everybody who is registered, and stopping closes every channel. */
module BrokerProgress {
  import opened Broker

  ghost predicate IsPath(ss: seq<State>, acts: seq<Action>) {
    && |ss| == |acts| + 1
    && forall i :: 0 <= i < |acts| ==> Enabled(ss[i], acts[i]) && ss[i + 1] == Step(ss[i], acts[i])
  }

  /** Some sequence of steps leads from one state to the other. */
  ghost predicate Reaches(from: State, s: State) {
    exists ss, acts :: IsPath(ss, acts) && ss[0] == from && ss[|acts|] == s
  }

  ghost predicate Reachable(s: State) {
    Reaches(INIT, s)
  }

  lemma ReachesItself(s: State)
    ensures Reaches(s, s)
  {
    var none: seq<Action> := [];
    assert IsPath([s], none) && [s][|none|] == s;
  }

  lemma ReachableKeepsInv(s: State)
    requires Reachable(s)
    ensures Inv(s)
  {
    var ss, acts :| IsPath(ss, acts) && ss[0] == INIT && ss[|acts|] == s;
    RunKeepsInv(ss, acts, |acts|);
  }

  lemma Extend(from: State, s: State, a: Action) returns (s': State)
    requires Reaches(from, s) && Enabled(s, a)
    ensures s' == Step(s, a) && Reaches(from, s')
  {
    s' := Step(s, a);
    var ss, acts :| IsPath(ss, acts) && ss[0] == from && ss[|acts|] == s;
    PathGrows(ss, acts, a);
    assert (ss + [s'])[|acts + [a]|] == s';
  }

  lemma PathGrows(ss: seq<State>, acts: seq<Action>, a: Action)
    requires IsPath(ss, acts) && Enabled(ss[|acts|], a)
    ensures IsPath(ss + [Step(ss[|acts|], a)], acts + [a])
  {
  }

  // ---- handlers ----

  lemma ReceiveMovesOne(client: Client)
    requires client.buffer != []
    ensures client.written + [client.buffer[0]] + client.buffer[1..] == client.written + client.buffer
  {
    assert client.buffer == [client.buffer[0]] + client.buffer[1..];
  }

  /** A streaming handler can write everything in its buffer, whatever the loop is doing. */
  lemma {:induction false} HandlerCatchesUp(from: State, s: State, c: Chan) returns (t: State)
    requires Reaches(from, s) && c in s.chans && s.chans[c].pc.Streaming?
    ensures Reaches(from, t)
    ensures var client := s.chans[c];
            t == s.(chans := s.chans[c := client.(buffer := [], written := client.written + client.buffer)])
    decreases |s.chans[c].buffer|
  {
    var client := s.chans[c];
    if client.buffer == [] {
      t := s;
      assert client.written + client.buffer == client.written;
    } else {
      var s' := Extend(from, s, Receive(c));
      t := HandlerCatchesUp(from, s', c);
      ReceiveMovesOne(client);
    }
  }

  /** Between rounds a new client can register ... */
  lemma ClientRegisters(from: State, s: State, c: Chan) returns (t: State)
    requires Reaches(from, s) && s.loop.Selecting? && c !in s.chans
    ensures Reaches(from, t)
    ensures t == s.(clients := s.clients + {c}, chans := s.chans[c := Client(Streaming, [], false, [])])
  {
    t := Extend(from, s, Connect(c));
    t := Extend(from, t, TakeRegister(c));
  }

  /** ... and a registered one leave, which closes its channel. */
  lemma ClientLeaves(from: State, s: State, c: Chan) returns (t: State)
    requires Reaches(from, s) && s.loop.Selecting? && c in s.clients && c in s.chans && s.chans[c].pc.Streaming?
    ensures Reaches(from, t)
    ensures t == s.(clients := s.clients - {c}, chans := s.chans[c := s.chans[c].(pc := Gone, closed := true)])
  {
    t := Extend(from, s, Leave(c));
    t := Extend(from, t, TakeUnregister(c));
  }

  /** A handler whose request has ended need not wait for the loop. */
  lemma HandlerQuits(from: State, s: State, c: Chan) returns (t: State)
    requires Reaches(from, s) && c in s.chans && s.chans[c].pc.Streaming?
    ensures Reaches(from, t) && t == s.(chans := s.chans[c := s.chans[c].(pc := Gone)])
  {
    t := Extend(from, s, Leave(c));
    t := Extend(from, t, SkipUnregister(c));
  }

  // ---- broadcasts ----

  /** The client has been sent the message, if fewer than ten were waiting in its buffer. */
  predicate Sent(before: Client, msg: Msg, after: Client) {
    after == if |before.buffer| < 10 then before.(buffer := before.buffer + [msg]) else before
  }

  /** The message has been sent to these clients and to nobody else. */
  ghost predicate SentTo(s: State, rest: set<Chan>, msg: Msg, t: State) {
    && t.chans.Keys == s.chans.Keys
    && forall c :: c in s.chans ==>
         if c in rest then Sent(s.chans[c], msg, t.chans[c]) else t.chans[c] == s.chans[c]
  }

  lemma SendOne(s: State, c: Chan, t: State, u: State)
    requires s.loop.Sending? && c in s.loop.rest && c in s.chans
    requires t == Step(s, Send(c)) && SentTo(t, s.loop.rest - {c}, s.loop.msg, u)
    ensures SentTo(s, s.loop.rest, s.loop.msg, u)
  {
    forall d | d in s.chans
      ensures if d in s.loop.rest then Sent(s.chans[d], s.loop.msg, u.chans[d]) else u.chans[d] == s.chans[d]
    {
      assert d in t.chans;
    }
  }

  /** A round can always be finished. */
  lemma {:induction false} RoundFinishes(from: State, s: State) returns (t: State)
    requires Reaches(from, s) && s.loop.Sending? && s.loop.rest <= s.chans.Keys
    ensures Reaches(from, t) && t.loop.Selecting?
    ensures t.clients == s.clients && t.broadcast == s.broadcast && SentTo(s, s.loop.rest, s.loop.msg, t)
    decreases |s.loop.rest|
  {
    if s.loop.rest == {} {
      t := Extend(from, s, EndSend);
    } else {
      var c :| c in s.loop.rest;
      var s' := Extend(from, s, Send(c));
      t := RoundFinishes(from, s');
      SendOne(s, c, s', t);
    }
  }

  /** The pending broadcasts can all be sent. */
  lemma {:induction false} QueueEmpties(from: State, s: State) returns (t: State)
    requires Reaches(from, s) && s.loop.Selecting? && s.clients <= s.chans.Keys
    ensures Reaches(from, t) && t.loop.Selecting? && t.broadcast == []
    ensures t.clients == s.clients && t.chans.Keys == s.chans.Keys
    decreases |s.broadcast|
  {
    if s.broadcast == [] {
      t := s;
    } else {
      var s' := Extend(from, s, TakeBroadcast);
      var u := RoundFinishes(from, s');
      t := QueueEmpties(from, u);
    }
  }

  /** A message that is published while the queue is empty can reach every registered client
      that has room for it, and nobody else. */
  lemma BroadcastReachesAll(s: State, msg: Msg) returns (t: State)
    requires Reachable(s) && s.loop.Selecting? && s.broadcast == []
    ensures Reaches(s, t) && t.loop.Selecting? && t.broadcast == [] && t.clients == s.clients
    ensures SentTo(s, s.clients, msg, t)
  {
    ReachableKeepsInv(s);
    ReachesItself(s);
    var s' := Extend(s, s, Publish(msg));
    s' := Extend(s, s', TakeBroadcast);
    t := RoundFinishes(s, s');
  }

  // ---- stopping ----

  lemma {:induction false} ClosingFinishes(from: State, s: State) returns (t: State)
    requires Reaches(from, s) && s.loop.Closing? && s.loop.rest == s.clients <= s.chans.Keys
    ensures Reaches(from, t) && t.loop.Stopped? && t.clients == {} && t.chans.Keys == s.chans.Keys
    ensures forall c :: c in s.chans ==>
              t.chans[c] == if c in s.clients then s.chans[c].(closed := true) else s.chans[c]
    decreases |s.loop.rest|
  {
    if s.loop.rest == {} {
      t := Extend(from, s, EndStop);
    } else {
      var c :| c in s.loop.rest;
      var s' := Extend(from, s, Close(c));
      t := ClosingFinishes(from, s');
    }
  }

  /** From every state the loop gets into, it can stop; that closes the channels of exactly
      the registered clients. */
  lemma StopCloses(s: State) returns (t: State)
    requires Reachable(s) && s.loop.Selecting?
    ensures Reaches(s, t) && t.loop.Stopped? && t.clients == {} && t.chans.Keys == s.chans.Keys
    ensures forall c :: c in s.chans ==>
              t.chans[c] == if c in s.clients then s.chans[c].(closed := true) else s.chans[c]
  {
    ReachableKeepsInv(s);
    ReachesItself(s);
    var s' := Extend(s, s, Stop);
    t := ClosingFinishes(s, s');
  }

  /** The loop is never stuck: unless it has stopped, it can get back to its select or stop. */
  lemma LoopComesBack(s: State) returns (t: State)
    requires Reachable(s) && !s.loop.Stopped?
    ensures Reaches(s, t) && (t.loop.Selecting? || t.loop.Stopped?)
  {
    ReachableKeepsInv(s);
    ReachesItself(s);
    match s.loop
    case Selecting => t := s;
    case Sending(_, _) => t := RoundFinishes(s, s);
    case Closing(_) => t := ClosingFinishes(s, s);
  }
}

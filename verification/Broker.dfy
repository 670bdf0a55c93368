/** The SSE broker: one event loop over a set of client channels, any number of request
    handlers, and any number of senders. */
module Broker {
  type Chan = nat
  type Msg = string

  const CLIENT_BUFFER: int := 10
  const BROADCAST_BUFFER: int := 100

  // What the request handler of a channel does next.
  datatype HandlerPc = Registering | Streaming | Leaving | Gone

  /** A client channel and its handler: `buffer` is sent but not received, `written` has
      been written to the response. */
  datatype Client = Client(pc: HandlerPc, buffer: seq<Msg>, closed: bool, written: seq<Msg>)

  // What the event loop does next; a loop over the clients goes through them in any order.
  datatype LoopPc =
    | Selecting
    | Sending(msg: Msg, rest: set<Chan>)
    | Closing(rest: set<Chan>)
    | Stopped

  datatype State = State(clients: set<Chan>, chans: map<Chan, Client>, broadcast: seq<Msg>, loop: LoopPc)

  datatype Action =
    | Connect(c: Chan)           // ServeHTTP makes its channel
    | TakeRegister(c: Chan)      // the loop receives from register
    | Receive(c: Chan)           // the handler writes one message
    | Leave(c: Chan)             // the handler's loop ends
    | TakeUnregister(c: Chan)    // the loop receives from unregister
    | SkipUnregister(c: Chan)    // the handler's default branch
    | Publish(msg: Msg)          // SendEvent or SendRaw
    | TakeBroadcast              // the loop receives from broadcast
    | Send(c: Chan)              // one iteration of the broadcast loop
    | EndSend
    | Stop                       // the loop sees ctx.Done
    | Close(c: Chan)             // one iteration of the shutdown loop
    | EndStop

  const INIT: State := State({}, map[], [], Selecting)

  predicate HasRoom(client: Client) {
    |client.buffer| < CLIENT_BUFFER
  }

  predicate Enabled(s: State, a: Action) {
    match a
    case Connect(c) => c !in s.chans
    case TakeRegister(c) => s.loop.Selecting? && c in s.chans && s.chans[c].pc.Registering?
    case Receive(c) => c in s.chans && s.chans[c].pc.Streaming? && s.chans[c].buffer != []
    case Leave(c) => c in s.chans && s.chans[c].pc.Streaming?
    case TakeUnregister(c) => s.loop.Selecting? && c in s.chans && s.chans[c].pc.Leaving?
    case SkipUnregister(c) => c in s.chans && s.chans[c].pc.Leaving?
    case Publish(_) => true
    case TakeBroadcast => s.loop.Selecting? && s.broadcast != []
    case Send(c) => s.loop.Sending? && c in s.loop.rest && c in s.chans
    case EndSend => s.loop.Sending? && s.loop.rest == {}
    case Stop => s.loop.Selecting?
    case Close(c) => s.loop.Closing? && c in s.loop.rest && c in s.chans
    case EndStop => s.loop.Closing? && s.loop.rest == {}
  }

  /** A non-blocking send to a client. */
  function Offer(client: Client, msg: Msg): Client {
    if HasRoom(client) then client.(buffer := client.buffer + [msg]) else client
  }

  function Step(s: State, a: Action): State
    requires Enabled(s, a)
  {
    match a
    case Connect(c) => s.(chans := s.chans[c := Client(Registering, [], false, [])])
    case TakeRegister(c) =>
      s.(clients := s.clients + {c}, chans := s.chans[c := s.chans[c].(pc := Streaming)])
    case Receive(c) =>
      var client := s.chans[c];
      s.(chans := s.chans[c := client.(buffer := client.buffer[1..], written := client.written + [client.buffer[0]])])
    case Leave(c) => s.(chans := s.chans[c := s.chans[c].(pc := Leaving)])
    case TakeUnregister(c) =>
      var gone := s.chans[c].(pc := Gone);
      if c in s.clients
      then s.(clients := s.clients - {c}, chans := s.chans[c := gone.(closed := true)])
      else s.(chans := s.chans[c := gone])
    case SkipUnregister(c) => s.(chans := s.chans[c := s.chans[c].(pc := Gone)])
    case Publish(msg) =>
      if |s.broadcast| < BROADCAST_BUFFER then s.(broadcast := s.broadcast + [msg]) else s
    case TakeBroadcast =>
      s.(broadcast := s.broadcast[1..], loop := Sending(s.broadcast[0], s.clients))
    case Send(c) =>
      s.(chans := s.chans[c := Offer(s.chans[c], s.loop.msg)], loop := Sending(s.loop.msg, s.loop.rest - {c}))
    case EndSend => s.(loop := Selecting)
    case Stop => s.(loop := Closing(s.clients))
    case Close(c) =>
      s.(clients := s.clients - {c}, chans := s.chans[c := s.chans[c].(closed := true)],
         loop := Closing(s.loop.rest - {c}))
    case EndStop => s.(loop := Stopped)
  }

  ghost predicate IsRun(ss: seq<State>, acts: seq<Action>) {
    && |ss| == |acts| + 1
    && ss[0] == INIT
    && forall i :: 0 <= i < |acts| ==> Enabled(ss[i], acts[i]) && ss[i + 1] == Step(ss[i], acts[i])
  }

  lemma RunGrows(ss: seq<State>, acts: seq<Action>, a: Action)
    requires IsRun(ss, acts) && Enabled(ss[|acts|], a)
    ensures IsRun(ss + [Step(ss[|acts|], a)], acts + [a])
  {
  }

  // ---- channel lifetime ----

  ghost predicate ClientOk(s: State, c: Chan)
    requires c in s.chans
  {
    var client := s.chans[c];
    && (if client.pc.Registering? then c !in s.clients && client == Client(Registering, [], false, [])
        else c in s.clients <==> !client.closed)
    && |client.buffer| <= CLIENT_BUFFER
  }

  ghost predicate Inv(s: State) {
    && s.clients <= s.chans.Keys
    && (forall c :: c in s.chans ==> ClientOk(s, c))
    && |s.broadcast| <= BROADCAST_BUFFER
    && (match s.loop
        case Selecting => true
        case Sending(_, rest) => rest <= s.clients
        case Closing(rest) => rest == s.clients
        case Stopped => s.clients == {})
  }

  lemma StepKeepsInv(s: State, a: Action)
    requires Inv(s) && Enabled(s, a)
    ensures Inv(Step(s, a))
  {
    var s' := Step(s, a);
    forall c | c in s'.chans
      ensures ClientOk(s', c)
    {
      assert c in s.chans ==> ClientOk(s, c);
    }
  }

  lemma {:induction false} RunKeepsInv(ss: seq<State>, acts: seq<Action>, i: nat)
    requires IsRun(ss, acts) && i < |ss|
    ensures Inv(ss[i])
  {
    if i > 0 {
      RunKeepsInv(ss, acts, i - 1);
      StepKeepsInv(ss[i - 1], acts[i - 1]);
    }
  }

  /** The action closes the channel. */
  predicate Closes(s: State, a: Action, c: Chan) {
    a == Close(c) || (a == TakeUnregister(c) && c in s.clients)
  }

  /** The loop only ever closes open channels and only ever sends on open ones. */
  lemma NoPanic(ss: seq<State>, acts: seq<Action>, i: nat, c: Chan)
    requires IsRun(ss, acts) && i < |acts|
    ensures Closes(ss[i], acts[i], c) || acts[i] == Send(c) ==> c in ss[i].chans && !ss[i].chans[c].closed
  {
    RunKeepsInv(ss, acts, i);
    if c in ss[i].chans {
      assert ClientOk(ss[i], c);
    }
  }

  lemma {:induction false} ClosedStaysClosed(ss: seq<State>, acts: seq<Action>, i: nat, j: nat, c: Chan)
    requires IsRun(ss, acts) && i <= j < |ss|
    requires c in ss[i].chans && ss[i].chans[c].closed
    ensures c in ss[j].chans && ss[j].chans[c].closed
  {
    if i < j {
      ClosedStaysClosed(ss, acts, i, j - 1, c);
    }
  }

  /** In every run a channel is closed at most once, and never sent to afterwards. */
  lemma ClosedOnce(ss: seq<State>, acts: seq<Action>, i: nat, j: nat, c: Chan)
    requires IsRun(ss, acts) && i < j < |acts| && Closes(ss[i], acts[i], c)
    ensures !Closes(ss[j], acts[j], c) && acts[j] != Send(c)
  {
    ClosedStaysClosed(ss, acts, i + 1, j, c);
    NoPanic(ss, acts, j, c);
  }

  /** A registered channel stays open exactly while the loop knows it, and a stopped loop
      has closed every channel that was ever registered. */
  lemma OpenIffKnown(ss: seq<State>, acts: seq<Action>, i: nat, c: Chan)
    requires IsRun(ss, acts) && i < |ss| && c in ss[i].chans && !ss[i].chans[c].pc.Registering?
    ensures c in ss[i].clients <==> !ss[i].chans[c].closed
    ensures ss[i].loop.Stopped? ==> ss[i].chans[c].closed
  {
    RunKeepsInv(ss, acts, i);
    assert ClientOk(ss[i], c);
  }

  // ---- delivery ----

  /** The published messages that found room in the broadcast buffer. */
  ghost function Accepted(ss: seq<State>, acts: seq<Action>, i: nat): seq<Msg>
    requires IsRun(ss, acts) && i < |ss|
  {
    if i == 0 then []
    else
      var before := Accepted(ss, acts, i - 1);
      var a := acts[i - 1];
      if a.Publish? && |ss[i - 1].broadcast| < 100 then before + [a.msg] else before
  }

  /** All broadcasts taken from the queue. */
  ghost function AllTaken(ss: seq<State>, acts: seq<Action>, i: nat): seq<Msg>
    requires IsRun(ss, acts) && i < |ss|
  {
    if i == 0 then []
    else
      var before := AllTaken(ss, acts, i - 1);
      if acts[i - 1].TakeBroadcast? then before + [ss[i - 1].broadcast[0]] else before
  }

  /** Messages are broadcast in the order in which they were accepted, each once. */
  lemma {:induction false} QueueIsFifo(ss: seq<State>, acts: seq<Action>, i: nat)
    requires IsRun(ss, acts) && i < |ss|
    ensures AllTaken(ss, acts, i) + ss[i].broadcast == Accepted(ss, acts, i)
    ensures |ss[i].broadcast| <= 100
  {
    RunKeepsInv(ss, acts, i);
    if i > 0 {
      QueueIsFifo(ss, acts, i - 1);
      var queue := ss[i - 1].broadcast;
      if acts[i - 1].TakeBroadcast? {
        assert queue == [queue[0]] + queue[1..];
      }
    }
  }

  /** The broadcasts taken from the queue, up to step i, while the client was registered. */
  ghost function Taken(ss: seq<State>, acts: seq<Action>, i: nat, c: Chan): seq<Msg>
    requires IsRun(ss, acts) && i < |ss|
  {
    if i == 0 then []
    else
      var before := Taken(ss, acts, i - 1, c);
      var s := ss[i - 1];
      if acts[i - 1].TakeBroadcast? && c in s.clients then before + [s.broadcast[0]] else before
  }

  datatype Attempt = Attempt(msg: Msg, room: bool)

  /** What the loop tried to send to the client, and whether its buffer had room. */
  ghost function Attempts(ss: seq<State>, acts: seq<Action>, i: nat, c: Chan): seq<Attempt>
    requires IsRun(ss, acts) && i < |ss|
  {
    if i == 0 then []
    else
      var before := Attempts(ss, acts, i - 1, c);
      var s := ss[i - 1];
      if acts[i - 1] == Send(c) then before + [Attempt(s.loop.msg, HasRoom(s.chans[c]))] else before
  }

  function Messages(attempts: seq<Attempt>): seq<Msg> {
    if attempts == [] then []
    else Messages(attempts[..|attempts| - 1]) + [attempts[|attempts| - 1].msg]
  }

  /** The messages that found room, in order. */
  function Successes(attempts: seq<Attempt>): seq<Msg> {
    if attempts == [] then []
    else
      var before := Successes(attempts[..|attempts| - 1]);
      if attempts[|attempts| - 1].room then before + [attempts[|attempts| - 1].msg] else before
  }

  /** The message still to be sent to the client in the current round. */
  function Pending(s: State, c: Chan): seq<Msg> {
    if s.loop.Sending? && c in s.loop.rest then [s.loop.msg] else []
  }

  function Delivered(s: State, c: Chan): seq<Msg> {
    if c in s.chans then s.chans[c].written + s.chans[c].buffer else []
  }

  /** Every broadcast taken while the client is registered is tried on it exactly once, in
      order. */
  lemma {:induction false} EveryBroadcastTried(ss: seq<State>, acts: seq<Action>, i: nat, c: Chan)
    requires IsRun(ss, acts) && i < |ss|
    ensures Messages(Attempts(ss, acts, i, c)) + Pending(ss[i], c) == Taken(ss, acts, i, c)
  {
    if i > 0 {
      EveryBroadcastTried(ss, acts, i - 1, c);
      RunKeepsInv(ss, acts, i - 1);
      PendingStep(ss[i - 1], acts[i - 1], c);
      var attempts := Attempts(ss, acts, i, c);
      if acts[i - 1] == Send(c) {
        assert attempts[..|attempts| - 1] == Attempts(ss, acts, i - 1, c);
      }
    }
  }

  /** A round begins with every client pending and ends with none. */
  lemma PendingStep(s: State, a: Action, c: Chan)
    requires Inv(s) && Enabled(s, a)
    ensures a.TakeBroadcast? ==>
              Pending(s, c) == [] && Pending(Step(s, a), c) == if c in s.clients then [s.broadcast[0]] else []
    ensures a == Send(c) ==> Pending(s, c) == [s.loop.msg] && Pending(Step(s, a), c) == []
    ensures !a.TakeBroadcast? && a != Send(c) ==> Pending(Step(s, a), c) == Pending(s, c)
  {
  }

  /** What a client has been written, followed by what it has not yet received, is exactly
      the attempts that found room. */
  lemma {:induction false} DeliveredIsSuccesses(ss: seq<State>, acts: seq<Action>, i: nat, c: Chan)
    requires IsRun(ss, acts) && i < |ss|
    ensures Delivered(ss[i], c) == Successes(Attempts(ss, acts, i, c))
  {
    if i > 0 {
      DeliveredIsSuccesses(ss, acts, i - 1, c);
      RunKeepsInv(ss, acts, i - 1);
      DeliveredStep(ss[i - 1], acts[i - 1], c);
      var attempts := Attempts(ss, acts, i, c);
      if acts[i - 1] == Send(c) {
        assert attempts[..|attempts| - 1] == Attempts(ss, acts, i - 1, c);
      }
    }
  }

  lemma DeliveredStep(s: State, a: Action, c: Chan)
    requires Inv(s) && Enabled(s, a)
    ensures Delivered(Step(s, a), c)
            == Delivered(s, c) + if a == Send(c) && HasRoom(s.chans[c]) then [s.loop.msg] else []
  {
    if a == Receive(c) {
      var b := s.chans[c].buffer;
      assert b == [b[0]] + b[1..];
    }
  }

  ghost predicate IsSubsequence(s: seq<Msg>, t: seq<Msg>) {
    if s == [] then true
    else if t == [] then false
    else if s[|s| - 1] == t[|t| - 1] && IsSubsequence(s[..|s| - 1], t[..|t| - 1]) then true
    else IsSubsequence(s, t[..|t| - 1])
  }

  lemma {:induction false} SuccessesAreSubsequence(attempts: seq<Attempt>)
    ensures IsSubsequence(Successes(attempts), Messages(attempts))
  {
    if attempts != [] {
      SuccessesAreSubsequence(attempts[..|attempts| - 1]);
      var s, t := Successes(attempts), Messages(attempts);
      assert t[..|t| - 1] == Messages(attempts[..|attempts| - 1]);
      if attempts[|attempts| - 1].room {
        assert s[..|s| - 1] == Successes(attempts[..|attempts| - 1]);
      }
    }
  }

  lemma {:induction false} SubsequenceOfPrefix(s: seq<Msg>, t: seq<Msg>, u: seq<Msg>)
    requires IsSubsequence(s, t)
    ensures IsSubsequence(s, t + u)
  {
    if u == [] {
      assert t + u == t;
    } else {
      SubsequenceOfPrefix(s, t, u[..|u| - 1]);
      assert (t + u)[..|t + u| - 1] == t + u[..|u| - 1];
    }
  }

  lemma {:induction false} SubsequencePrefix(s: seq<Msg>, r: seq<Msg>, t: seq<Msg>)
    requires IsSubsequence(s + r, t)
    ensures IsSubsequence(s, t)
    decreases |t|
  {
    var w := s + r;
    if s != [] && r != [] {
      if w[|w| - 1] == t[|t| - 1] && IsSubsequence(w[..|w| - 1], t[..|t| - 1]) {
        assert w[..|w| - 1] == s + r[..|r| - 1];
        SubsequencePrefix(s, r[..|r| - 1], t[..|t| - 1]);
      } else {
        SubsequencePrefix(s, r, t[..|t| - 1]);
      }
      assert t == t[..|t| - 1] + [t[|t| - 1]];
      SubsequenceOfPrefix(s, t[..|t| - 1], [t[|t| - 1]]);
    } else if r == [] {
      assert w == s;
    }
  }

  /** What a client's handler writes is an order-preserving subsequence of the broadcasts
      taken while it was registered. */
  lemma InOrderDelivery(ss: seq<State>, acts: seq<Action>, i: nat, c: Chan)
    requires IsRun(ss, acts) && i < |ss| && c in ss[i].chans
    ensures IsSubsequence(ss[i].chans[c].written, Taken(ss, acts, i, c))
  {
    EveryBroadcastTried(ss, acts, i, c);
    DeliveredIsSuccesses(ss, acts, i, c);
    var attempts := Attempts(ss, acts, i, c);
    SuccessesAreSubsequence(attempts);
    SubsequenceOfPrefix(Successes(attempts), Messages(attempts), Pending(ss[i], c));
    SubsequencePrefix(ss[i].chans[c].written, ss[i].chans[c].buffer, Taken(ss, acts, i, c));
  }

  // ---- what the handler writes ----

  /** How often the handler has received a message. */
  function Receives(acts: seq<Action>, i: nat, c: Chan): nat
    requires i <= |acts|
  {
    if i == 0 then 0 else Receives(acts, i - 1, c) + if acts[i - 1] == Receive(c) then 1 else 0
  }

  function Written(s: State, c: Chan): seq<Msg> {
    if c in s.chans then s.chans[c].written else []
  }

  lemma WrittenStep(ss: seq<State>, acts: seq<Action>, i: nat, c: Chan)
    requires IsRun(ss, acts) && i < |acts|
    ensures |Written(ss[i + 1], c)| == |Written(ss[i], c)| + if acts[i] == Receive(c) then 1 else 0
  {
    assert ss[i + 1] == Step(ss[i], acts[i]);
  }

  lemma {:induction false} ReceivesAreWritten(ss: seq<State>, acts: seq<Action>, i: nat, c: Chan)
    requires IsRun(ss, acts) && i < |ss|
    ensures |Written(ss[i], c)| == Receives(acts, i, c)
  {
    if i > 0 {
      ReceivesAreWritten(ss, acts, i - 1, c);
      WrittenStep(ss, acts, i - 1, c);
    }
  }

  /** Each receipt writes one message: the response holds exactly the first messages that
      found room, as many as were received, and the buffer holds the rest. */
  lemma WrittenIsPrefix(ss: seq<State>, acts: seq<Action>, i: nat, c: Chan)
    requires IsRun(ss, acts) && i < |ss| && c in ss[i].chans
    ensures var sent := Successes(Attempts(ss, acts, i, c));
            var received := Receives(acts, i, c);
            && received <= |sent|
            && ss[i].chans[c].written == sent[..received]
            && ss[i].chans[c].buffer == sent[received..]
  {
    ReceivesAreWritten(ss, acts, i, c);
    DeliveredIsSuccesses(ss, acts, i, c);
  }

  /** A message misses a client only if ten others are waiting in its buffer. */
  lemma MissedOnlyWhenFull(ss: seq<State>, acts: seq<Action>, i: nat, c: Chan)
    requires IsRun(ss, acts) && i < |acts| && acts[i] == Send(c)
    ensures Delivered(ss[i + 1], c)
            == if |ss[i].chans[c].buffer| == 10 then Delivered(ss[i], c) else Delivered(ss[i], c) + [ss[i].loop.msg]
    ensures |ss[i].chans[c].buffer| <= 10
  {
    RunKeepsInv(ss, acts, i);
    assert ClientOk(ss[i], c);
    DeliveredStep(ss[i], acts[i], c);
  }
}

/** The SSE broker as an object.  Each method is one atomic step of its event loop, of a
    request handler or of a sender, and is proved to be exactly the step of the broker
    machine.  The object's history is a run of that machine. */
module SSEBroker {
  import opened Broker

  class SSEBroker {
    var clients: set<Chan>
    var broadcast: seq<Msg>
    // the runtime: the channels with their handlers, and where the event loop is
    var chans: map<Chan, Client>
    var loop: LoopPc
    // the run so far
    ghost var ss: seq<State>
    ghost var acts: seq<Action>

    ghost function View(): State
      reads this
    {
      State(clients, chans, broadcast, loop)
    }

    ghost predicate Valid()
      reads this
    {
      IsRun(ss, acts) && ss[|acts|] == View()
    }

    lemma ValidKeepsInv()
      requires Valid()
      ensures Inv(View())
    {
      RunKeepsInv(ss, acts, |acts|);
    }

    // NewSSEBroker, then Start
    constructor ()
      ensures Valid() && View() == INIT && acts == []
    {
      clients, broadcast, chans, loop := {}, [], map[], Selecting;
      ss, acts := [INIT], [];
    }

    // ---- the event loop ----

    method TakeRegister(c: Chan)
      requires Enabled(View(), Broker.TakeRegister(c))
      modifies this`clients, this`chans
      ensures View() == Step(old(View()), Broker.TakeRegister(c))
    {
      clients := clients + {c};
      chans := chans[c := chans[c].(pc := Streaming)];
    }

    method TakeUnregister(c: Chan)
      requires Enabled(View(), Broker.TakeUnregister(c))
      modifies this`clients, this`chans
      ensures View() == Step(old(View()), Broker.TakeUnregister(c))
    {
      var client := chans[c].(pc := Gone);
      if c in clients {
        client := client.(closed := true);
        clients := clients - {c};
      }
      chans := chans[c := client];
    }

    method TakeBroadcast()
      requires Enabled(View(), Broker.TakeBroadcast)
      modifies this`broadcast, this`loop
      ensures View() == Step(old(View()), Broker.TakeBroadcast)
    {
      var msg := broadcast[0];
      broadcast := broadcast[1..];
      loop := Sending(msg, clients);
    }

    method Send(c: Chan)
      requires Enabled(View(), Broker.Send(c))
      modifies this`chans, this`loop
      ensures View() == Step(old(View()), Broker.Send(c))
    {
      var client, msg := chans[c], loop.msg;
      if |client.buffer| < CLIENT_BUFFER {
        client := client.(buffer := client.buffer + [msg]);
      }
      chans := chans[c := client];
      loop := Sending(msg, loop.rest - {c});
    }

    method EndSend()
      requires Enabled(View(), Broker.EndSend)
      modifies this`loop
      ensures View() == Step(old(View()), Broker.EndSend)
    {
      loop := Selecting;
    }

    method Stop()
      requires Enabled(View(), Broker.Stop)
      modifies this`loop
      ensures View() == Step(old(View()), Broker.Stop)
    {
      loop := Closing(clients);
    }

    method Close(c: Chan)
      requires Enabled(View(), Broker.Close(c))
      modifies this`clients, this`chans, this`loop
      ensures View() == Step(old(View()), Broker.Close(c))
    {
      chans := chans[c := chans[c].(closed := true)];
      clients := clients - {c};
      loop := Closing(loop.rest - {c});
    }

    method EndStop()
      requires Enabled(View(), Broker.EndStop)
      modifies this`loop
      ensures View() == Step(old(View()), Broker.EndStop)
    {
      loop := Stopped;
    }

    // ---- request handlers and senders ----

    method Connect(c: Chan)
      requires Enabled(View(), Broker.Connect(c))
      modifies this`chans
      ensures View() == Step(old(View()), Broker.Connect(c))
    {
      chans := chans[c := Client(Registering, [], false, [])];
    }

    method Receive(c: Chan)
      requires Enabled(View(), Broker.Receive(c))
      modifies this`chans
      ensures View() == Step(old(View()), Broker.Receive(c))
    {
      var client := chans[c];
      var msg := client.buffer[0];
      client := client.(buffer := client.buffer[1..], written := client.written + [msg]);
      chans := chans[c := client];
    }

    method Leave(c: Chan)
      requires Enabled(View(), Broker.Leave(c))
      modifies this`chans
      ensures View() == Step(old(View()), Broker.Leave(c))
    {
      chans := chans[c := chans[c].(pc := Leaving)];
    }

    method SkipUnregister(c: Chan)
      requires Enabled(View(), Broker.SkipUnregister(c))
      modifies this`chans
      ensures View() == Step(old(View()), Broker.SkipUnregister(c))
    {
      chans := chans[c := chans[c].(pc := Gone)];
    }

    method SendEvent(msg: Msg)
      modifies this`broadcast
      ensures View() == Step(old(View()), Publish(msg))
    {
      if |broadcast| < BROADCAST_BUFFER {
        broadcast := broadcast + [msg];
      }
    }

    /** Whatever happens next, the object takes the machine's step and its history is still
        a run. */
    method Perform(a: Action)
      requires Valid() && Enabled(View(), a)
      modifies this
      ensures Valid() && View() == Step(old(View()), a)
      ensures acts == old(acts) + [a] && ss == old(ss) + [View()]
    {
      RunGrows(ss, acts, a);
      match a {
        case Connect(c) => Connect(c);
        case TakeRegister(c) => TakeRegister(c);
        case Receive(c) => Receive(c);
        case Leave(c) => Leave(c);
        case TakeUnregister(c) => TakeUnregister(c);
        case SkipUnregister(c) => SkipUnregister(c);
        case Publish(msg) => SendEvent(msg);
        case TakeBroadcast => TakeBroadcast();
        case Send(c) => Send(c);
        case EndSend => EndSend();
        case Stop => Stop();
        case Close(c) => Close(c);
        case EndStop => EndStop();
      }
      acts, ss := acts + [a], ss + [View()];
    }
  }
}

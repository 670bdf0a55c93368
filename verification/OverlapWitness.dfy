/** Overlapping Switches can leave a request behind: the hypothesis of SerialSwitch
    is needed. */
module OverlapWitness {
  import opened Common
  import opened DrainProtocol
  import opened Reachability
  import opened SerialSwitch

  const TO_GREEN: Pid := 0   // calls Switch(green)
  const TO_BLUE: Pid := 1    // calls Switch(blue)
  const VISITOR: Pid := 2    // a request

  /** The gate in force from the moment TO_GREEN's drain has finished until its Reset. */
  function DrainedGate(mu: Option<Pid>, drainMu: Option<Pid>): Gate {
    Gate(0, 0, true, 0, mu, drainMu, Some(1), {0, 1}, 2, map[], Green, 0)
  }

  function SwitchAt(to: ServiceTarget, pc: ControlPc, drained: bool, prevDrainDone: bool): Process {
    Control(SwitchCall(to), pc, drained, prevDrainDone)
  }

  // TO_GREEN drains an idle proxy ...
  lemma GateMarked() returns (s: State)
    ensures Reachable(s)
    ensures s == State(Gate(0, 0, false, 0, Some(TO_GREEN), Some(TO_GREEN), None, {}, 1, map[], Blue, 0),
                       map[TO_GREEN := SwitchAt(Green, DrainMark, false, false)])
  {
    ReachesItself(INIT);
    s := InvokeOn(INIT, INIT, TO_GREEN, SwitchCall(Green));
    s := SwitchOn(INIT, s, TO_GREEN);  // read the target
    s := DrainOn(INIT, s, TO_GREEN);  // drainMu
    s := DrainOn(INIT, s, TO_GREEN);  // no previous drain
    s := DrainOn(INIT, s, TO_GREEN);  // mu
    s := DrainOn(INIT, s, TO_GREEN);  // not draining yet
  }

  lemma GateShut() returns (s: State)
    ensures Reachable(s)
    ensures s == State(Gate(0, 0, true, 0, None, Some(TO_GREEN), None, {0}, 1, map[], Blue, 0),
                       map[TO_GREEN := SwitchAt(Green, DrainMakeDone, false, false)])
  {
    s := GateMarked();
    s := DrainOn(INIT, s, TO_GREEN);  // draining = true
    s := DrainOn(INIT, s, TO_GREEN);  // close(drainCh)
    s := DrainOn(INIT, s, TO_GREEN);  // release mu
  }

  lemma WaiterStarted() returns (s: State)
    ensures Reachable(s)
    ensures s == State(Gate(0, 0, true, 0, None, Some(TO_GREEN), Some(1), {0}, 2, map[1 := Entering], Blue, 0),
                       map[TO_GREEN := SwitchAt(Green, DrainAwaitDone(1), false, false)])
  {
    s := GateShut();
    s := DrainOn(INIT, s, TO_GREEN);  // make done
    s := DrainOn(INIT, s, TO_GREEN);  // start the waiter
  }

  lemma WaiterFinished() returns (s: State)
    ensures Reachable(s)
    ensures s == State(DrainedGate(None, Some(TO_GREEN)).(activeTarget := Blue),
                       map[TO_GREEN := SwitchAt(Green, DrainAwaitDone(1), false, false)])
  {
    s := WaiterStarted();
    s := WaitOn(INIT, s, 1);  // Wait returns at once
    s := WaitOn(INIT, s, 1);  // close(done)
    assert s.gate.closed == {0, 1} && s.gate.waiters == map[];
  }

  // ... and stores green.
  lemma GreenStored() returns (s: State)
    ensures Reachable(s)
    ensures s == State(DrainedGate(None, None), map[TO_GREEN := SwitchAt(Green, ResetAwaitDrainMu, true, false)])
  {
    s := WaiterFinished();
    s := DrainOn(INIT, s, TO_GREEN);  // select sees done
    s := DrainOn(INIT, s, TO_GREEN);  // Drain returns nil
    s := SwitchOn(INIT, s, TO_GREEN);  // store green
  }

  // TO_BLUE starts a Switch back to blue; a finished drain is in force, so its Drain
  // returns nil as well.
  lemma PreviousDrainSeen() returns (s: State)
    ensures Reachable(s)
    ensures s == State(DrainedGate(None, Some(TO_BLUE)),
                       map[TO_GREEN := SwitchAt(Green, ResetAwaitDrainMu, true, false),
                           TO_BLUE := SwitchAt(Blue, DrainAwaitMu, false, false)])
  {
    s := GreenStored();
    s := InvokeOn(INIT, s, TO_BLUE, SwitchCall(Blue));
    s := SwitchOn(INIT, s, TO_BLUE);  // read the target
    s := DrainOn(INIT, s, TO_BLUE);  // drainMu
    s := DrainOn(INIT, s, TO_BLUE);  // a previous drain ...
    s := DrainOn(INIT, s, TO_BLUE);  // ... has finished
  }

  lemma BlueDrained() returns (s: State)
    ensures Reachable(s)
    ensures s == State(DrainedGate(None, None),
                       map[TO_GREEN := SwitchAt(Green, ResetAwaitDrainMu, true, false),
                           TO_BLUE := SwitchAt(Blue, SwitchStore, true, false)])
  {
    s := PreviousDrainSeen();
    s := DrainOn(INIT, s, TO_BLUE);  // mu
    s := DrainOn(INIT, s, TO_BLUE);  // already draining
    s := DrainOn(INIT, s, TO_BLUE);  // release mu
    s := DrainOn(INIT, s, TO_BLUE);  // Drain returns nil
  }

  // TO_GREEN's Reset opens the gate.
  lemma FinishedDrainSeen() returns (s: State)
    ensures Reachable(s)
    ensures s == State(Gate(0, 0, true, 0, None, Some(TO_GREEN), None, {0, 1}, 2, map[], Green, 0),
                       map[TO_GREEN := SwitchAt(Green, ResetAwaitMu, true, true),
                           TO_BLUE := SwitchAt(Blue, SwitchStore, true, false)])
  {
    s := BlueDrained();
    s := ResetOn(INIT, s, TO_GREEN);  // drainMu
    s := ResetOn(INIT, s, TO_GREEN);  // the drain has finished
  }

  lemma GateOpened() returns (s: State)
    ensures Reachable(s)
    ensures s == State(Gate(0, 0, false, 0, Some(TO_GREEN), Some(TO_GREEN), None, {0, 1}, 2, map[], Green, 0),
                       map[TO_GREEN := SwitchAt(Green, ResetMakeCh, true, true),
                           TO_BLUE := SwitchAt(Blue, SwitchStore, true, false)])
  {
    s := FinishedDrainSeen();
    s := ResetOn(INIT, s, TO_GREEN);  // mu
    s := ResetOn(INIT, s, TO_GREEN);  // draining = false
  }

  lemma ChannelRenewed() returns (s: State)
    ensures Reachable(s)
    ensures s == State(Gate(0, 0, false, 2, Some(TO_GREEN), Some(TO_GREEN), None, {0, 1}, 3, map[], Green, 0),
                       map[TO_GREEN := SwitchAt(Green, ResetLeaveMu, true, true),
                           TO_BLUE := SwitchAt(Blue, SwitchStore, true, false)])
  {
    s := GateOpened();
    s := ResetOn(INIT, s, TO_GREEN);  // new drainCh
  }

  lemma GreenServing() returns (s: State)
    ensures Reachable(s)
    ensures s == State(Gate(0, 0, false, 2, None, None, None, {0, 1}, 3, map[], Green, 0),
                       map[TO_GREEN := SwitchAt(Green, Returned, true, true),
                           TO_BLUE := SwitchAt(Blue, SwitchStore, true, false)])
  {
    s := ChannelRenewed();
    s := ResetOn(INIT, s, TO_GREEN);  // release mu
    s := ResetOn(INIT, s, TO_GREEN);  // release drainMu
  }

  // ---- a store at an open gate ----

  /** Whenever a Switch is about to store another target at an open gate, a request can slip
      in and be left behind: the gate must be shut for the store. */
  lemma OpenStoreLeavesRequest(from: State, s: State, p: Pid, q: Pid) returns (s': State)
    requires Reaches(from, s) && !s.gate.draining && s.gate.mu.None? && q !in s.procs
    requires p in s.procs && s.procs[p].Control? && s.procs[p].cpc.SwitchStore?
    requires s.procs[p].call.SwitchCall? && s.procs[p].call.to != s.gate.activeTarget
    ensures Reaches(from, s') && !s'.gate.draining
    ensures q in s'.procs && Routed(s'.procs[q]) && s'.procs[q].seen != Some(s'.gate.activeTarget)
  {
    s' := RequestServed(from, s, q);
    s' := SwitchOn(from, s', p);
  }

  /** Overlapping Switches get there: the gate can be open while an in-flight request is on a
      target that is no longer the active one. */
  lemma OverlapLeavesRequestBehind()
    ensures exists s :: Reachable(s) && !s.gate.draining
              && exists p :: p in s.procs && Routed(s.procs[p])
                             && s.procs[p].seen != Some(s.gate.activeTarget)
  {
    var s := GreenServing();
    s := OpenStoreLeavesRequest(INIT, s, TO_BLUE, VISITOR);
  }
}

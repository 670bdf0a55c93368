/** Drain gives up when its context ends, whatever the requests it waits for do: a Switch
    then goes on to its target behind the shut gate. */
module Timeouts {
  import opened Common
  import opened DrainProtocol
  import opened DrainInvariant
  import opened Reachability

  /** Inside one of the two selects of Drain, waiting for the channel. */
  predicate Selecting(proc: Process, c: Chan) {
    proc.Control? && (proc.cpc == DrainAwaitPrev(c) || proc.cpc == DrainAwaitDone(c))
  }

  /** The request has found the gate shut and has been turned away. */
  predicate TurnedAway(before: Process, after: Process) {
    && before.Request? && (before.rpc.CheckDraining? || before.rpc.Refuse?)
    && after == before.(rpc := Refused)
  }

  /** No process but p has moved, except that a request in the middle of being turned away
      may have been. */
  ghost predicate OthersStay(s: State, t: State, p: Pid) {
    && t.procs.Keys == s.procs.Keys
    && forall q :: q in s.procs && q != p ==>
         t.procs[q] == s.procs[q] || TurnedAway(s.procs[q], t.procs[q])
  }

  lemma SelectingFacts(s: State, p: Pid, c: Chan)
    requires Inv(s) && p in s.procs && Selecting(s.procs[p], c)
    ensures s.gate.draining && s.gate.prevDone == Some(c) && s.gate.drainMu == Some(p)
    ensures s.gate.mu.Some? ==>
              var q := s.gate.mu.value;
              && q in s.procs && q != p && s.procs[q].Request?
              && (s.procs[q].rpc.CheckDraining? || s.procs[q].rpc.Refuse?)
  {
    assert ProcessOk(s.gate, p, s.procs[p]);
    if s.gate.mu.Some? {
      assert ProcessOk(s.gate, s.gate.mu.value, s.procs[s.gate.mu.value]);
    }
  }

  /** Whoever holds mu is on its way out. */
  lemma MuComesFree(from: State, s: State, p: Pid, c: Chan) returns (t: State)
    requires Reaches(from, s) && Inv(s) && p in s.procs && Selecting(s.procs[p], c)
    ensures Reaches(from, t) && OthersStay(s, t, p)
    ensures t.gate == s.gate.(mu := None) && t.procs[p] == s.procs[p]
  {
    SelectingFacts(s, p, c);
    t := s;
    if s.gate.mu.Some? {
      var q := s.gate.mu.value;
      if s.procs[q].rpc.CheckDraining? {
        t := ServeOn(from, t, q);  // draining
      }
      t := ServeOn(from, t, q);  // release mu
    }
  }

  lemma DrainGivesUp(from: State, s: State, p: Pid, c: Chan) returns (t: State)
    requires Reaches(from, s) && Inv(s) && p in s.procs && Selecting(s.procs[p], c)
    ensures Reaches(from, t) && OthersStay(s, t, p)
    ensures t.gate == s.gate.(mu := None, drainMu := None)
    ensures t.procs[p] == s.procs[p].(cpc := if s.procs[p].call.SwitchCall? then SwitchStore else Returned,
                                      drained := false)
  {
    t := MuComesFree(from, s, p, c);
    t := CancelOn(from, t, p);  // ctx.Done
    t := DrainOn(from, t, p);  // Drain returns the error
  }

  /** A Drain whose context ends while it waits can return the error, with the gate still
      shut, although no request has left. */
  lemma TimedOutDrainReturns(s: State, p: Pid, c: Chan) returns (t: State)
    requires Reachable(s) && p in s.procs && Selecting(s.procs[p], c) && s.procs[p].call.DrainCall?
    ensures Reaches(s, t) && OthersStay(s, t, p)
    ensures t.procs[p].Control? && t.procs[p].cpc.Returned? && !t.procs[p].drained
    ensures t.gate.draining && t.gate.wg == s.gate.wg
  {
    ReachableKeepsInv(s);
    ReachesItself(s);
    SelectingFacts(s, p, c);
    t := DrainGivesUp(s, s, p, c);
  }

  lemma TargetStored(from: State, s: State, p: Pid, c: Chan) returns (t: State)
    requires Reaches(from, s) && Inv(s) && p in s.procs && Selecting(s.procs[p], c)
    requires s.procs[p].call.SwitchCall?
    ensures Reaches(from, t) && OthersStay(s, t, p)
    ensures t.gate == s.gate.(mu := None, drainMu := Some(p), activeTarget := s.procs[p].call.to)
    ensures t.procs[p] == s.procs[p].(cpc := ResetSeePrev, drained := false)
  {
    var gaveUp := DrainGivesUp(from, s, p, c);
    t := StoreAndLock(from, gaveUp, p);
    OthersStayOn(s, gaveUp, t, p);
  }

  lemma StoreAndLock(from: State, s: State, p: Pid) returns (t: State)
    requires Reaches(from, s) && p in s.procs && s.procs[p].Control? && s.procs[p].cpc.SwitchStore?
    requires s.procs[p].call.SwitchCall? && s.gate.drainMu.None?
    ensures Reaches(from, t) && OthersStay(s, t, p)
    ensures t.gate == s.gate.(drainMu := Some(p), activeTarget := s.procs[p].call.to)
    ensures t.procs[p] == s.procs[p].(cpc := ResetSeePrev)
  {
    t := SwitchOn(from, s, p);  // store the target
    t := ResetOn(from, t, p);  // drainMu
  }

  lemma ResetLooks(from: State, s: State, p: Pid, c: Chan) returns (t: State)
    requires Reaches(from, s) && p in s.procs && s.procs[p].Control? && s.procs[p].cpc.ResetSeePrev?
    requires s.gate.mu.None? && s.gate.prevDone == Some(c)
    ensures Reaches(from, t) && OthersStay(s, t, p)
    ensures var finished := c in s.gate.closed;
            && t.gate == s.gate.(mu := Some(p), prevDone := if finished then None else Some(c))
            && t.procs[p] == s.procs[p].(cpc := ResetReopen, prevDrainDone := finished)
  {
    t := ResetOn(from, s, p);  // look at prevDone
    t := ResetOn(from, t, p);  // mu
  }

  lemma ResetReopens(from: State, s: State, p: Pid) returns (t: State)
    requires Reaches(from, s) && p in s.procs && s.procs[p].Control? && s.procs[p].cpc.ResetReopen?
    ensures Reaches(from, t) && OthersStay(s, t, p)
    ensures t.gate == s.gate.(draining := s.gate.draining && !s.procs[p].prevDrainDone,
                              drainCh := s.gate.nextChan, nextChan := s.gate.nextChan + 1)
    ensures t.procs[p] == s.procs[p].(cpc := ResetLeaveMu)
  {
    t := ResetOn(from, s, p);  // draining
    t := ResetOn(from, t, p);  // new drainCh
  }

  lemma ResetReturns(from: State, s: State, p: Pid) returns (t: State)
    requires Reaches(from, s) && p in s.procs && s.procs[p].Control? && s.procs[p].cpc.ResetLeaveMu?
    ensures Reaches(from, t) && OthersStay(s, t, p)
    ensures t.gate == s.gate.(mu := None, drainMu := None)
    ensures t.procs[p] == s.procs[p].(cpc := Returned)
  {
    t := ResetOn(from, s, p);  // release mu
    t := ResetOn(from, t, p);  // release drainMu
  }

  lemma ResetRuns(from: State, s: State, p: Pid, c: Chan) returns (t: State)
    requires Reaches(from, s) && p in s.procs && s.procs[p].Control? && s.procs[p].cpc.ResetSeePrev?
    requires s.gate.mu.None? && s.gate.prevDone == Some(c)
    ensures Reaches(from, t) && OthersStay(s, t, p)
    ensures t.procs[p].Control? && t.procs[p].cpc.Returned? && t.procs[p].drained == s.procs[p].drained
    ensures t.gate.activeTarget == s.gate.activeTarget && t.gate.wg == s.gate.wg
    ensures t.gate.draining <==> s.gate.draining && c !in s.gate.closed
  {
    var looked := ResetLooks(from, s, p, c);
    var reopened := ResetReopens(from, looked, p);
    t := ResetReturns(from, reopened, p);
    OthersStayOn(s, looked, reopened, p);
    OthersStayOn(s, reopened, t, p);
  }

  lemma OthersStayOn(s: State, t: State, u: State, p: Pid)
    requires OthersStay(s, t, p) && OthersStay(t, u, p)
    ensures OthersStay(s, u, p)
  {
  }

  lemma SwitchGoesOn(from: State, s: State, p: Pid, c: Chan) returns (t: State)
    requires Reaches(from, s) && Inv(s) && p in s.procs && Selecting(s.procs[p], c)
    requires s.procs[p].call.SwitchCall?
    ensures Reaches(from, t) && OthersStay(s, t, p)
    ensures t.procs[p].Control? && t.procs[p].cpc.Returned? && !t.procs[p].drained
    ensures t.gate.activeTarget == s.procs[p].call.to && t.gate.wg == s.gate.wg
    ensures t.gate.draining <==> c !in s.gate.closed
  {
    SelectingFacts(s, p, c);
    var stored := TargetStored(from, s, p, c);
    t := ResetRuns(from, stored, p, c);
    OthersStayOn(s, stored, t, p);
  }

  /** A Switch whose context ends while its Drain waits can return on its target, although no
      request has left; the gate stays shut unless the waiter has finished by then. */
  lemma TimedOutSwitchReturns(s: State, p: Pid, c: Chan) returns (t: State)
    requires Reachable(s) && p in s.procs && Selecting(s.procs[p], c) && s.procs[p].call.SwitchCall?
    ensures Reaches(s, t) && OthersStay(s, t, p)
    ensures t.procs[p].Control? && t.procs[p].cpc.Returned? && !t.procs[p].drained
    ensures t.gate.activeTarget == s.procs[p].call.to && t.gate.wg == s.gate.wg
    ensures t.gate.draining <==> c !in s.gate.closed
  {
    ReachableKeepsInv(s);
    ReachesItself(s);
    t := SwitchGoesOn(s, s, p, c);
  }

  // ---- a request that never leaves ----

  const VISITOR: Pid := 0
  const OPERATOR: Pid := 1

  function BusyGate(draining: bool, mu: Option<Pid>, drainMu: Option<Pid>, closed: set<Chan>): Gate {
    Gate(1, 1, draining, 0, mu, drainMu, None, closed, 1, map[], Blue, 0)
  }

  function Waiting(cpc: ControlPc): map<Pid, Process> {
    map[VISITOR := Request(ServeHTTP, InFlight, Some(Blue)), OPERATOR := Control(SwitchCall(Green), cpc, false, false)]
  }

  lemma SwitchBegun() returns (s: State)
    ensures Reachable(s) && s == State(BusyGate(false, None, Some(OPERATOR), {}), Waiting(DrainAwaitMu))
  {
    ReachesItself(INIT);
    s := RequestServed(INIT, INIT, VISITOR);
    s := InvokeOn(INIT, s, OPERATOR, SwitchCall(Green));
    s := SwitchOn(INIT, s, OPERATOR);  // read the target
    s := DrainOn(INIT, s, OPERATOR);  // drainMu
    s := DrainOn(INIT, s, OPERATOR);  // no previous drain
  }

  lemma GateMarked() returns (s: State)
    ensures Reachable(s) && s == State(BusyGate(true, Some(OPERATOR), Some(OPERATOR), {}), Waiting(DrainClose))
  {
    s := SwitchBegun();
    s := DrainOn(INIT, s, OPERATOR);  // mu
    s := DrainOn(INIT, s, OPERATOR);  // not draining yet
    s := DrainOn(INIT, s, OPERATOR);  // draining = true
  }

  lemma GateShut() returns (s: State)
    ensures Reachable(s) && s == State(BusyGate(true, None, Some(OPERATOR), {0}), Waiting(DrainMakeDone))
  {
    s := GateMarked();
    s := DrainOn(INIT, s, OPERATOR);  // close(drainCh)
    s := DrainOn(INIT, s, OPERATOR);  // release mu
  }

  lemma WaiterParked() returns (s: State)
    ensures Reachable(s) && s.procs == Waiting(DrainAwaitDone(1))
    ensures s.gate.waiters == map[1 := Parked] && s.gate.closed == {0}
  {
    s := GateShut();
    s := DrainOn(INIT, s, OPERATOR);  // make done
    s := DrainOn(INIT, s, OPERATOR);  // start the waiter
    s := WaitOn(INIT, s, 1);  // Wait finds a request
  }

  /** With a request in flight that stays, a timed-out Switch still returns, on green and
      behind a shut gate. */
  lemma StuckRequestDoesNotHoldSwitch() returns (s: State)
    ensures Reachable(s) && s.gate.draining && s.gate.activeTarget == Green
    ensures VISITOR in s.procs && s.procs[VISITOR] == Request(ServeHTTP, InFlight, Some(Blue))
    ensures OPERATOR in s.procs && s.procs[OPERATOR].Control? && s.procs[OPERATOR].cpc.Returned?
  {
    var waiting := WaiterParked();
    ReachableKeepsInv(waiting);
    s := SwitchGoesOn(INIT, waiting, OPERATOR, 1);
    assert !TurnedAway(waiting.procs[VISITOR], s.procs[VISITOR]);
  }
}

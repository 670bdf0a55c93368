/** Which states a state can lead to, and single steps towards them. */
module Reachability {
  import opened Common
  import opened DrainProtocol
  import opened DrainInvariant

  ghost predicate IsPath(ss: seq<State>, acts: seq<Action>) {
    && |ss| == |acts| + 1
    && forall i :: 0 <= i < |acts| ==> Enabled(ss[i], acts[i]) && ss[i + 1] == Step(ss[i], acts[i])
  }

  /** Some sequence of steps leads from one state to the other. */
  ghost predicate Reaches(from: State, s: State) {
    exists ss, acts :: IsPath(ss, acts) && ss[0] == from && ss[|acts|] == s
  }

  /** s is the last state of some run. */
  ghost predicate Reachable(s: State) {
    Reaches(INIT, s)
  }

  lemma ReachesItself(s: State)
    ensures Reaches(s, s)
  {
    var none: seq<Action> := [];
    assert IsPath([s], none) && [s][|none|] == s;
  }

  lemma ReachableKeepsInv(s: State)
    requires Reachable(s)
    ensures Inv(s)
  {
    var ss, acts :| IsPath(ss, acts) && ss[0] == INIT && ss[|acts|] == s;
    RunKeepsInv(ss, acts, |acts|);
  }

  lemma Extend(from: State, s: State, a: Action) returns (s': State)
    requires Reaches(from, s) && Enabled(s, a)
    ensures s' == Step(s, a) && Reaches(from, s')
  {
    s' := Step(s, a);
    var ss, acts :| IsPath(ss, acts) && ss[0] == from && ss[|acts|] == s;
    PathGrows(ss, acts, a);
    assert (ss + [s'])[|acts + [a]|] == s';
  }

  lemma PathGrows(ss: seq<State>, acts: seq<Action>, a: Action)
    requires IsPath(ss, acts) && Enabled(ss[|acts|], a)
    ensures IsPath(ss + [Step(ss[|acts|], a)], acts + [a])
  {
  }

  lemma Moved(from: State, s: State, p: Pid, move: Move) returns (s': State)
    requires Reaches(from, s) && Enabled(s, Advance(p)) && move == ProcessStep(s.gate, p, s.procs[p])
    ensures s' == State(move.gate, s.procs[p := move.proc]) && Reaches(from, s')
  {
    s' := Extend(from, s, Advance(p));
  }

  // One statement of a request, of Drain, of Reset and of Switch.

  lemma ServeOn(from: State, s: State, p: Pid) returns (s': State)
    requires Reaches(from, s) && p in s.procs && s.procs[p].Request? && RequestEnabled(s.gate, s.procs[p])
    ensures var move := RequestStep(s.gate, p, s.procs[p]);
            s' == State(move.gate, s.procs[p := move.proc]) && Reaches(from, s')
  {
    s' := Moved(from, s, p, RequestStep(s.gate, p, s.procs[p]));
  }

  lemma DrainOn(from: State, s: State, p: Pid) returns (s': State)
    requires Reaches(from, s) && p in s.procs && s.procs[p].Control? && InDrain(s.procs[p].cpc)
    requires ControlEnabled(s.gate, s.procs[p])
    ensures var move := DrainStep(s.gate, p, s.procs[p]);
            s' == State(move.gate, s.procs[p := move.proc]) && Reaches(from, s')
  {
    s' := Moved(from, s, p, DrainStep(s.gate, p, s.procs[p]));
  }

  lemma ResetOn(from: State, s: State, p: Pid) returns (s': State)
    requires Reaches(from, s) && p in s.procs && s.procs[p].Control? && InReset(s.procs[p].cpc)
    requires ControlEnabled(s.gate, s.procs[p])
    ensures var move := ResetStep(s.gate, p, s.procs[p]);
            s' == State(move.gate, s.procs[p := move.proc]) && Reaches(from, s')
  {
    s' := Moved(from, s, p, ResetStep(s.gate, p, s.procs[p]));
  }

  lemma SwitchOn(from: State, s: State, p: Pid) returns (s': State)
    requires Reaches(from, s) && p in s.procs && s.procs[p].Control?
    requires s.procs[p].cpc.SwitchRead? || s.procs[p].cpc.SwitchStore?
    ensures var move := SwitchStep(s.gate, p, s.procs[p]);
            s' == State(move.gate, s.procs[p := move.proc]) && Reaches(from, s')
  {
    s' := Moved(from, s, p, SwitchStep(s.gate, p, s.procs[p]));
  }

  lemma WaitOn(from: State, s: State, c: Chan) returns (s': State)
    requires Reaches(from, s) && c in s.gate.waiters && !s.gate.waiters[c].Parked?
    ensures s' == State(WaiterStep(s.gate, c), s.procs) && Reaches(from, s')
  {
    s' := Extend(from, s, Wait(c));
  }

  lemma CancelOn(from: State, s: State, p: Pid) returns (s': State)
    requires Reaches(from, s) && p in s.procs && CanCancel(s.procs[p])
    ensures s' == State(s.gate, s.procs[p := CancelStep(s.procs[p])]) && Reaches(from, s')
  {
    s' := Extend(from, s, Cancel(p));
  }

  // A request may arrive and a call may be made at any time.

  lemma ArriveOn(from: State, s: State, p: Pid, entry: Entry) returns (s': State)
    requires Reaches(from, s) && p !in s.procs
    ensures s' == State(s.gate, s.procs[p := Request(entry, AwaitMu, None)]) && Reaches(from, s')
  {
    s' := Extend(from, s, Arrive(p, entry));
  }

  lemma InvokeOn(from: State, s: State, p: Pid, call: Call) returns (s': State)
    requires Reaches(from, s) && p !in s.procs
    ensures s' == State(s.gate, s.procs[p := Control(call, FirstPc(call), false, false)]) && Reaches(from, s')
  {
    s' := Extend(from, s, Invoke(p, call));
  }

  // A request at an open gate gets in and is routed.

  lemma RequestTracked(from: State, s: State, q: Pid) returns (s': State)
    requires Reaches(from, s) && !s.gate.draining && s.gate.mu.None? && q !in s.procs
    ensures Reaches(from, s')
    ensures s' == State(s.gate.(mu := Some(q), activeConnections := s.gate.activeConnections + 1, wg := s.gate.wg + 1),
                        s.procs[q := Request(ServeHTTP, LeaveMu, None)])
  {
    s' := ArriveOn(from, s, q, ServeHTTP);
    s' := ServeOn(from, s', q);  // mu
    s' := ServeOn(from, s', q);  // not draining
    s' := ServeOn(from, s', q);  // activeConnections
    s' := ServeOn(from, s', q);  // wg
  }

  lemma RequestServed(from: State, s: State, q: Pid) returns (s': State)
    requires Reaches(from, s) && !s.gate.draining && s.gate.mu.None? && q !in s.procs
    ensures Reaches(from, s')
    ensures s' == State(s.gate.(activeConnections := s.gate.activeConnections + 1, wg := s.gate.wg + 1),
                        s.procs[q := Request(ServeHTTP, InFlight, Some(s.gate.activeTarget))])
  {
    s' := RequestTracked(from, s, q);
    s' := ServeOn(from, s', q);  // release mu
    s' := ServeOn(from, s', q);  // read the target
  }
}

/** The Drainer and the Proxy's target as an object.  Each method is one atomic
    statement of the process named by its argument, and is proved to be exactly the
    step of the protocol.  The object carries its own history, which is a run of the
    protocol, so everything proved about runs is about this object. */
module Drainer {
  import opened Common
  import opened DrainProtocol
  import opened DrainInvariant

  class Drainer {
    var activeConnections: int
    var wg: int
    var draining: bool
    var drainCh: Chan
    var mu: Option<Pid>
    var drainMu: Option<Pid>
    var prevDone: Option<Chan>
    var activeTarget: ServiceTarget
    // the runtime: channels, waiter goroutines, callback total, program counters
    var closed: set<Chan>
    var nextChan: Chan
    var waiters: map<Chan, WaitPhase>
    var reported: int
    var procs: map<Pid, Process>
    // the run so far
    ghost var ss: seq<State>
    ghost var acts: seq<Action>

    ghost function View(): State
      reads this
    {
      State(Gate(activeConnections, wg, draining, drainCh, mu, drainMu, prevDone, closed,
                 nextChan, waiters, activeTarget, reported), procs)
    }

    ghost predicate Valid()
      reads this
    {
      IsRun(ss, acts) && ss[|acts|] == View()
    }

    lemma ValidKeepsInv()
      requires Valid()
      ensures Inv(View())
    {
      RunKeepsInv(ss, acts, |acts|);
    }

    // NewDrainer and New
    constructor ()
      ensures Valid() && View() == INIT && acts == []
    {
      activeConnections, wg, draining := 0, 0, false;
      mu, drainMu, prevDone := None, None, None;
      drainCh, nextChan, closed := 0, 1, {};
      waiters, reported, procs := map[], 0, map[];
      activeTarget := Blue;
      ss, acts := [INIT], [];
    }

    method Arrive(p: Pid, entry: Entry)
      requires p !in procs
      modifies this`procs
      ensures View() == Step(old(View()), DrainProtocol.Arrive(p, entry))
    {
      procs := procs[p := Request(entry, AwaitMu, None)];
    }

    method Invoke(p: Pid, call: Call)
      requires p !in procs
      modifies this`procs
      ensures View() == Step(old(View()), DrainProtocol.Invoke(p, call))
    {
      procs := procs[p := Control(call, FirstPc(call), false, false)];
    }

    /** The next statement of a request: entering. */
    method Track(p: Pid)
      requires Enabled(View(), Advance(p)) && procs[p].Request?
      requires HoldsMu(procs[p]) || procs[p].rpc.AwaitMu?
      modifies this`mu, this`activeConnections, this`wg, this`procs
      ensures View() == Step(old(View()), Advance(p))
    {
      var proc := procs[p];
      var next := proc.rpc;
      match proc.rpc {
        case AwaitMu => mu, next := Some(p), CheckDraining;
        case CheckDraining => next := if draining then Refuse else AddActive;
        case Refuse => mu, next := None, Refused;
        case AddActive => activeConnections, next := activeConnections + 1, AddWg;
        case AddWg => wg, next := wg + 1, LeaveMu;
        case LeaveMu =>
          mu := None;
          next := match proc.entry case ServeHTTP => ReadTarget
                                   case TrackRequest => InFlight
                                   case TrackerTrack(_) => ReportTrack;
      }
      procs := procs[p := proc.(rpc := next)];
    }

    /** The next statement of a request: being served and leaving. */
    method Release(p: Pid)
      requires Enabled(View(), Advance(p)) && procs[p].Request?
      requires !HoldsMu(procs[p]) && !procs[p].rpc.AwaitMu?
      modifies this`activeConnections, this`wg, this`waiters, this`reported, this`procs
      ensures View() == Step(old(View()), Advance(p))
    {
      var proc := procs[p];
      match proc.rpc {
        case ReadTarget => proc := proc.(rpc := InFlight, seen := Some(activeTarget));
        case ReportTrack => reported, proc := reported + 1, proc.(rpc := InFlight);
        case InFlight => proc := proc.(rpc := DropActive);
        case DropActive => activeConnections, proc := activeConnections - 1, proc.(rpc := DoneWg);
        case DoneWg =>
          wg := wg - 1;
          waiters := Wake(waiters, wg);
          proc := proc.(rpc := if proc.entry.TrackerTrack? then ReportRelease else Served);
        case ReportRelease => reported, proc := reported - 1, proc.(rpc := Served);
      }
      procs := procs[p := proc];
    }

    /** The next statement of Drain. */
    method Drain(p: Pid)
      requires Enabled(View(), Advance(p)) && procs[p].Control? && InDrain(procs[p].cpc)
      modifies this`drainMu, this`mu, this`draining, this`closed, this`nextChan, this`prevDone, this`waiters, this`procs
      ensures View() == Step(old(View()), Advance(p))
    {
      var proc := procs[p];
      match proc.cpc {
        case DrainAwaitDrainMu => drainMu, proc := Some(p), proc.(cpc := DrainSeePrev);
        case DrainSeePrev =>
          proc := proc.(cpc := if prevDone.Some? then DrainAwaitPrev(prevDone.value) else DrainAwaitMu);
        case DrainAwaitPrev(_) => proc := proc.(cpc := DrainAwaitMu);
        case DrainAwaitMu => mu, proc := Some(p), proc.(cpc := DrainCheck);
        case DrainCheck => proc := proc.(cpc := if draining then DrainAlready else DrainMark);
        case DrainAlready => mu, proc := None, proc.(cpc := DrainReturn, drained := true);
        case DrainMark => draining, proc := true, proc.(cpc := DrainClose);
        case DrainClose => closed, proc := closed + {drainCh}, proc.(cpc := DrainLeaveMu);
        case DrainLeaveMu => mu, proc := None, proc.(cpc := DrainMakeDone);
        case DrainMakeDone =>
          var done := nextChan;
          nextChan := nextChan + 1;
          prevDone, proc := Some(done), proc.(cpc := DrainSpawn(done));
        case DrainSpawn(done) =>
          waiters, proc := waiters[done := Entering], proc.(cpc := DrainAwaitDone(done));
        case DrainAwaitDone(_) => proc := proc.(cpc := DrainReturn, drained := true);
        case DrainReturn =>
          drainMu, proc := None, proc.(cpc := if proc.call.SwitchCall? then SwitchStore else Returned);
      }
      procs := procs[p := proc];
    }

    /** The ctx.Done branch of a select in Drain. */
    method CancelDrain(p: Pid)
      requires Enabled(View(), Cancel(p))
      modifies this`procs
      ensures View() == Step(old(View()), Cancel(p))
    {
      procs := procs[p := procs[p].(cpc := DrainReturn, drained := false)];
    }

    /** The next statement of Reset. */
    method Reset(p: Pid)
      requires Enabled(View(), Advance(p)) && procs[p].Control? && InReset(procs[p].cpc)
      modifies this`drainMu, this`prevDone, this`mu, this`draining, this`drainCh, this`nextChan, this`procs
      ensures View() == Step(old(View()), Advance(p))
    {
      var proc := procs[p];
      match proc.cpc {
        case ResetAwaitDrainMu => drainMu, proc := Some(p), proc.(cpc := ResetSeePrev);
        case ResetSeePrev =>
          var prevDrainDone := LookAtPrev();
          proc := proc.(cpc := ResetAwaitMu, prevDrainDone := prevDrainDone);
        case ResetAwaitMu => mu, proc := Some(p), proc.(cpc := ResetReopen);
        case ResetReopen =>
          if proc.prevDrainDone {
            draining := false;
          }
          proc := proc.(cpc := ResetMakeCh);
        case ResetMakeCh =>
          drainCh, nextChan := nextChan, nextChan + 1;
          proc := proc.(cpc := ResetLeaveMu);
        case ResetLeaveMu => mu, proc := None, proc.(cpc := ResetReturn);
        case ResetReturn => drainMu, proc := None, proc.(cpc := Returned);
      }
      procs := procs[p := proc];
    }

    /** Reset's non-blocking look at prevDone. */
    method LookAtPrev() returns (prevDrainDone: bool)
      modifies this`prevDone
      ensures prevDrainDone == (old(prevDone).None? || old(prevDone).value in closed)
      ensures prevDone == if prevDrainDone then None else old(prevDone)
    {
      prevDrainDone := true;
      if prevDone.Some? {
        if prevDone.value in closed {
          prevDone := None;
        } else {
          prevDrainDone := false;
        }
      }
    }

    /** The two statements of Proxy.Switch around Drain and Reset. */
    method Switch(p: Pid)
      requires Enabled(View(), Advance(p)) && procs[p].Control? && procs[p].call.SwitchCall?
      requires !InDrain(procs[p].cpc) && !InReset(procs[p].cpc)
      modifies this`activeTarget, this`procs
      ensures View() == Step(old(View()), Advance(p))
    {
      var proc := procs[p];
      if proc.cpc.SwitchRead? {
        proc := proc.(cpc := if activeTarget == proc.call.to then Returned else DrainAwaitDrainMu);
      } else {
        activeTarget, proc := proc.call.to, proc.(cpc := ResetAwaitDrainMu);
      }
      procs := procs[p := proc];
    }

    /** The waiter goroutine of channel c. */
    method Wait(c: Chan)
      requires Enabled(View(), DrainProtocol.Wait(c))
      modifies this`waiters, this`closed
      ensures View() == Step(old(View()), DrainProtocol.Wait(c))
    {
      match waiters[c] {
        case Entering => waiters := waiters[c := if wg == 0 then WaitReturned else Parked];
        case Woken => waiters := waiters[c := WaitReturned];
        case WaitReturned => closed, waiters := closed + {c}, waiters - {c};
      }
    }

    /** Whatever happens next, the object takes the protocol's step and its history is
        still a run. */
    method Perform(a: Action)
      requires Valid() && Enabled(View(), a)
      modifies this
      ensures Valid() && View() == Step(old(View()), a)
      ensures acts == old(acts) + [a] && ss == old(ss) + [View()]
    {
      ValidKeepsInv();
      RunGrows(ss, acts, a);
      match a {
        case Arrive(p, entry) => Arrive(p, entry);
        case Invoke(p, call) => Invoke(p, call);
        case Cancel(p) => CancelDrain(p);
        case Wait(c) => Wait(c);
        case Advance(p) =>
          var proc := procs[p];
          if proc.Request? {
            if HoldsMu(proc) || proc.rpc.AwaitMu? {
              Track(p);
            } else {
              Release(p);
            }
          } else if InDrain(proc.cpc) {
            Drain(p);
          } else if InReset(proc.cpc) {
            Reset(p);
          } else {
            assert ProcessOk(View().gate, p, proc);
            Switch(p);
          }
      }
      acts, ss := acts + [a], ss + [View()];
    }
  }
}

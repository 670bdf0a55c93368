/** What the calls and requests of a run have been through: no call returns without having
    done its work, and the gate decides who gets in. */
module DrainCalls {
  import opened Common
  import opened DrainProtocol
  import opened DrainInvariant
  import opened DrainRuns

  // ---- no call returns without having done its work ----

  predicate Does(s: State, a: Action, p: Pid, cpc: ControlPc) {
    AtControl(s, a, cpc) && a.p == p
  }

  /** p has executed this statement before step i. */
  ghost predicate Did(ss: seq<State>, acts: seq<Action>, i: nat, p: Pid, cpc: ControlPc)
    requires i <= |acts| < |ss|
  {
    exists k :: 0 <= k < i && Does(ss[k], acts[k], p, cpc)
  }

  /** The Switch has read the target and found it to be its own. */
  predicate FindsTarget(s: State, a: Action, p: Pid) {
    Does(s, a, p, SwitchRead) && s.procs[p].call == SwitchCall(s.gate.activeTarget)
  }

  ghost predicate FoundTarget(ss: seq<State>, acts: seq<Action>, i: nat, p: Pid)
    requires i <= |acts| < |ss|
  {
    exists k :: 0 <= k < i && FindsTarget(ss[k], acts[k], p)
  }

  predicate At(s: State, p: Pid, cpc: ControlPc) {
    p in s.procs && s.procs[p].Control? && s.procs[p].cpc == cpc
  }

  /** The call is past the statement. */
  predicate Past(proc: Process, cpc: ControlPc)
    requires proc.Control?
  {
    proc.cpc.Returned?
    || match cpc
       case DrainReturn => proc.cpc.SwitchStore? || (proc.call.SwitchCall? && InReset(proc.cpc))
       case SwitchStore => InReset(proc.cpc)
       case ResetSeePrev =>
         InReset(proc.cpc) && !proc.cpc.ResetAwaitDrainMu? && !proc.cpc.ResetSeePrev?
       case _ => false
  }

  /** What a call passes through on its way to its return. */
  predicate OnTheWay(call: Call, cpc: ControlPc) {
    match call
    case DrainCall => cpc.DrainReturn?
    case ResetCall => cpc.ResetSeePrev? || cpc.ResetReturn?
    case SwitchCall(_) => cpc.DrainReturn? || cpc.SwitchStore? || cpc.ResetSeePrev? || cpc.ResetReturn?
  }

  lemma DrainPasses(g: Gate, p: Pid, proc: Process, cpc: ControlPc)
    requires proc.Control? && InDrain(proc.cpc) && CallOk(proc) && OnTheWay(proc.call, cpc)
    ensures var next := DrainStep(g, p, proc).proc;
            next.Control? && next.call == proc.call && (Past(next, cpc) ==> proc.cpc == cpc)
  {
  }

  lemma ResetPasses(g: Gate, p: Pid, proc: Process, cpc: ControlPc)
    requires proc.Control? && InReset(proc.cpc) && CallOk(proc) && OnTheWay(proc.call, cpc)
    ensures var next := ResetStep(g, p, proc).proc;
            next.Control? && next.call == proc.call && (Past(next, cpc) ==> Past(proc, cpc) || proc.cpc == cpc)
  {
  }

  lemma SwitchPasses(g: Gate, p: Pid, proc: Process, cpc: ControlPc)
    requires proc.Control? && !InReset(proc.cpc) && !InDrain(proc.cpc) && !proc.cpc.Returned?
    requires CallOk(proc) && OnTheWay(proc.call, cpc)
    ensures var next := SwitchStep(g, p, proc).proc;
            && next.Control? && next.call == proc.call
            && (Past(next, cpc) ==> Past(proc, cpc) || proc.cpc == cpc
                                    || (proc.cpc.SwitchRead? && proc.call == SwitchCall(g.activeTarget)))
  {
  }

  lemma StatementPasses(g: Gate, p: Pid, proc: Process, cpc: ControlPc)
    requires proc.Control? && ControlEnabled(g, proc) && CallOk(proc) && OnTheWay(proc.call, cpc)
    ensures var next := ProcessStep(g, p, proc).proc;
            && next.Control? && next.call == proc.call
            && (Past(next, cpc) ==> Past(proc, cpc) || proc.cpc == cpc
                                    || (proc.cpc.SwitchRead? && proc.call == SwitchCall(g.activeTarget)))
  {
    if InDrain(proc.cpc) {
      DrainPasses(g, p, proc, cpc);
    } else if InReset(proc.cpc) {
      ResetPasses(g, p, proc, cpc);
    } else {
      SwitchPasses(g, p, proc, cpc);
    }
  }

  /** p is past the statement on the way of its call. */
  predicate PastIn(s: State, p: Pid, cpc: ControlPc) {
    p in s.procs && s.procs[p].Control? && OnTheWay(s.procs[p].call, cpc) && Past(s.procs[p], cpc)
  }

  lemma OwnStepPasses(s: State, p: Pid, cpc: ControlPc)
    requires Inv(s) && Enabled(s, Advance(p)) && PastIn(Step(s, Advance(p)), p, cpc)
    ensures PastIn(s, p, cpc) || Does(s, Advance(p), p, cpc) || FindsTarget(s, Advance(p), p)
  {
    assert ProcessOk(s.gate, p, s.procs[p]);
    if s.procs[p].Control? {
      KeepsCall(s.gate, p, s.procs[p]);
      if OnTheWay(s.procs[p].call, cpc) {
        StatementPasses(s.gate, p, s.procs[p], cpc);
      }
    }
  }

  lemma KeepsCall(g: Gate, p: Pid, proc: Process)
    requires proc.Control?
    ensures ProcessStep(g, p, proc).proc.Control? && ProcessStep(g, p, proc).proc.call == proc.call
  {
  }

  lemma OtherStepsPassNothing(s: State, a: Action, p: Pid, cpc: ControlPc)
    requires Inv(s) && Enabled(s, a) && a != Advance(p) && PastIn(Step(s, a), p, cpc)
    ensures PastIn(s, p, cpc)
  {
  }

  lemma PassedInStep(ss: seq<State>, acts: seq<Action>, i: nat, p: Pid, cpc: ControlPc)
    requires IsRun(ss, acts) && i < |acts| && PastIn(ss[i + 1], p, cpc)
    ensures PastIn(ss[i], p, cpc) || Does(ss[i], acts[i], p, cpc) || FindsTarget(ss[i], acts[i], p)
  {
    RunKeepsInv(ss, acts, i);
    if acts[i] == Advance(p) {
      OwnStepPasses(ss[i], p, cpc);
    } else {
      OtherStepsPassNothing(ss[i], acts[i], p, cpc);
    }
  }

  lemma {:induction false} PassedBefore(ss: seq<State>, acts: seq<Action>, i: nat, p: Pid, cpc: ControlPc)
    requires IsRun(ss, acts) && i < |ss| && PastIn(ss[i], p, cpc)
    ensures Did(ss, acts, i, p, cpc) || FoundTarget(ss, acts, i, p)
  {
    assert i > 0;
    PassedInStep(ss, acts, i - 1, p, cpc);
    if PastIn(ss[i - 1], p, cpc) {
      PassedBefore(ss, acts, i - 1, p, cpc);
    }
  }

  /** A call that has returned has done its work: a Drain has come to its result, a Reset has
      looked at the last drain, and a Switch has drained, stored its target and reset, unless
      it found its target active. */
  lemma CallsDoTheirWork(ss: seq<State>, acts: seq<Action>, i: nat, p: Pid)
    requires IsRun(ss, acts) && i < |ss| && At(ss[i], p, Returned)
    ensures match ss[i].procs[p].call
            case DrainCall => Did(ss, acts, i, p, DrainReturn)
            case ResetCall => Did(ss, acts, i, p, ResetSeePrev) && Did(ss, acts, i, p, ResetReturn)
            case SwitchCall(_) =>
              || FoundTarget(ss, acts, i, p)
              || (&& Did(ss, acts, i, p, DrainReturn) && Did(ss, acts, i, p, SwitchStore)
                  && Did(ss, acts, i, p, ResetSeePrev) && Did(ss, acts, i, p, ResetReturn))
  {
    var call := ss[i].procs[p].call;
    match call {
      case DrainCall =>
        PassedBefore(ss, acts, i, p, DrainReturn);
      case ResetCall =>
        PassedBefore(ss, acts, i, p, ResetSeePrev);
        PassedBefore(ss, acts, i, p, ResetReturn);
      case SwitchCall(_) =>
        PassedBefore(ss, acts, i, p, DrainReturn);
        PassedBefore(ss, acts, i, p, SwitchStore);
        PassedBefore(ss, acts, i, p, ResetSeePrev);
        PassedBefore(ss, acts, i, p, ResetReturn);
    }
    OnlySwitchesFind(ss, acts, i, p);
  }

  predicate Makes(s: State, p: Pid, call: Call) {
    p in s.procs && s.procs[p].Control? && s.procs[p].call == call
  }

  /** A process keeps its call. */
  lemma {:induction false} CallStays(ss: seq<State>, acts: seq<Action>, k: nat, i: nat, p: Pid, call: Call)
    requires IsRun(ss, acts) && k <= i < |ss| && Makes(ss[k], p, call)
    ensures Makes(ss[i], p, call)
  {
    if k < i {
      CallStays(ss, acts, k, i - 1, p, call);
      CallStaysInStep(ss, acts, i - 1, p, call);
    }
  }

  lemma CallStaysInStep(ss: seq<State>, acts: seq<Action>, i: nat, p: Pid, call: Call)
    requires IsRun(ss, acts) && i < |acts| && Makes(ss[i], p, call)
    ensures Makes(ss[i + 1], p, call)
  {
    assert ss[i + 1] == Step(ss[i], acts[i]);
  }

  lemma OnlySwitchesFind(ss: seq<State>, acts: seq<Action>, i: nat, p: Pid)
    requires IsRun(ss, acts) && i < |ss| && p in ss[i].procs && ss[i].procs[p].Control?
    ensures FoundTarget(ss, acts, i, p) ==> ss[i].procs[p].call.SwitchCall?
  {
    if k :| 0 <= k < i && FindsTarget(ss[k], acts[k], p) {
      CallStays(ss, acts, k, i, p, ss[k].procs[p].call);
    }
  }

  // ---- which requests get in ----

  predicate Rejected(s: State, p: Pid) {
    p in s.procs && s.procs[p].Request? && (s.procs[p].rpc.Refuse? || s.procs[p].rpc.Refused?)
  }

  predicate Admitted(s: State, p: Pid) {
    && p in s.procs && s.procs[p].Request?
    && !s.procs[p].rpc.AwaitMu? && !s.procs[p].rpc.CheckDraining? && !Rejected(s, p)
  }

  predicate LooksAtGate(s: State, a: Action, p: Pid) {
    AtRequest(s, a, CheckDraining) && a.p == p
  }

  lemma DecidedInStep(ss: seq<State>, acts: seq<Action>, i: nat, p: Pid)
    requires IsRun(ss, acts) && i < |acts|
    ensures Rejected(ss[i + 1], p) ==>
              Rejected(ss[i], p) || (LooksAtGate(ss[i], acts[i], p) && ss[i].gate.draining)
    ensures Admitted(ss[i + 1], p) ==>
              Admitted(ss[i], p) || (LooksAtGate(ss[i], acts[i], p) && !ss[i].gate.draining)
  {
    assert ss[i + 1] == Step(ss[i], acts[i]);
  }

  /** A request is turned away only if the gate was shut when it looked, and gets in only if
      the gate was open then. */
  lemma {:induction false} GateDecides(ss: seq<State>, acts: seq<Action>, i: nat, p: Pid)
    requires IsRun(ss, acts) && i < |ss|
    ensures Rejected(ss[i], p) ==>
              exists k :: 0 <= k < i && LooksAtGate(ss[k], acts[k], p) && ss[k].gate.draining
    ensures Admitted(ss[i], p) ==>
              exists k :: 0 <= k < i && LooksAtGate(ss[k], acts[k], p) && !ss[k].gate.draining
  {
    if i > 0 {
      GateDecides(ss, acts, i - 1, p);
      DecidedInStep(ss, acts, i - 1, p);
    }
  }
}

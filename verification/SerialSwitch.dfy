/** Requests and the active target, in all runs and in runs in which no Switch overlaps
    another Switch or a Reset (requests, plain Drains and Resets interleave freely). */
module SerialSwitch {
  import opened Common
  import opened DrainProtocol
  import opened DrainInvariant
  import opened DrainRuns

  /** An unfinished call that will run Reset. */
  predicate WillReset(proc: Process) {
    proc.Control? && !proc.call.DrainCall? && !proc.cpc.Returned?
  }

  /** An unfinished Switch. */
  predicate Switches(proc: Process) {
    proc.Control? && proc.call.SwitchCall? && !proc.cpc.Returned?
  }

  ghost predicate NonOverlapping(s: State) {
    forall p, q :: p in s.procs && q in s.procs && Switches(s.procs[p]) && WillReset(s.procs[q]) ==> p == q
  }

  ghost predicate IsSerialRun(ss: seq<State>, acts: seq<Action>) {
    IsRun(ss, acts) && forall i :: 0 <= i < |ss| ==> NonOverlapping(ss[i])
  }

  // ---- the invariant of a lone Switch ----

  ghost predicate SwitchOk(g: Gate, proc: Process) {
    proc.Control? && proc.call.SwitchCall? ==>
      var to := proc.call.to;
      if proc.cpc.SwitchRead? || proc.cpc.Returned? then true
      else if InDrain(proc.cpc) then g.activeTarget != to
      else if proc.cpc.SwitchStore? then
        g.activeTarget != to && g.draining && (proc.drained ==> PrevFinished(g))
      else if proc.cpc.ResetAwaitDrainMu? || proc.cpc.ResetSeePrev? then
        g.activeTarget == to && g.draining && (proc.drained ==> PrevFinished(g))
      else if proc.cpc.ResetAwaitMu? || proc.cpc.ResetReopen? then
        g.activeTarget == to && g.draining && (proc.drained ==> proc.prevDrainDone)
      else g.activeTarget == to && (proc.drained ==> proc.prevDrainDone)
  }

  ghost predicate SerialInv(s: State) {
    forall p :: p in s.procs ==> SwitchOk(s.gate, s.procs[p])
  }

  lemma SwitchAdvances(g: Gate, p: Pid, proc: Process)
    requires GateOk(g) && ProcessOk(g, p, proc) && ProcessEnabled(g, proc) && SwitchOk(g, proc)
    ensures var move := ProcessStep(g, p, proc); SwitchOk(move.gate, move.proc)
  {
    if proc.Request? {
      assert RequestStep(g, p, proc).proc.Request?;
    } else if InDrain(proc.cpc) {
      DrainAdvances(g, p, proc);
    } else if InReset(proc.cpc) {
      ResetAdvances(g, p, proc);
    }
  }

  lemma DrainAdvances(g: Gate, p: Pid, proc: Process)
    requires GateOk(g) && ProcessOk(g, p, proc)
    requires proc.Control? && InDrain(proc.cpc) && ControlEnabled(g, proc) && SwitchOk(g, proc)
    ensures var move := DrainStep(g, p, proc); SwitchOk(move.gate, move.proc)
  {
  }

  lemma ResetAdvances(g: Gate, p: Pid, proc: Process)
    requires GateOk(g) && ProcessOk(g, p, proc)
    requires proc.Control? && InReset(proc.cpc) && ControlEnabled(g, proc) && SwitchOk(g, proc)
    ensures var move := ResetStep(g, p, proc); SwitchOk(move.gate, move.proc)
  {
  }

  lemma SwitchUndisturbed(g: Gate, p: Pid, proc: Process, q: Pid, other: Process)
    requires GateOk(g) && ProcessOk(g, p, proc) && ProcessEnabled(g, proc)
    requires p != q && !(WillReset(proc) && Switches(other))
    requires SwitchOk(g, other)
    ensures SwitchOk(ProcessStep(g, p, proc).gate, other)
  {
  }

  lemma AdvanceKeepsSerialInv(s: State, p: Pid)
    requires Inv(s) && Enabled(s, Advance(p)) && NonOverlapping(s) && SerialInv(s)
    ensures SerialInv(Step(s, Advance(p)))
  {
    assert ProcessOk(s.gate, p, s.procs[p]);
    SwitchAdvances(s.gate, p, s.procs[p]);
    var s' := Step(s, Advance(p));
    forall q | q in s'.procs && q != p
      ensures SwitchOk(s'.gate, s'.procs[q])
    {
      SwitchUndisturbed(s.gate, p, s.procs[p], q, s.procs[q]);
    }
  }

  lemma StepKeepsSerialInv(s: State, a: Action)
    requires Inv(s) && Enabled(s, a) && NonOverlapping(s) && SerialInv(s)
    ensures SerialInv(Step(s, a))
  {
    match a
    case Arrive(_, _) =>
    case Invoke(_, _) =>
    case Cancel(p) => assert ProcessOk(s.gate, p, s.procs[p]);
    case Wait(_) =>
    case Advance(p) => AdvanceKeepsSerialInv(s, p);
  }

  lemma {:induction false} SerialRunKeepsInv(ss: seq<State>, acts: seq<Action>, i: nat)
    requires IsSerialRun(ss, acts) && i < |ss|
    ensures SerialInv(ss[i])
  {
    if i > 0 {
      SerialRunKeepsInv(ss, acts, i - 1);
      RunKeepsInv(ss, acts, i - 1);
      StepKeepsSerialInv(ss[i - 1], acts[i - 1]);
    }
  }

  // ---- results ----

  /** The target is stored only while the gate is shut. */
  lemma StoreBehindShutGate(ss: seq<State>, acts: seq<Action>, i: nat)
    requires IsSerialRun(ss, acts) && i < |acts|
    requires AtControl(ss[i], acts[i], SwitchStore)
    ensures ss[i].gate.draining && ss[i + 1].gate.draining
  {
    RunKeepsInv(ss, acts, i);
    SerialRunKeepsInv(ss, acts, i);
    assert ProcessOk(ss[i].gate, acts[i].p, ss[i].procs[acts[i].p]);
    assert SwitchOk(ss[i].gate, ss[i].procs[acts[i].p]);
  }

  // ---- requests stay on the active target wherever every store is behind a shut gate ----

  /** A request that ServeHTTP is routing, or whose release has begun. */
  predicate Routed(proc: Process) {
    proc.Request? && proc.entry.ServeHTTP? && (proc.rpc.InFlight? || proc.rpc.DropActive? || proc.rpc.DoneWg?)
  }

  ghost predicate RequestFollows(g: Gate, proc: Process) {
    Routed(proc) && !g.draining ==> proc.seen == Some(g.activeTarget)
  }

  ghost predicate OneTarget(s: State) {
    forall p :: p in s.procs ==> RequestFollows(s.gate, s.procs[p])
  }

  /** A Switch that stores its target at an open gate finds no request on another one. */
  ghost predicate SparesRequests(s: State, a: Action) {
    AtControl(s, a, SwitchStore) && !s.gate.draining && s.procs[a.p].call.SwitchCall? ==>
      forall q :: q in s.procs && Routed(s.procs[q]) ==> s.procs[q].seen == Some(s.procs[a.p].call.to)
  }

  lemma RequestAdvances(g: Gate, p: Pid, proc: Process)
    requires ProcessOk(g, p, proc) && RequestFollows(g, proc)
    ensures var move := ProcessStep(g, p, proc); RequestFollows(move.gate, move.proc)
  {
  }

  predicate StoresAtOpenGate(g: Gate, proc: Process) {
    proc.Control? && proc.cpc.SwitchStore? && !g.draining
  }

  /** The gate opens only on an empty section, so only a store at an open gate can leave a
      request behind. */
  lemma RequestsUndisturbed(g: Gate, p: Pid, proc: Process, other: Process)
    requires GateOk(g) && ProcessOk(g, p, proc) && !StoresAtOpenGate(g, proc)
    requires RequestFollows(g, other) && WgWeight(other) <= g.wg
    ensures RequestFollows(ProcessStep(g, p, proc).gate, other)
  {
  }

  lemma OpenStoreMovesTarget(g: Gate, p: Pid, proc: Process, other: Process)
    requires ProcessOk(g, p, proc) && StoresAtOpenGate(g, proc) && Routed(other)
    ensures RequestFollows(ProcessStep(g, p, proc).gate, other) <==> other.seen == Some(proc.call.to)
  {
  }

  lemma OpenStoreSpares(s: State, p: Pid)
    requires Inv(s) && Enabled(s, Advance(p)) && StoresAtOpenGate(s.gate, s.procs[p])
    ensures OneTarget(Step(s, Advance(p))) <==> SparesRequests(s, Advance(p))
  {
    assert ProcessOk(s.gate, p, s.procs[p]);
    var s' := Step(s, Advance(p));
    assert forall q :: q in s.procs && Routed(s.procs[q]) ==> q != p && s'.procs[q] == s.procs[q];
    forall q | q in s.procs && Routed(s.procs[q])
      ensures RequestFollows(s'.gate, s.procs[q]) <==> s.procs[q].seen == Some(s.procs[p].call.to)
    {
      OpenStoreMovesTarget(s.gate, p, s.procs[p], s.procs[q]);
    }
  }

  lemma OtherStepsSpare(s: State, a: Action)
    requires Inv(s) && Enabled(s, a) && OneTarget(s)
    requires a.Advance? ==> !StoresAtOpenGate(s.gate, s.procs[a.p])
    ensures OneTarget(Step(s, a))
  {
    if a.Advance? {
      var p, s' := a.p, Step(s, a);
      assert ProcessOk(s.gate, p, s.procs[p]);
      RequestAdvances(s.gate, p, s.procs[p]);
      forall q | q in s'.procs && q != p
        ensures RequestFollows(s'.gate, s'.procs[q])
      {
        TrackedIsCounted(s, q);
        RequestsUndisturbed(s.gate, p, s.procs[p], s.procs[q]);
      }
    }
  }

  lemma StepSparesRequests(ss: seq<State>, acts: seq<Action>, k: nat)
    requires IsRun(ss, acts) && k < |acts| && OneTarget(ss[k])
    ensures OneTarget(ss[k + 1]) <==> SparesRequests(ss[k], acts[k])
  {
    RunKeepsInv(ss, acts, k);
    if acts[k].Advance? && StoresAtOpenGate(ss[k].gate, ss[k].procs[acts[k].p]) {
      OpenStoreSpares(ss[k], acts[k].p);
    } else {
      OtherStepsSpare(ss[k], acts[k]);
    }
  }

  /** In any run, overlapping or not: every request in flight behind ServeHTTP is on the
      active target whenever the gate is open, if and only if no Switch stores its target at
      an open gate with a request on another one. */
  lemma {:induction false} OneTargetIffSpared(ss: seq<State>, acts: seq<Action>, i: nat)
    requires IsRun(ss, acts) && i < |ss|
    ensures (forall j :: 0 <= j <= i ==> OneTarget(ss[j])) <==> (forall k :: 0 <= k < i ==> SparesRequests(ss[k], acts[k]))
  {
    if i > 0 {
      OneTargetIffSpared(ss, acts, i - 1);
      if forall j :: 0 <= j <= i - 1 ==> OneTarget(ss[j]) {
        StepSparesRequests(ss, acts, i - 1);
      }
    }
  }

  /** Up to step i no Switch stores its target while the gate is open. */
  ghost predicate StoresBehindShutGate(ss: seq<State>, acts: seq<Action>, i: nat)
    requires i <= |acts| < |ss|
  {
    forall k :: 0 <= k < i && AtControl(ss[k], acts[k], SwitchStore) ==> ss[k].gate.draining
  }

  /** What a caller can see to: store behind a shut gate only. */
  lemma ShutStoresMeanOneTarget(ss: seq<State>, acts: seq<Action>, i: nat)
    requires IsRun(ss, acts) && i < |ss| && StoresBehindShutGate(ss, acts, i)
    ensures OneTarget(ss[i])
  {
    forall k | 0 <= k < i
      ensures SparesRequests(ss[k], acts[k])
    {
    }
    OneTargetIffSpared(ss, acts, i);
  }

  /** Without overlap: whenever the gate is open, every request in flight behind ServeHTTP
      is on the active target. */
  lemma OpenGateMeansOneTarget(ss: seq<State>, acts: seq<Action>, i: nat)
    requires IsSerialRun(ss, acts) && i < |ss| && !ss[i].gate.draining
    ensures forall p :: p in ss[i].procs && Routed(ss[i].procs[p]) ==>
              ss[i].procs[p].seen == Some(ss[i].gate.activeTarget)
  {
    forall k | 0 <= k < i && AtControl(ss[k], acts[k], SwitchStore)
      ensures ss[k].gate.draining
    {
      StoreBehindShutGate(ss, acts, k);
    }
    ShutStoresMeanOneTarget(ss, acts, i);
    forall p | p in ss[i].procs && Routed(ss[i].procs[p])
      ensures ss[i].procs[p].seen == Some(ss[i].gate.activeTarget)
    {
      assert RequestFollows(ss[i].gate, ss[i].procs[p]);
    }
  }

  /** A Switch returns with its target active, whether it had to switch or not; if its
      Drain returned nil it also returns with the gate open. */
  lemma SwitchEndsOnTarget(ss: seq<State>, acts: seq<Action>, i: nat)
    requires IsSerialRun(ss, acts) && i < |acts| && acts[i].Advance?
    requires var proc := ss[i].procs[acts[i].p]; proc.Control? && proc.call.SwitchCall?
    requires ss[i + 1].procs[acts[i].p].cpc.Returned?
    ensures var proc := ss[i].procs[acts[i].p];
            && ss[i + 1].gate.activeTarget == proc.call.to
            && (proc.cpc.ResetReturn? && proc.drained ==> !ss[i + 1].gate.draining)
  {
    RunKeepsInv(ss, acts, i);
    SerialRunKeepsInv(ss, acts, i);
    assert ProcessOk(ss[i].gate, acts[i].p, ss[i].procs[acts[i].p]);
    assert SwitchOk(ss[i].gate, ss[i].procs[acts[i].p]);
  }

  // ---- a sequence of Switches, seen from outside ----

  /** The action returns a Switch call to its caller. */
  predicate ReturnsSwitch(s: State, a: Action) {
    && a.Advance? && Enabled(s, a) && s.procs[a.p].Control? && s.procs[a.p].call.SwitchCall?
    && Step(s, a).procs[a.p].cpc.Returned?
  }

  /** The targets of the Switch calls that have returned, in the order of their returns. */
  function Switched(ss: seq<State>, acts: seq<Action>, i: nat): seq<ServiceTarget>
    requires i < |ss| == |acts| + 1
  {
    if i == 0 then []
    else
      var before := Switched(ss, acts, i - 1);
      var s, a := ss[i - 1], acts[i - 1];
      if ReturnsSwitch(s, a) then before + [s.procs[a.p].call.to] else before
  }

  function LastOf(targets: seq<ServiceTarget>): ServiceTarget {
    if targets == [] then Blue else targets[|targets| - 1]
  }

  /** A Switch that has stored its target and has not returned. */
  predicate Storing(proc: Process) {
    proc.Control? && proc.call.SwitchCall? && InReset(proc.cpc)
  }

  ghost predicate NobodyStoring(s: State) {
    forall p :: p in s.procs ==> !Storing(s.procs[p])
  }

  lemma StatementStores(g: Gate, p: Pid, proc: Process)
    requires ProcessOk(g, p, proc) && ProcessEnabled(g, proc)
    ensures var move := ProcessStep(g, p, proc);
            !Storing(move.proc) && !(Storing(proc) && move.proc.cpc.Returned?) ==>
              !Storing(proc) && move.gate.activeTarget == g.activeTarget
  {
  }

  lemma OtherStepsKeepTarget(s: State, a: Action)
    requires Inv(s) && Enabled(s, a) && NobodyStoring(Step(s, a)) && !ReturnsSwitch(s, a)
    ensures NobodyStoring(s) && Step(s, a).gate.activeTarget == s.gate.activeTarget
  {
    var s' := Step(s, a);
    if a.Advance? {
      StatementStores(s.gate, a.p, s.procs[a.p]);
      assert !Storing(s'.procs[a.p]);
    }
    forall p | p in s.procs
      ensures !Storing(s.procs[p])
    {
      assert p in s'.procs && !Storing(s'.procs[p]);
    }
  }

  lemma TargetStays(ss: seq<State>, acts: seq<Action>, i: nat)
    requires IsRun(ss, acts) && i < |acts| && NobodyStoring(ss[i + 1]) && !ReturnsSwitch(ss[i], acts[i])
    ensures NobodyStoring(ss[i]) && ss[i + 1].gate.activeTarget == ss[i].gate.activeTarget
  {
    RunKeepsInv(ss, acts, i);
    OtherStepsKeepTarget(ss[i], acts[i]);
  }

  lemma SwitchReturnsLast(ss: seq<State>, acts: seq<Action>, i: nat)
    requires IsSerialRun(ss, acts) && i < |acts| && ReturnsSwitch(ss[i], acts[i])
    ensures ss[i + 1].gate.activeTarget == LastOf(Switched(ss, acts, i + 1))
  {
    SwitchEndsOnTarget(ss, acts, i);
  }

  /** Seen from outside, Switches that do not overlap are assignments: whenever none of them
      is between its store and its return, the active target is the one asked for by the
      last that returned; blue if none has. */
  lemma {:induction false} TargetIsLastSwitched(ss: seq<State>, acts: seq<Action>, i: nat)
    requires IsSerialRun(ss, acts) && i < |ss| && NobodyStoring(ss[i])
    ensures ss[i].gate.activeTarget == LastOf(Switched(ss, acts, i))
  {
    if i > 0 {
      if ReturnsSwitch(ss[i - 1], acts[i - 1]) {
        SwitchReturnsLast(ss, acts, i - 1);
      } else {
        TargetStays(ss, acts, i - 1);
        TargetIsLastSwitched(ss, acts, i - 1);
      }
    }
  }

  // ---- a Reset opens the gate exactly if the waiter had finished (any interleaving) ----

  /** p is past the look of Reset at prevDone, and saw `finished`. */
  predicate Looked(s: State, p: Pid, finished: bool) {
    && p in s.procs && s.procs[p].Control? && s.procs[p].prevDrainDone == finished
    && (var cpc := s.procs[p].cpc;
        cpc.ResetAwaitMu? || cpc.ResetReopen? || cpc.ResetMakeCh? || cpc.ResetLeaveMu?
        || cpc.ResetReturn? || cpc.Returned?)
  }

  lemma LookIsKept(ss: seq<State>, acts: seq<Action>, i: nat, p: Pid, finished: bool)
    requires IsRun(ss, acts) && i < |acts| && Looked(ss[i], p, finished)
    ensures Looked(ss[i + 1], p, finished)
  {
    assert ss[i + 1] == Step(ss[i], acts[i]);
  }

  lemma {:induction false} LookIsRemembered(ss: seq<State>, acts: seq<Action>, k: nat, i: nat, p: Pid, finished: bool)
    requires IsRun(ss, acts) && k <= i < |ss| && Looked(ss[k], p, finished)
    ensures Looked(ss[i], p, finished)
  {
    if k < i {
      LookIsRemembered(ss, acts, k, i - 1, p, finished);
      LookIsKept(ss, acts, i - 1, p, finished);
    }
  }

  lemma LookSeesWaiter(s: State, a: Action)
    requires Inv(s) && Enabled(s, a) && AtControl(s, a, ResetSeePrev)
    ensures Looked(Step(s, a), a.p, s.gate.waiters == map[])
  {
    assert ProcessOk(s.gate, a.p, s.procs[a.p]);
    assert s.gate.prevDone.None? ==> s.gate.waiters.Keys == {};
    if PrevFinished(s.gate) {
      assert s.gate.waiters.Keys == {};
    }
  }

  lemma ResetReturnsAsSeen(s: State, a: Action)
    requires Inv(s) && Enabled(s, a) && AtControl(s, a, ResetReturn)
    ensures !Step(s, a).gate.draining <==> s.procs[a.p].prevDrainDone
  {
    assert ProcessOk(s.gate, a.p, s.procs[a.p]);
  }

  lemma ResetOpensIffWaiterFinished(ss: seq<State>, acts: seq<Action>, k: nat, i: nat)
    requires IsRun(ss, acts) && k < i < |acts|
    requires acts[k] == acts[i]
    requires AtControl(ss[k], acts[k], ResetSeePrev) && AtControl(ss[i], acts[i], ResetReturn)
    ensures !ss[i + 1].gate.draining <==> ss[k].gate.waiters == map[]
  {
    RunKeepsInv(ss, acts, k);
    LookSeesWaiter(ss[k], acts[k]);
    LookIsRemembered(ss, acts, k + 1, i, acts[k].p, ss[k].gate.waiters == map[]);
    RunKeepsInv(ss, acts, i);
    ResetReturnsAsSeen(ss[i], acts[i]);
  }
}

/** The global invariant of the drain protocol and its preservation by every step
    of every process, with any number of overlapping calls. */
module DrainInvariant {
  import opened Common
  import opened Totals
  import opened DrainProtocol

  // ---- which processes a counter counts ----

  function ActiveWeight(proc: Process): nat {
    if proc.Request? &&
       (proc.rpc.AddWg? || proc.rpc.LeaveMu? || proc.rpc.ReadTarget? || proc.rpc.ReportTrack?
        || proc.rpc.InFlight? || proc.rpc.DropActive?) then 1 else 0
  }

  function WgWeight(proc: Process): nat {
    if proc.Request? &&
       (proc.rpc.LeaveMu? || proc.rpc.ReadTarget? || proc.rpc.ReportTrack? || proc.rpc.InFlight?
        || proc.rpc.DropActive? || proc.rpc.DoneWg?) then 1 else 0
  }

  function ReportedWeight(proc: Process): nat {
    if proc.Request? && proc.entry.TrackerTrack? &&
       (proc.rpc.InFlight? || proc.rpc.DropActive? || proc.rpc.DoneWg? || proc.rpc.ReportRelease?)
    then 1 else 0
  }

  // ---- lock ownership ----

  predicate HoldsMu(proc: Process) {
    match proc
    case Request(_, rpc, _) =>
      rpc.CheckDraining? || rpc.Refuse? || rpc.AddActive? || rpc.AddWg? || rpc.LeaveMu?
    case Control(_, cpc, _, _) =>
      || cpc.DrainCheck? || cpc.DrainAlready? || cpc.DrainMark? || cpc.DrainClose? || cpc.DrainLeaveMu?
      || cpc.ResetReopen? || cpc.ResetMakeCh? || cpc.ResetLeaveMu?
  }

  predicate HoldsDrainMu(proc: Process) {
    proc.Control? &&
    match proc.cpc
    case DrainAwaitDrainMu => false
    case ResetAwaitDrainMu => false
    case SwitchRead => false
    case SwitchStore => false
    case Returned => false
    case _ => true
  }

  // ---- what each statement may rely on ----

  ghost predicate PrevFinished(g: Gate) {
    g.prevDone.Some? && g.prevDone.value in g.closed
  }

  ghost predicate GateMatchesPrev(g: Gate) {
    g.draining <==> g.prevDone.Some?
  }

  /** What holds whenever drainMu is free. */
  ghost predicate Settled(g: Gate) {
    GateMatchesPrev(g) && (!g.draining ==> g.drainCh !in g.closed)
  }

  ghost predicate AboutToReopen(g: Gate, prevDrainDone: bool) {
    if prevDrainDone then g.prevDone.None? && (g.draining ==> g.wg == 0)
    else g.prevDone.Some?
  }

  ghost predicate ResetDone(g: Gate, prevDrainDone: bool) {
    GateMatchesPrev(g) && g.drainCh !in g.closed && g.draining == !prevDrainDone
  }

  ghost predicate ControlOk(g: Gate, proc: Process)
    requires proc.Control?
  {
    match proc.cpc
    case DrainSeePrev => Settled(g)
    case DrainAwaitPrev(c) => Settled(g) && g.prevDone == Some(c)
    case DrainAwaitMu => Settled(g) && (g.prevDone.Some? ==> PrevFinished(g))
    case DrainCheck => Settled(g) && (g.prevDone.Some? ==> PrevFinished(g))
    case DrainAlready => g.draining && PrevFinished(g)
    case DrainMark => Settled(g) && !g.draining
    case DrainClose => g.draining && g.prevDone.None? && g.drainCh !in g.closed
    case DrainLeaveMu => g.draining && g.prevDone.None? && g.drainCh in g.closed
    case DrainMakeDone => g.draining && g.prevDone.None? && g.drainCh in g.closed
    case DrainSpawn(c) =>
      g.draining && g.prevDone == Some(c) && g.drainCh in g.closed && c !in g.closed && c !in g.waiters
    case DrainAwaitDone(c) => g.draining && g.prevDone == Some(c) && g.drainCh in g.closed
    case DrainReturn => g.draining && g.prevDone.Some? && (proc.drained ==> PrevFinished(g))
    case ResetSeePrev => Settled(g)
    case ResetAwaitMu => AboutToReopen(g, proc.prevDrainDone)
    case ResetReopen => AboutToReopen(g, proc.prevDrainDone)
    case ResetMakeCh => GateMatchesPrev(g) && g.draining == !proc.prevDrainDone
    case ResetLeaveMu => ResetDone(g, proc.prevDrainDone)
    case ResetReturn => ResetDone(g, proc.prevDrainDone)
    case _ => true
  }

  /** Each call stays inside its own function. */
  ghost predicate CallOk(proc: Process)
    requires proc.Control?
  {
    match proc.call
    case DrainCall => InDrain(proc.cpc) || proc.cpc.Returned?
    case ResetCall => InReset(proc.cpc) || proc.cpc.Returned?
    case SwitchCall(_) => true
  }

  /** Between the check of `draining` and the end of the critical section of Track
      the gate is open; only ServeHTTP reads the target, once inside, and only a
      ConnectionTracker reports. */
  ghost predicate RequestOk(g: Gate, proc: Process)
    requires proc.Request?
  {
    && (proc.rpc.AddActive? || proc.rpc.AddWg? || proc.rpc.LeaveMu? ==> !g.draining)
    && (proc.rpc.ReadTarget? ==> proc.entry.ServeHTTP?)
    && (proc.seen.Some? ==> proc.rpc.InFlight? || proc.rpc.DropActive? || proc.rpc.DoneWg?
                            || proc.rpc.ReportRelease? || proc.rpc.Served?)
    && (proc.entry.ServeHTTP? && (proc.rpc.InFlight? || proc.rpc.DropActive? || proc.rpc.DoneWg?) ==>
          proc.seen.Some?)
    && (proc.rpc.ReportTrack? || proc.rpc.ReportRelease? ==> proc.entry.TrackerTrack?)
  }

  ghost predicate ProcessOk(g: Gate, p: Pid, proc: Process) {
    && (HoldsMu(proc) <==> g.mu == Some(p))
    && (HoldsDrainMu(proc) <==> g.drainMu == Some(p))
    && (if proc.Request? then RequestOk(g, proc) else CallOk(proc) && ControlOk(g, proc))
  }

  ghost predicate WaiterOk(g: Gate, c: Chan)
    requires c in g.waiters
  {
    && g.prevDone == Some(c)
    && c !in g.closed
    && (match g.waiters[c]
        case Entering => true
        case Parked => g.wg > 0
        case Woken => g.wg == 0
        case WaitReturned => g.wg == 0)
  }

  ghost predicate ChannelsOk(g: Gate) {
    && g.drainCh < g.nextChan
    && (forall c :: c in g.closed ==> c < g.nextChan)
    && (g.prevDone.Some? ==> g.prevDone.value < g.nextChan && g.prevDone.value != g.drainCh)
  }

  ghost predicate GateOk(g: Gate) {
    && ChannelsOk(g)
    && (g.drainMu.None? ==> Settled(g))
    && (g.prevDone.Some? ==> g.draining)
    && (PrevFinished(g) ==> g.wg == 0)
    && (forall c :: c in g.waiters ==> WaiterOk(g, c))
  }

  /** A held lock has a holder, and an unfinished drain has its waiter unless the
      holder of drainMu is just about to start it. */
  ghost predicate OwnersOk(s: State) {
    && (s.gate.mu.Some? ==> s.gate.mu.value in s.procs)
    && (s.gate.drainMu.Some? ==> s.gate.drainMu.value in s.procs)
    && (LacksWaiter(s.gate) ==>
          s.gate.drainMu.Some? && AboutToSpawn(s.gate, s.procs[s.gate.drainMu.value]))
  }

  ghost predicate LacksWaiter(g: Gate) {
    g.prevDone.Some? && !PrevFinished(g) && g.prevDone.value !in g.waiters
  }

  ghost predicate AboutToSpawn(g: Gate, proc: Process) {
    proc.Control? && g.prevDone.Some? && proc.cpc == DrainSpawn(g.prevDone.value)
  }

  ghost predicate CountersOk(s: State) {
    && s.gate.activeConnections == Total(s.procs, ActiveWeight)
    && s.gate.wg == Total(s.procs, WgWeight)
    && s.gate.reported == Total(s.procs, ReportedWeight)
  }

  ghost predicate Inv(s: State) {
    && CountersOk(s)
    && GateOk(s.gate)
    && OwnersOk(s)
    && (forall p :: p in s.procs ==> ProcessOk(s.gate, p, s.procs[p]))
  }

  // ---- counters ----

  /** Moving one process moves each total by the difference of its weights. */
  lemma TotalsMove(procs: map<Pid, Process>, p: Pid, proc: Process)
    ensures var was := if p in procs then procs[p] else Control(DrainCall, Returned, false, false);
            var after := procs[p := proc];
            && Total(after, ActiveWeight) == Total(procs, ActiveWeight) + ActiveWeight(proc) - ActiveWeight(was)
            && Total(after, WgWeight) == Total(procs, WgWeight) + WgWeight(proc) - WgWeight(was)
            && Total(after, ReportedWeight) == Total(procs, ReportedWeight) + ReportedWeight(proc) - ReportedWeight(was)
  {
    TotalUpdate(procs, p, proc, ActiveWeight);
    TotalUpdate(procs, p, proc, WgWeight);
    TotalUpdate(procs, p, proc, ReportedWeight);
  }

  lemma RequestMatchesWeights(g: Gate, p: Pid, proc: Process)
    requires proc.Request? && RequestOk(g, proc)
    ensures var move := RequestStep(g, p, proc);
            && move.gate.activeConnections - g.activeConnections == ActiveWeight(move.proc) - ActiveWeight(proc)
            && move.gate.wg - g.wg == WgWeight(move.proc) - WgWeight(proc)
            && move.gate.reported - g.reported == ReportedWeight(move.proc) - ReportedWeight(proc)
  {
  }

  /** A statement changes a counter exactly as it changes the weight of its process. */
  lemma StatementMatchesWeights(g: Gate, p: Pid, proc: Process)
    requires proc.Request? ==> RequestOk(g, proc)
    ensures var move := ProcessStep(g, p, proc);
            && move.gate.activeConnections - g.activeConnections == ActiveWeight(move.proc) - ActiveWeight(proc)
            && move.gate.wg - g.wg == WgWeight(move.proc) - WgWeight(proc)
            && move.gate.reported - g.reported == ReportedWeight(move.proc) - ReportedWeight(proc)
  {
    if proc.Request? {
      RequestMatchesWeights(g, p, proc);
    }
  }

  lemma StepKeepsCounters(s: State, a: Action)
    requires Inv(s) && Enabled(s, a)
    ensures CountersOk(Step(s, a))
  {
    match a
    case Arrive(p, entry) => TotalsMove(s.procs, p, Request(entry, AwaitMu, None));
    case Invoke(p, call) => TotalsMove(s.procs, p, Control(call, FirstPc(call), false, false));
    case Cancel(p) => TotalsMove(s.procs, p, CancelStep(s.procs[p]));
    case Wait(c) =>
    case Advance(p) =>
      StatementMatchesWeights(s.gate, p, s.procs[p]);
      TotalsMove(s.procs, p, ProcessStep(s.gate, p, s.procs[p]).proc);
  }

  /** A process that has not yet called wg.Done is counted. */
  lemma TrackedIsCounted(s: State, p: Pid)
    requires CountersOk(s) && p in s.procs
    ensures WgWeight(s.procs[p]) <= s.gate.wg
  {
    TotalZero(s.procs, WgWeight);
  }

  // ---- one statement of one process ----

  lemma RequestKeepsGate(g: Gate, p: Pid, proc: Process)
    requires proc.Request? && RequestEnabled(g, proc)
    requires GateOk(g) && ProcessOk(g, p, proc) && WgWeight(proc) <= g.wg
    ensures var move := RequestStep(g, p, proc);
            GateOk(move.gate) && ProcessOk(move.gate, p, move.proc)
  {
    var g' := RequestStep(g, p, proc).gate;
    forall c | c in g'.waiters
      ensures WaiterOk(g', c)
    {
      assert WaiterOk(g, c);
    }
  }

  lemma DrainKeepsGate(g: Gate, p: Pid, proc: Process)
    requires proc.Control? && InDrain(proc.cpc) && ControlEnabled(g, proc)
    requires GateOk(g) && ProcessOk(g, p, proc)
    ensures var move := DrainStep(g, p, proc);
            GateOk(move.gate) && ProcessOk(move.gate, p, move.proc)
  {
    var g' := DrainStep(g, p, proc).gate;
    forall c | c in g'.waiters
      ensures WaiterOk(g', c)
    {
      assert c in g.waiters ==> WaiterOk(g, c);
    }
  }

  lemma ResetKeepsGate(g: Gate, p: Pid, proc: Process)
    requires proc.Control? && InReset(proc.cpc) && ControlEnabled(g, proc)
    requires GateOk(g) && ProcessOk(g, p, proc)
    ensures var move := ResetStep(g, p, proc);
            GateOk(move.gate) && ProcessOk(move.gate, p, move.proc)
  {
    var g' := ResetStep(g, p, proc).gate;
    forall c | c in g'.waiters
      ensures WaiterOk(g', c)
    {
      assert WaiterOk(g, c);
    }
  }

  /** The moving process reaches a statement whose assertion holds. */
  lemma StatementKeepsGate(g: Gate, p: Pid, proc: Process)
    requires GateOk(g) && ProcessOk(g, p, proc) && ProcessEnabled(g, proc)
    requires WgWeight(proc) <= g.wg
    ensures var move := ProcessStep(g, p, proc);
            GateOk(move.gate) && ProcessOk(move.gate, p, move.proc)
  {
    if proc.Request? {
      RequestKeepsGate(g, p, proc);
    } else if InDrain(proc.cpc) {
      DrainKeepsGate(g, p, proc);
    } else if InReset(proc.cpc) {
      ResetKeepsGate(g, p, proc);
    } else {
      // reading or storing the target touches nothing the assertions speak of
    }
  }

  lemma RequestSparesOthers(g: Gate, p: Pid, proc: Process, q: Pid, other: Process)
    requires proc.Request? && RequestEnabled(g, proc)
    requires GateOk(g) && ProcessOk(g, p, proc) && WgWeight(proc) <= g.wg
    requires p != q && ProcessOk(g, q, other)
    ensures ProcessOk(RequestStep(g, p, proc).gate, q, other)
  {
  }

  lemma DrainSparesOthers(g: Gate, p: Pid, proc: Process, q: Pid, other: Process)
    requires proc.Control? && InDrain(proc.cpc) && ControlEnabled(g, proc)
    requires GateOk(g) && ProcessOk(g, p, proc)
    requires p != q && ProcessOk(g, q, other)
    ensures ProcessOk(DrainStep(g, p, proc).gate, q, other)
  {
  }

  lemma ResetSparesOthers(g: Gate, p: Pid, proc: Process, q: Pid, other: Process)
    requires proc.Control? && InReset(proc.cpc) && ControlEnabled(g, proc)
    requires GateOk(g) && ProcessOk(g, p, proc)
    requires p != q && ProcessOk(g, q, other)
    ensures ProcessOk(ResetStep(g, p, proc).gate, q, other)
  {
  }

  /** Every other process keeps its assertion. */
  lemma StatementSparesOthers(g: Gate, p: Pid, proc: Process, q: Pid, other: Process)
    requires GateOk(g) && ProcessOk(g, p, proc) && ProcessEnabled(g, proc)
    requires WgWeight(proc) <= g.wg
    requires p != q && ProcessOk(g, q, other)
    ensures ProcessOk(ProcessStep(g, p, proc).gate, q, other)
  {
    if proc.Request? {
      RequestSparesOthers(g, p, proc, q, other);
    } else if InDrain(proc.cpc) {
      DrainSparesOthers(g, p, proc, q, other);
    } else if InReset(proc.cpc) {
      ResetSparesOthers(g, p, proc, q, other);
    } else {
      // reading or storing the target touches nothing the assertions speak of
    }
  }

  /** Locks change hands only through the moving process. */
  lemma StatementMovesLocks(g: Gate, p: Pid, proc: Process)
    ensures var g' := ProcessStep(g, p, proc).gate;
            && (g'.mu == g.mu || g'.mu == Some(p) || g'.mu.None?)
            && (g'.drainMu == g.drainMu || g'.drainMu == Some(p) || g'.drainMu.None?)
  {
  }

  /** Only the holder of drainMu makes a done channel that has no waiter yet. */
  lemma StatementKeepsWaiter(g: Gate, p: Pid, proc: Process)
    requires ProcessOk(g, p, proc) && ProcessEnabled(g, proc)
    ensures var move := ProcessStep(g, p, proc);
            LacksWaiter(move.gate) ==>
              || (AboutToSpawn(move.gate, move.proc) && move.gate.drainMu == Some(p))
              || (LacksWaiter(g) && move.gate.prevDone == g.prevDone
                  && (HoldsDrainMu(proc) || g.drainMu.None? || move.gate.drainMu == g.drainMu)
                  && !AboutToSpawn(g, proc))
  {
    if proc.Request? {
      assert ProcessStep(g, p, proc).gate.waiters.Keys == g.waiters.Keys;
    } else if !InDrain(proc.cpc) {
      assert ProcessStep(g, p, proc).gate.waiters == g.waiters;
    }
  }

  lemma WaiterKeepsGate(g: Gate, c: Chan)
    requires GateOk(g) && g.wg >= 0 && c in g.waiters && !g.waiters[c].Parked?
    ensures GateOk(WaiterStep(g, c))
    ensures forall p, proc :: ProcessOk(g, p, proc) ==> ProcessOk(WaiterStep(g, c), p, proc)
  {
    assert WaiterOk(g, c);
    var g' := WaiterStep(g, c);
    forall d | d in g'.waiters
      ensures WaiterOk(g', d)
    {
      assert WaiterOk(g, d);
    }
  }

  // ---- every action keeps the invariant ----

  lemma AdvanceKeepsOwners(s: State, p: Pid)
    requires Inv(s) && Enabled(s, Advance(p))
    ensures OwnersOk(Step(s, Advance(p)))
  {
    assert ProcessOk(s.gate, p, s.procs[p]);
    StatementMovesLocks(s.gate, p, s.procs[p]);
    StatementKeepsWaiter(s.gate, p, s.procs[p]);
  }

  lemma AdvanceKeepsInv(s: State, p: Pid)
    requires Inv(s) && Enabled(s, Advance(p))
    ensures Inv(Step(s, Advance(p)))
  {
    var s' := Step(s, Advance(p));
    assert ProcessOk(s.gate, p, s.procs[p]);
    StepKeepsCounters(s, Advance(p));
    AdvanceKeepsOwners(s, p);
    TrackedIsCounted(s, p);
    StatementKeepsGate(s.gate, p, s.procs[p]);
    forall q | q in s'.procs
      ensures ProcessOk(s'.gate, q, s'.procs[q])
    {
      if q != p {
        StatementSparesOthers(s.gate, p, s.procs[p], q, s.procs[q]);
      }
    }
  }

  lemma ArrivalKeepsInv(s: State, a: Action)
    requires Inv(s) && Enabled(s, a) && (a.Arrive? || a.Invoke?)
    ensures Inv(Step(s, a))
  {
    StepKeepsCounters(s, a);
    assert Step(s, a).procs.Keys == s.procs.Keys + {a.p};
  }

  lemma CancelKeepsProcess(g: Gate, p: Pid, proc: Process)
    requires GateOk(g) && ProcessOk(g, p, proc) && CanCancel(proc)
    ensures ProcessOk(g, p, CancelStep(proc))
  {
  }

  lemma CancelKeepsInv(s: State, p: Pid)
    requires Inv(s) && Enabled(s, Cancel(p))
    ensures Inv(Step(s, Cancel(p)))
  {
    StepKeepsCounters(s, Cancel(p));
    CancelKeepsProcess(s.gate, p, s.procs[p]);
  }

  lemma WaitKeepsInv(s: State, c: Chan)
    requires Inv(s) && Enabled(s, Wait(c))
    ensures Inv(Step(s, Wait(c)))
  {
    StepKeepsCounters(s, Wait(c));
    assert WaiterOk(s.gate, c);
    WaiterKeepsGate(s.gate, c);
  }

  lemma StepKeepsInv(s: State, a: Action)
    requires Inv(s) && Enabled(s, a)
    ensures Inv(Step(s, a))
  {
    match a
    case Advance(p) => AdvanceKeepsInv(s, p);
    case Arrive(_, _) => ArrivalKeepsInv(s, a);
    case Invoke(_, _) => ArrivalKeepsInv(s, a);
    case Cancel(p) => CancelKeepsInv(s, p);
    case Wait(c) => WaitKeepsInv(s, c);
  }

  lemma {:induction false} RunKeepsInv(ss: seq<State>, acts: seq<Action>, i: nat)
    requires IsRun(ss, acts) && i < |ss|
    ensures Inv(ss[i])
  {
    if i > 0 {
      RunKeepsInv(ss, acts, i - 1);
      StepKeepsInv(ss[i - 1], acts[i - 1]);
    }
  }
}

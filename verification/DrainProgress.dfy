/** Freedom from deadlock and termination of the drain protocol. */
module DrainProgress {
  import opened Totals
  import opened DrainProtocol
  import opened DrainInvariant

  predicate Finished(proc: Process) {
    match proc
    case Request(_, rpc, _) => rpc.Served? || rpc.Refused?
    case Control(_, cpc, _, _) => cpc.Returned?
  }

  /** A holder of mu is never blocked. */
  lemma MuHolderRuns(s: State, p: Pid)
    requires Inv(s) && p in s.procs && HoldsMu(s.procs[p])
    ensures Enabled(s, Advance(p))
  {
  }

  /** A live waiter can move, or a request it waits for can. */
  lemma WaiterOrTrackRuns(s: State, c: Chan) returns (a: Action)
    requires Inv(s) && c in s.gate.waiters
    ensures Enabled(s, a) && (a.Advance? || a.Wait?)
  {
    a := Wait(c);
    assert WaiterOk(s.gate, c);
    if s.gate.waiters[c].Parked? {
      TotalZero(s.procs, WgWeight);
      var p :| p in s.procs && WgWeight(s.procs[p]) != 0;
      a := Advance(p);
    }
  }

  /** No deadlock: as long as a call is unfinished or a waiter is live, some process or
      waiter can move, without help from a timeout or a cancellation. */
  lemma SomebodyRuns(s: State) returns (a: Action)
    requires Inv(s)
    requires s.gate.waiters != map[] || exists p :: p in s.procs && !Finished(s.procs[p])
    ensures Enabled(s, a) && (a.Advance? || a.Wait?)
  {
    if s.gate.mu.Some? {
      var p := s.gate.mu.value;
      assert ProcessOk(s.gate, p, s.procs[p]);
      MuHolderRuns(s, p);
      a := Advance(p);
    } else if s.gate.waiters != map[] {
      var c :| c in s.gate.waiters;
      a := WaiterOrTrackRuns(s, c);
    } else if s.gate.drainMu.Some? {
      var p := s.gate.drainMu.value;
      assert ProcessOk(s.gate, p, s.procs[p]);
      a := Advance(p);
    } else {
      var p :| p in s.procs && !Finished(s.procs[p]);
      assert ProcessOk(s.gate, p, s.procs[p]);
      a := Advance(p);
    }
  }

  // ---- termination ----

  function ProcessRank(proc: Process): nat {
    match proc
    case Request(_, rpc, _) =>
      (match rpc
       case AwaitMu => 12
       case CheckDraining => 11
       case Refuse => 10
       case AddActive => 10
       case AddWg => 9
       case LeaveMu => 8
       case ReadTarget => 7
       case ReportTrack => 7
       case InFlight => 6
       case DropActive => 5
       case DoneWg => 4
       case ReportRelease => 3
       case Served => 0
       case Refused => 0)
    case Control(_, cpc, _, _) =>
      (match cpc
       case SwitchRead => 30
       case DrainAwaitDrainMu => 29
       case DrainSeePrev => 28
       case DrainAwaitPrev(_) => 27
       case DrainAwaitMu => 26
       case DrainCheck => 25
       case DrainAlready => 24
       case DrainMark => 24
       case DrainClose => 23
       case DrainLeaveMu => 22
       case DrainMakeDone => 21
       case DrainSpawn(_) => 20
       case DrainAwaitDone(_) => 15
       case DrainReturn => 14
       case SwitchStore => 13
       case ResetAwaitDrainMu => 12
       case ResetSeePrev => 11
       case ResetAwaitMu => 10
       case ResetReopen => 9
       case ResetMakeCh => 8
       case ResetLeaveMu => 7
       case ResetReturn => 6
       case Returned => 0)
  }

  function WaiterRank(phase: WaitPhase): nat {
    match phase
    case Entering => 4
    case Parked => 3
    case Woken => 2
    case WaitReturned => 1
  }

  /** The work left: what the processes still have to do and what the waiters still
      have to do. */
  ghost function Work(s: State): nat {
    Total(s.procs, ProcessRank) + Total(s.gate.waiters, WaiterRank)
  }

  lemma RequestRankDrops(g: Gate, p: Pid, proc: Process)
    requires proc.Request? && RequestEnabled(g, proc)
    ensures ProcessRank(RequestStep(g, p, proc).proc) < ProcessRank(proc)
  {
  }

  lemma DrainRankDrops(g: Gate, p: Pid, proc: Process)
    requires proc.Control? && InDrain(proc.cpc)
    ensures ProcessRank(DrainStep(g, p, proc).proc) < ProcessRank(proc)
    ensures proc.cpc.DrainSpawn? ==> ProcessRank(DrainStep(g, p, proc).proc) + 5 == ProcessRank(proc)
  {
  }

  lemma ResetRankDrops(g: Gate, p: Pid, proc: Process)
    requires proc.Control? && InReset(proc.cpc)
    ensures ProcessRank(ResetStep(g, p, proc).proc) < ProcessRank(proc)
  {
  }

  lemma SwitchRankDrops(g: Gate, p: Pid, proc: Process)
    requires proc.Control? && proc.call.SwitchCall? && (proc.cpc.SwitchRead? || proc.cpc.SwitchStore?)
    ensures ProcessRank(SwitchStep(g, p, proc).proc) < ProcessRank(proc)
  {
  }

  lemma RankDrops(g: Gate, p: Pid, proc: Process)
    requires ProcessOk(g, p, proc) && ProcessEnabled(g, proc)
    ensures ProcessRank(ProcessStep(g, p, proc).proc) < ProcessRank(proc)
    ensures proc.Control? && proc.cpc.DrainSpawn? ==>
              ProcessRank(ProcessStep(g, p, proc).proc) + 5 == ProcessRank(proc)
  {
    if proc.Request? {
      RequestRankDrops(g, p, proc);
    } else if InDrain(proc.cpc) {
      DrainRankDrops(g, p, proc);
    } else if InReset(proc.cpc) {
      ResetRankDrops(g, p, proc);
    } else {
      SwitchRankDrops(g, p, proc);
    }
  }

  lemma WaitersTouched(g: Gate, p: Pid, proc: Process)
    requires ProcessOk(g, p, proc)
    ensures var waiters := ProcessStep(g, p, proc).gate.waiters;
            || waiters == g.waiters
            || waiters == Wake(g.waiters, g.wg - 1)
            || (proc.Control? && proc.cpc.DrainSpawn? && proc.cpc.done !in g.waiters
                && waiters == g.waiters[proc.cpc.done := Entering])
  {
  }

  /** A statement lowers its process's rank by more than it can add to the waiters. */
  lemma AdvanceWorks(s: State, p: Pid)
    requires Inv(s) && Enabled(s, Advance(p))
    ensures Work(Step(s, Advance(p))) < Work(s)
  {
    assert ProcessOk(s.gate, p, s.procs[p]);
    RankDrops(s.gate, p, s.procs[p]);
    WaitersTouched(s.gate, p, s.procs[p]);
    var move := ProcessStep(s.gate, p, s.procs[p]);
    TotalUpdate(s.procs, p, move.proc, ProcessRank);
    if move.gate.waiters == Wake(s.gate.waiters, s.gate.wg - 1) {
      TotalMonotone(move.gate.waiters, s.gate.waiters, WaiterRank);
    } else if move.gate.waiters != s.gate.waiters {
      TotalUpdate(s.gate.waiters, s.procs[p].cpc.done, Entering, WaiterRank);
    }
  }

  lemma WaitWorks(g: Gate, c: Chan)
    requires c in g.waiters && !g.waiters[c].Parked?
    ensures Total(WaiterStep(g, c).waiters, WaiterRank) < Total(g.waiters, WaiterRank)
  {
    if g.waiters[c].WaitReturned? {
      TotalRemove(g.waiters, c, WaiterRank);
    } else {
      TotalUpdate(g.waiters, c, WaiterStep(g, c).waiters[c], WaiterRank);
    }
  }

  lemma CancelWorks(procs: map<Pid, Process>, p: Pid)
    requires p in procs && CanCancel(procs[p])
    ensures Total(procs[p := CancelStep(procs[p])], ProcessRank) < Total(procs, ProcessRank)
  {
    TotalUpdate(procs, p, CancelStep(procs[p]), ProcessRank);
  }

  /** Every action except a new arrival or call uses up work. */
  lemma StepWorks(s: State, a: Action)
    requires Inv(s) && Enabled(s, a) && !a.Arrive? && !a.Invoke?
    ensures Work(Step(s, a)) < Work(s)
  {
    match a
    case Advance(p) => AdvanceWorks(s, p);
    case Cancel(p) => CancelWorks(s.procs, p);
    case Wait(c) => WaitWorks(s.gate, c);
  }

  /** A run to which no further calls are added is at most Work steps long. */
  lemma {:induction false} RunsEnd(ss: seq<State>, acts: seq<Action>, i: nat, j: nat)
    requires IsRun(ss, acts) && i <= j < |ss|
    requires forall k :: i <= k < j ==> !acts[k].Arrive? && !acts[k].Invoke?
    ensures j - i + Work(ss[j]) <= Work(ss[i])
  {
    if i < j {
      RunsEnd(ss, acts, i, j - 1);
      RunKeepsInv(ss, acts, j - 1);
      StepWorks(ss[j - 1], acts[j - 1]);
    }
  }

  lemma IdleLocksAreFree(s: State)
    requires Inv(s)
    ensures s.gate.mu.Some? ==> exists p :: p in s.procs && !Finished(s.procs[p])
    ensures s.gate.drainMu.Some? ==> exists p :: p in s.procs && !Finished(s.procs[p])
  {
    if s.gate.mu.Some? {
      assert ProcessOk(s.gate, s.gate.mu.value, s.procs[s.gate.mu.value]);
    }
    if s.gate.drainMu.Some? {
      assert ProcessOk(s.gate, s.gate.drainMu.value, s.procs[s.gate.drainMu.value]);
    }
  }

  /** Where such a run cannot continue, every call has returned, both locks are free,
      both counters are zero and no waiter is left. */
  lemma EndedRunsAreClean(ss: seq<State>, acts: seq<Action>, i: nat)
    requires IsRun(ss, acts) && i < |ss|
    requires forall a: Action :: Enabled(ss[i], a) ==> a.Arrive? || a.Invoke?
    ensures var s := ss[i];
            && (forall p :: p in s.procs ==> Finished(s.procs[p]))
            && s.gate.waiters == map[]
            && s.gate.mu.None? && s.gate.drainMu.None?
            && s.gate.wg == 0 && s.gate.activeConnections == 0 && s.gate.reported == 0
  {
    RunKeepsInv(ss, acts, i);
    var s := ss[i];
    if s.gate.waiters != map[] || exists p :: p in s.procs && !Finished(s.procs[p]) {
      var a := SomebodyRuns(s);
      assert false;
    }
    TotalZero(s.procs, WgWeight);
    TotalZero(s.procs, ActiveWeight);
    TotalZero(s.procs, ReportedWeight);
    IdleLocksAreFree(s);
  }
}

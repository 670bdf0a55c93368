/** What the invariant means for whole runs: any number of requests and any
    number of overlapping Drain, Reset and Switch calls. */
module DrainRuns {
  import opened Common
  import opened Totals
  import opened DrainProtocol
  import opened DrainInvariant

  // ---- events of a run ----

  predicate AtRequest(s: State, a: Action, rpc: RequestPc) {
    a.Advance? && a.p in s.procs && s.procs[a.p].Request? && s.procs[a.p].rpc == rpc
  }

  predicate AtControl(s: State, a: Action, cpc: ControlPc) {
    a.Advance? && a.p in s.procs && s.procs[a.p].Control? && s.procs[a.p].cpc == cpc
  }

  /** Reset stores `draining = false`. */
  predicate Reopens(s: State, a: Action) {
    AtControl(s, a, ResetReopen) && s.procs[a.p].prevDrainDone
  }

  /** Nobody is inside a tracked section and the gate is shut. */
  ghost predicate Quiet(s: State) {
    && s.gate.draining && s.gate.wg == 0 && s.gate.activeConnections == 0
    && forall p :: p in s.procs ==> ActiveWeight(s.procs[p]) == 0 && WgWeight(s.procs[p]) == 0
  }

  ghost predicate NoReopen(ss: seq<State>, acts: seq<Action>, i: nat, j: nat)
    requires i <= j < |ss| == |acts| + 1
  {
    forall k :: i <= k < j ==> !Reopens(ss[k], acts[k])
  }

  // ---- the WaitGroup is never reused under a running Wait ----

  /** At most one wg.Wait goroutine is live, and the gate is shut for its whole life. */
  lemma OneWaiterAtATime(ss: seq<State>, acts: seq<Action>, i: nat)
    requires IsRun(ss, acts) && i < |ss|
    ensures var g := ss[i].gate;
            && g.wg >= 0 && g.activeConnections >= 0
            && (forall c, d :: c in g.waiters && d in g.waiters ==> c == d)
            && (g.waiters != map[] ==> g.draining)
  {
    RunKeepsInv(ss, acts, i);
    var g := ss[i].gate;
    forall c | c in g.waiters
      ensures g.prevDone == Some(c)
    {
      assert WaiterOk(g, c);
    }
    if g.waiters != map[] {
      var c :| c in g.waiters;
      assert g.prevDone == Some(c);
    }
  }

  predicate WaitReturns(after: State, a: Action) {
    a.Wait? && a.c in after.gate.waiters && after.gate.waiters[a.c].WaitReturned?
  }

  /** wg.Add(1) only ever happens while no Wait is running, wg.Done never takes the
      counter below zero, and Wait only returns at zero. */
  lemma AddNeverMeetsWait(ss: seq<State>, acts: seq<Action>, i: nat)
    requires IsRun(ss, acts) && i < |acts|
    ensures AtRequest(ss[i], acts[i], AddWg) ==> ss[i].gate.waiters == map[] && !ss[i].gate.draining
    ensures AtRequest(ss[i], acts[i], DoneWg) ==> ss[i].gate.wg >= 1
    ensures WaitReturns(ss[i + 1], acts[i]) ==> ss[i].gate.wg == 0
  {
    OneWaiterAtATime(ss, acts, i);
    RunKeepsInv(ss, acts, i);
    var s, a := ss[i], acts[i];
    if a.Advance? {
      assert ProcessOk(s.gate, a.p, s.procs[a.p]);
      TrackedIsCounted(s, a.p);
    } else if a.Wait? {
      assert WaiterOk(s.gate, a.c);
    }
  }

  /** close(drainCh) and close(done) never hit a closed channel. */
  lemma ChannelsCloseOnce(ss: seq<State>, acts: seq<Action>, i: nat)
    requires IsRun(ss, acts) && i < |acts|
    ensures AtControl(ss[i], acts[i], DrainClose) ==> ss[i].gate.drainCh !in ss[i].gate.closed
    ensures acts[i].Wait? && ss[i].gate.waiters[acts[i].c].WaitReturned? ==> acts[i].c !in ss[i].gate.closed
  {
    RunKeepsInv(ss, acts, i);
    var s, a := ss[i], acts[i];
    if a.Advance? {
      assert ProcessOk(s.gate, a.p, s.procs[a.p]);
    } else if a.Wait? {
      assert WaiterOk(s.gate, a.c);
    }
  }

  /** While drainMu is free, `draining` says exactly that a drain is remembered, and an
      open gate has an open drainCh. */
  lemma GateBetweenCalls(ss: seq<State>, acts: seq<Action>, i: nat)
    requires IsRun(ss, acts) && i < |ss| && ss[i].gate.drainMu.None?
    ensures ss[i].gate.draining <==> ss[i].gate.prevDone.Some?
    ensures !ss[i].gate.draining ==> ss[i].gate.drainCh !in ss[i].gate.closed
  {
    RunKeepsInv(ss, acts, i);
  }

  /** drainCh is closed while Drain waits for its connections, and open again when a Reset
      returns. */
  lemma DrainChSignals(ss: seq<State>, acts: seq<Action>, i: nat, p: Pid)
    requires IsRun(ss, acts) && i < |ss| && p in ss[i].procs && ss[i].procs[p].Control?
    ensures ss[i].procs[p].cpc.DrainAwaitDone? ==> ss[i].gate.drainCh in ss[i].gate.closed
    ensures ss[i].procs[p].cpc.ResetReturn? ==> ss[i].gate.drainCh !in ss[i].gate.closed
  {
    RunKeepsInv(ss, acts, i);
    assert ProcessOk(ss[i].gate, p, ss[i].procs[p]);
  }

  // ---- the two counters ----

  function BetweenAdds(proc: Process): nat {
    if proc.Request? && proc.rpc.AddWg? then 1 else 0
  }

  function BetweenDrops(proc: Process): nat {
    if proc.Request? && proc.rpc.DoneWg? then 1 else 0
  }

  /** A request that has been let in and has not started its release. */
  function Unreleased(proc: Process): nat {
    if proc.Request? && (proc.rpc.LeaveMu? || proc.rpc.ReadTarget? || proc.rpc.ReportTrack?
                         || proc.rpc.InFlight? || proc.rpc.DropActive?) then 1 else 0
  }

  lemma {:induction false} SplitWeights(procs: map<Pid, Process>)
    ensures Total(procs, ActiveWeight) == Total(procs, Unreleased) + Total(procs, BetweenAdds)
    ensures Total(procs, WgWeight) == Total(procs, Unreleased) + Total(procs, BetweenDrops)
    decreases |procs|
  {
    if procs != map[] {
      var p :| p in procs;
      TotalRemove(procs, p, ActiveWeight);
      TotalRemove(procs, p, WgWeight);
      TotalRemove(procs, p, Unreleased);
      TotalRemove(procs, p, BetweenAdds);
      TotalRemove(procs, p, BetweenDrops);
      SplitWeights(procs - {p});
    }
  }

  /** Each counter is the number of unreleased tracks plus the processes caught between
      the two updates of a track (activeConnections) or of a release (wg); the onTrack
      callbacks, together and each on its own, have been told of exactly the tracker
      sections still held open. */
  lemma CountersCountTracks(ss: seq<State>, acts: seq<Action>, i: nat)
    requires IsRun(ss, acts) && i < |ss|
    ensures var s := ss[i];
            && s.gate.activeConnections == Total(s.procs, Unreleased) + Total(s.procs, BetweenAdds)
            && s.gate.wg == Total(s.procs, Unreleased) + Total(s.procs, BetweenDrops)
            && s.gate.reported == Total(s.procs, ReportedWeight)
            && Total(s.procs, BetweenAdds) <= 1
    ensures forall tracker :: Deltas(ss, acts, i, tracker) == Total(ss[i].procs, ReportedBy(tracker))
  {
    RunKeepsInv(ss, acts, i);
    SplitWeights(ss[i].procs);
    AtMostOneBetweenAdds(ss[i]);
    forall tracker
      ensures Deltas(ss, acts, i, tracker) == Total(ss[i].procs, ReportedBy(tracker))
    {
      DeltasCountSections(ss, acts, i, tracker);
    }
  }

  /** The callback of a ConnectionTracker: the sum of the deltas one tracker has reported. */
  function Deltas(ss: seq<State>, acts: seq<Action>, i: nat, tracker: nat): int
    requires i < |ss| == |acts| + 1
  {
    if i == 0 then 0
    else
      var s, a := ss[i - 1], acts[i - 1];
      Deltas(ss, acts, i - 1, tracker) + Delta(s, a, tracker)
  }

  /** What the action makes the process report to this tracker's callback. */
  function Delta(s: State, a: Action, tracker: nat): int {
    if a.Advance? && a.p in s.procs then ReportOf(s.procs[a.p], tracker) else 0
  }

  function ReportOf(proc: Process, tracker: nat): int {
    if proc.Request? && proc.entry == TrackerTrack(tracker)
    then if proc.rpc.ReportTrack? then 1 else if proc.rpc.ReportRelease? then -1 else 0
    else 0
  }

  /** A section of this tracker that has been reported and whose end has not. */
  function ReportedBy(tracker: nat): Process -> nat {
    (proc: Process) =>
      if proc.Request? && proc.entry == TrackerTrack(tracker) then ReportedWeight(proc) else 0
  }

  lemma StatementReports(g: Gate, p: Pid, proc: Process, tracker: nat)
    requires proc.Request? ==> RequestOk(g, proc)
    ensures ReportedBy(tracker)(ProcessStep(g, p, proc).proc)
            == ReportedBy(tracker)(proc) + ReportOf(proc, tracker)
  {
    StatementMatchesWeights(g, p, proc);
    if proc.Request? {
      assert RequestStep(g, p, proc).proc.entry == proc.entry;
    }
  }

  lemma DeltaMovesReported(s: State, a: Action, tracker: nat)
    requires Inv(s) && Enabled(s, a)
    ensures Total(Step(s, a).procs, ReportedBy(tracker))
            == Total(s.procs, ReportedBy(tracker)) + Delta(s, a, tracker)
  {
    var weight := ReportedBy(tracker);
    match a
    case Arrive(p, entry) => TotalUpdate(s.procs, p, Request(entry, AwaitMu, None), weight);
    case Invoke(p, call) => TotalUpdate(s.procs, p, Control(call, FirstPc(call), false, false), weight);
    case Cancel(p) => TotalUpdate(s.procs, p, CancelStep(s.procs[p]), weight);
    case Wait(_) =>
    case Advance(p) =>
      assert ProcessOk(s.gate, p, s.procs[p]);
      StatementReports(s.gate, p, s.procs[p], tracker);
      TotalUpdate(s.procs, p, ProcessStep(s.gate, p, s.procs[p]).proc, weight);
  }

  lemma StepReports(ss: seq<State>, acts: seq<Action>, i: nat, tracker: nat)
    requires IsRun(ss, acts) && i < |acts|
    ensures Total(ss[i + 1].procs, ReportedBy(tracker))
            == Total(ss[i].procs, ReportedBy(tracker)) + Delta(ss[i], acts[i], tracker)
  {
    RunKeepsInv(ss, acts, i);
    DeltaMovesReported(ss[i], acts[i], tracker);
  }

  /** What each tracker's callback has been told sums up to the sections of that tracker
      that are reported and not yet released. */
  lemma {:induction false} DeltasCountSections(ss: seq<State>, acts: seq<Action>, i: nat, tracker: nat)
    requires IsRun(ss, acts) && i < |ss|
    ensures Deltas(ss, acts, i, tracker) == Total(ss[i].procs, ReportedBy(tracker))
  {
    if i > 0 {
      DeltasCountSections(ss, acts, i - 1, tracker);
      StepReports(ss, acts, i - 1, tracker);
    }
  }

  /** mu serialises the two Adds of a track. */
  lemma AtMostOneBetweenAdds(s: State)
    requires Inv(s)
    ensures Total(s.procs, BetweenAdds) <= 1
  {
    if p :| p in s.procs && BetweenAdds(s.procs[p]) == 1 {
      TotalRemove(s.procs, p, BetweenAdds);
      assert ProcessOk(s.gate, p, s.procs[p]);
      forall q | q in s.procs - {p}
        ensures BetweenAdds(s.procs[q]) == 0
      {
        assert ProcessOk(s.gate, q, s.procs[q]);
      }
      TotalZero(s.procs - {p}, BetweenAdds);
    } else {
      TotalZero(s.procs, BetweenAdds);
    }
  }

  // ---- what Drain's result promises ----

  /** A shut gate with a zero WaitGroup has nobody inside. */
  lemma ZeroIsQuiet(s: State)
    requires Inv(s) && s.gate.draining && s.gate.wg == 0
    ensures Quiet(s)
  {
    TotalZero(s.procs, WgWeight);
    forall p | p in s.procs
      ensures ActiveWeight(s.procs[p]) == 0
    {
      assert ProcessOk(s.gate, p, s.procs[p]);
    }
    TotalZero(s.procs, ActiveWeight);
  }

  /** Only Reset can open a shut gate, and only with nobody inside and no Wait running. */
  lemma OnlyResetReopens(s: State, a: Action)
    requires Inv(s) && Enabled(s, a) && s.gate.draining
    ensures Step(s, a).gate.draining <==> !Reopens(s, a)
    ensures Reopens(s, a) ==> Quiet(s) && s.gate.waiters == map[]
  {
    if a.Advance? {
      assert ProcessOk(s.gate, a.p, s.procs[a.p]);
      if Reopens(s, a) {
        ZeroIsQuiet(s);
        assert s.gate.waiters.Keys == {};
      }
    }
  }

  lemma ShutGateRefuses(s: State, a: Action)
    requires Inv(s) && Enabled(s, a) && s.gate.draining
    ensures AtRequest(s, a, CheckDraining) ==> Step(s, a).procs[a.p].rpc == Refuse
    ensures !AtRequest(s, a, AddWg)
  {
    if a.Advance? {
      assert ProcessOk(s.gate, a.p, s.procs[a.p]);
    }
  }

  lemma StaysShut(ss: seq<State>, acts: seq<Action>, k: nat)
    requires IsRun(ss, acts) && k < |acts| && ss[k].gate.draining && !Reopens(ss[k], acts[k])
    ensures ss[k + 1].gate.draining
    ensures AtRequest(ss[k], acts[k], CheckDraining) ==> ss[k + 1].procs[acts[k].p].rpc == Refuse
    ensures !AtRequest(ss[k], acts[k], AddWg)
  {
    RunKeepsInv(ss, acts, k);
    OnlyResetReopens(ss[k], acts[k]);
    ShutGateRefuses(ss[k], acts[k]);
  }

  /** A shut gate turns every request away until some Reset reopens it. */
  lemma {:induction false} ShutUntilReset(ss: seq<State>, acts: seq<Action>, i: nat, j: nat)
    requires IsRun(ss, acts) && i <= j < |ss|
    requires ss[i].gate.draining && NoReopen(ss, acts, i, j)
    ensures ss[j].gate.draining
    ensures forall k :: i <= k < j && AtRequest(ss[k], acts[k], CheckDraining) ==>
              ss[k + 1].procs[acts[k].p].rpc == Refuse
    ensures forall k :: i <= k < j ==> !AtRequest(ss[k], acts[k], AddWg)
  {
    if i < j {
      ShutUntilReset(ss, acts, i, j - 1);
      StaysShut(ss, acts, j - 1);
    }
  }

  predicate DrainReturnsWith(s: State, a: Action, nil: bool) {
    AtControl(s, a, DrainReturn) && s.procs[a.p].drained == nil
  }

  lemma NilDrainIsQuiet(s: State, a: Action)
    requires Inv(s) && Enabled(s, a) && DrainReturnsWith(s, a, true)
    ensures Quiet(s)
  {
    assert ProcessOk(s.gate, a.p, s.procs[a.p]);
    ZeroIsQuiet(s);
  }

  lemma QuietUnlessReopened(s: State, a: Action)
    requires Inv(s) && Enabled(s, a) && Quiet(s) && !Reopens(s, a)
    ensures Quiet(Step(s, a))
  {
    OnlyResetReopens(s, a);
    StepKeepsInv(s, a);
    if a.Advance? {
      assert ProcessOk(s.gate, a.p, s.procs[a.p]);
    }
    ZeroIsQuiet(Step(s, a));
  }

  lemma StaysQuiet(ss: seq<State>, acts: seq<Action>, k: nat)
    requires IsRun(ss, acts) && k < |acts| && Quiet(ss[k]) && !Reopens(ss[k], acts[k])
    ensures Quiet(ss[k + 1])
  {
    RunKeepsInv(ss, acts, k);
    QuietUnlessReopened(ss[k], acts[k]);
  }

  /** When Drain returns nil, by its own waiter or because a finished drain was already
      in force, no tracked request is left, and none enters before the next reopening
      Reset. */
  lemma {:induction false} DrainedStaysEmpty(ss: seq<State>, acts: seq<Action>, i: nat, j: nat)
    requires IsRun(ss, acts) && i <= j < |ss| && i < |acts|
    requires DrainReturnsWith(ss[i], acts[i], true) && NoReopen(ss, acts, i, j)
    ensures Quiet(ss[j])
  {
    if i == j {
      RunKeepsInv(ss, acts, i);
      NilDrainIsQuiet(ss[i], acts[i]);
    } else {
      DrainedStaysEmpty(ss, acts, i, j - 1);
      StaysQuiet(ss, acts, j - 1);
    }
  }

  // ---- when Drain returns nil, and when an error ----

  predicate PastDrain(cpc: ControlPc) {
    cpc.DrainReturn? || cpc.SwitchStore? || InReset(cpc) || cpc.Returned?
  }

  /** A Cancel(p) finds p in its Drain and takes it past it, and nothing takes p back. */
  lemma CancelPassesDrain(ss: seq<State>, acts: seq<Action>, i: nat, p: Pid)
    requires IsRun(ss, acts) && i < |acts|
    ensures NotPastDrain(ss[i + 1], p) ==> NotPastDrain(ss[i], p) && acts[i] != Cancel(p)
  {
    assert ss[i + 1] == Step(ss[i], acts[i]);
  }

  /** p has not been called yet, or its Drain has not yet been decided. */
  predicate NotPastDrain(s: State, p: Pid) {
    p in s.procs && s.procs[p].Control? ==> !PastDrain(s.procs[p].cpc)
  }

  lemma {:induction false} CancelHappensInDrain(ss: seq<State>, acts: seq<Action>, i: nat, p: Pid)
    requires IsRun(ss, acts) && i < |ss| && NotPastDrain(ss[i], p)
    ensures forall k :: 0 <= k < i ==> acts[k] != Cancel(p)
  {
    if i > 0 {
      CancelPassesDrain(ss, acts, i - 1, p);
      CancelHappensInDrain(ss, acts, i - 1, p);
    }
  }

  lemma DrainDecided(ss: seq<State>, acts: seq<Action>, i: nat)
    requires IsRun(ss, acts) && i < |acts|
    requires acts[i].Advance? || acts[i].Cancel?
    requires acts[i].p in ss[i].procs && ss[i].procs[acts[i].p].Control?
    requires ss[i + 1].procs[acts[i].p].cpc.DrainReturn?
    ensures NotPastDrain(ss[i], acts[i].p)
    ensures ss[i + 1].procs[acts[i].p].drained <==> acts[i].Advance?
  {
    assert ss[i + 1] == Step(ss[i], acts[i]);
  }

  /** Drain returns an error exactly if its context ended inside one of its selects. */
  lemma DrainResult(ss: seq<State>, acts: seq<Action>, i: nat)
    requires IsRun(ss, acts) && i < |acts|
    requires acts[i].Advance? || acts[i].Cancel?
    requires acts[i].p in ss[i].procs && ss[i].procs[acts[i].p].Control?
    requires ss[i + 1].procs[acts[i].p].cpc.DrainReturn?
    ensures ss[i + 1].procs[acts[i].p].drained <==> forall k :: 0 <= k <= i ==> acts[k] != Cancel(acts[i].p)
  {
    DrainDecided(ss, acts, i);
    CancelHappensInDrain(ss, acts, i, acts[i].p);
  }

  /** A Drain that is about to return has its context's end in its past exactly if it
      returns an error. */
  lemma {:induction false} DrainOutcome(ss: seq<State>, acts: seq<Action>, i: nat, p: Pid)
    requires IsRun(ss, acts) && i < |ss|
    requires p in ss[i].procs && ss[i].procs[p].Control? && ss[i].procs[p].cpc.DrainReturn?
    ensures ss[i].procs[p].drained <==> forall k :: 0 <= k < i ==> acts[k] != Cancel(p)
  {
    if (acts[i - 1].Advance? || acts[i - 1].Cancel?) && acts[i - 1].p == p {
      DrainResult(ss, acts, i - 1);
    } else {
      Undisturbed(ss, acts, i - 1, p);
      DrainOutcome(ss, acts, i - 1, p);
    }
  }

  /** A process at the end of its Drain is moved by its own actions only. */
  lemma Undisturbed(ss: seq<State>, acts: seq<Action>, i: nat, p: Pid)
    requires IsRun(ss, acts) && i < |acts|
    requires !((acts[i].Advance? || acts[i].Cancel?) && acts[i].p == p)
    requires p in ss[i + 1].procs && ss[i + 1].procs[p].Control? && ss[i + 1].procs[p].cpc.DrainReturn?
    ensures p in ss[i].procs && ss[i].procs[p] == ss[i + 1].procs[p]
  {
    assert ss[i + 1] == Step(ss[i], acts[i]);
  }

  /** Drain returns an error only because its context ended, and then the gate is still
      shut. */
  lemma FailedDrainStaysShut(ss: seq<State>, acts: seq<Action>, i: nat)
    requires IsRun(ss, acts) && i < |acts|
    requires DrainReturnsWith(ss[i], acts[i], false)
    ensures ss[i].gate.draining && ss[i + 1].gate.draining
    ensures exists k :: 0 <= k < i && acts[k] == Cancel(acts[i].p)
  {
    RunKeepsInv(ss, acts, i);
    assert ProcessOk(ss[i].gate, acts[i].p, ss[i].procs[acts[i].p]);
    DrainOutcome(ss, acts, i, acts[i].p);
  }
}

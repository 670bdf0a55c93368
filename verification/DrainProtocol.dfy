/** The drain/switch protocol as a step machine: the Drainer, the Proxy's target
    and any number of processes, each at one statement of its source function. */
module DrainProtocol {
  import opened Common

  type Pid = nat
  type Chan = nat

  // The three ways into a tracked section; there may be many ConnectionTrackers.
  datatype Entry = ServeHTTP | TrackRequest | TrackerTrack(tracker: nat)

  // What a request does next.
  datatype RequestPc =
    | AwaitMu | CheckDraining | Refuse | AddActive | AddWg | LeaveMu
    | ReadTarget | ReportTrack | InFlight
    | DropActive | DoneWg | ReportRelease
    | Served | Refused

  // Calls on the control side; a Switch runs a Drain and then a Reset.
  datatype Call = DrainCall | ResetCall | SwitchCall(to: ServiceTarget)

  // What a control call does next.
  datatype ControlPc =
    | SwitchRead
    | DrainAwaitDrainMu | DrainSeePrev | DrainAwaitPrev(prev: Chan)
    | DrainAwaitMu | DrainCheck | DrainAlready | DrainMark | DrainClose | DrainLeaveMu
    | DrainMakeDone | DrainSpawn(done: Chan) | DrainAwaitDone(done: Chan) | DrainReturn
    | SwitchStore
    | ResetAwaitDrainMu | ResetSeePrev | ResetAwaitMu | ResetReopen | ResetMakeCh
    | ResetLeaveMu | ResetReturn
    | Returned

  /** `seen` is the target a request has read; `drained` says that Drain is
      returning nil; `prevDrainDone` is Reset's local variable of that name. */
  datatype Process =
    | Request(entry: Entry, rpc: RequestPc, seen: Option<ServiceTarget>)
    | Control(call: Call, cpc: ControlPc, drained: bool, prevDrainDone: bool)

  /** Progress of one `wg.Wait(); close(done)` goroutine: not yet looking at the
      counter, asleep, woken by the Done that reached zero, back from Wait. */
  datatype WaitPhase = Entering | Parked | Woken | WaitReturned

  /** The variables of the Drainer and of the Proxy.  `waiters` maps the done channel
      of every live waiter goroutine to its phase, `closed` holds the closed channels,
      `nextChan` is the next unused channel and `reported` the sum of all onTrack
      deltas. */
  datatype Gate = Gate(
    activeConnections: int,
    wg: int,
    draining: bool,
    drainCh: Chan,
    mu: Option<Pid>,
    drainMu: Option<Pid>,
    prevDone: Option<Chan>,
    closed: set<Chan>,
    nextChan: Chan,
    waiters: map<Chan, WaitPhase>,
    activeTarget: ServiceTarget,
    reported: int)

  datatype State = State(gate: Gate, procs: map<Pid, Process>)

  // The effect of one statement of one process.
  datatype Move = Move(gate: Gate, proc: Process)

  datatype Action =
    | Arrive(p: Pid, entry: Entry)   // a request reaches its Track
    | Invoke(p: Pid, call: Call)     // somebody calls Drain, Reset or Switch
    | Advance(p: Pid)                // the next statement of p
    | Cancel(p: Pid)                 // the ctx.Done branch of a select in Drain
    | Wait(c: Chan)                  // the next statement of the waiter of channel c

  const INIT: State :=
    State(Gate(0, 0, false, 0, None, None, None, {}, 1, map[], Blue, 0), map[])

  function FirstPc(call: Call): ControlPc {
    match call
    case DrainCall => DrainAwaitDrainMu
    case ResetCall => ResetAwaitDrainMu
    case SwitchCall(_) => SwitchRead
  }

  // ---- requests: Track, TrackRequest, ConnectionTracker.Track, ServeHTTP ----

  predicate RequestEnabled(g: Gate, proc: Process)
    requires proc.Request?
  {
    match proc.rpc
    case AwaitMu => g.mu.None?
    case Served => false
    case Refused => false
    case _ => true
  }

  /** wg.Done(): the one that reaches zero wakes every parked waiter. */
  function Wake(waiters: map<Chan, WaitPhase>, wg: int): map<Chan, WaitPhase> {
    map c | c in waiters :: if wg == 0 && waiters[c].Parked? then Woken else waiters[c]
  }

  function RequestStep(g: Gate, p: Pid, proc: Process): Move
    requires proc.Request?
  {
    match proc.rpc
    case AwaitMu =>
      Move(g.(mu := Some(p)), proc.(rpc := CheckDraining))
    case CheckDraining =>
      Move(g, proc.(rpc := if g.draining then Refuse else AddActive))
    case Refuse =>
      Move(g.(mu := None), proc.(rpc := Refused))
    case AddActive =>
      Move(g.(activeConnections := g.activeConnections + 1), proc.(rpc := AddWg))
    case AddWg =>
      Move(g.(wg := g.wg + 1), proc.(rpc := LeaveMu))
    case LeaveMu =>
      var next := match proc.entry case ServeHTTP => ReadTarget
                                   case TrackRequest => InFlight
                                   case TrackerTrack(_) => ReportTrack;
      Move(g.(mu := None), proc.(rpc := next))
    case ReadTarget =>
      Move(g, proc.(rpc := InFlight, seen := Some(g.activeTarget)))
    case ReportTrack =>
      Move(g.(reported := g.reported + 1), proc.(rpc := InFlight))
    case InFlight =>
      Move(g, proc.(rpc := DropActive))
    case DropActive =>
      Move(g.(activeConnections := g.activeConnections - 1), proc.(rpc := DoneWg))
    case DoneWg =>
      var next := if proc.entry.TrackerTrack? then ReportRelease else Served;
      Move(g.(wg := g.wg - 1, waiters := Wake(g.waiters, g.wg - 1)), proc.(rpc := next))
    case ReportRelease =>
      Move(g.(reported := g.reported - 1), proc.(rpc := Served))
    case _ => Move(g, proc)
  }

  // ---- control calls: Drain, Reset, Switch ----

  predicate ControlEnabled(g: Gate, proc: Process)
    requires proc.Control?
  {
    match proc.cpc
    case DrainAwaitDrainMu => g.drainMu.None?
    case DrainAwaitPrev(c) => c in g.closed
    case DrainAwaitMu => g.mu.None?
    case DrainAwaitDone(c) => c in g.closed
    case ResetAwaitDrainMu => g.drainMu.None?
    case ResetAwaitMu => g.mu.None?
    case Returned => false
    case _ => true
  }

  function DrainStep(g: Gate, p: Pid, proc: Process): Move
    requires proc.Control?
  {
    match proc.cpc
    case DrainAwaitDrainMu =>
      Move(g.(drainMu := Some(p)), proc.(cpc := DrainSeePrev))
    case DrainSeePrev =>
      var next := if g.prevDone.Some? then DrainAwaitPrev(g.prevDone.value) else DrainAwaitMu;
      Move(g, proc.(cpc := next))
    case DrainAwaitPrev(_) =>
      Move(g, proc.(cpc := DrainAwaitMu))
    case DrainAwaitMu =>
      Move(g.(mu := Some(p)), proc.(cpc := DrainCheck))
    case DrainCheck =>
      Move(g, proc.(cpc := if g.draining then DrainAlready else DrainMark))
    case DrainAlready =>
      Move(g.(mu := None), proc.(cpc := DrainReturn, drained := true))
    case DrainMark =>
      Move(g.(draining := true), proc.(cpc := DrainClose))
    case DrainClose =>
      Move(g.(closed := g.closed + {g.drainCh}), proc.(cpc := DrainLeaveMu))
    case DrainLeaveMu =>
      Move(g.(mu := None), proc.(cpc := DrainMakeDone))
    case DrainMakeDone =>
      Move(g.(prevDone := Some(g.nextChan), nextChan := g.nextChan + 1), proc.(cpc := DrainSpawn(g.nextChan)))
    case DrainSpawn(c) =>
      Move(g.(waiters := g.waiters[c := Entering]), proc.(cpc := DrainAwaitDone(c)))
    case DrainAwaitDone(_) =>
      Move(g, proc.(cpc := DrainReturn, drained := true))
    case DrainReturn =>
      var next := if proc.call.SwitchCall? then SwitchStore else Returned;
      Move(g.(drainMu := None), proc.(cpc := next))
    case _ => Move(g, proc)
  }

  function ResetStep(g: Gate, p: Pid, proc: Process): Move
    requires proc.Control?
  {
    match proc.cpc
    case ResetAwaitDrainMu =>
      Move(g.(drainMu := Some(p)), proc.(cpc := ResetSeePrev))
    case ResetSeePrev =>
      var finished := g.prevDone.None? || g.prevDone.value in g.closed;
      Move(g.(prevDone := if finished then None else g.prevDone), proc.(cpc := ResetAwaitMu, prevDrainDone := finished))
    case ResetAwaitMu =>
      Move(g.(mu := Some(p)), proc.(cpc := ResetReopen))
    case ResetReopen =>
      Move(g.(draining := g.draining && !proc.prevDrainDone), proc.(cpc := ResetMakeCh))
    case ResetMakeCh =>
      Move(g.(drainCh := g.nextChan, nextChan := g.nextChan + 1), proc.(cpc := ResetLeaveMu))
    case ResetLeaveMu =>
      Move(g.(mu := None), proc.(cpc := ResetReturn))
    case ResetReturn =>
      Move(g.(drainMu := None), proc.(cpc := Returned))
    case _ => Move(g, proc)
  }

  function SwitchStep(g: Gate, p: Pid, proc: Process): Move
    requires proc.Control?
  {
    match (proc.cpc, proc.call)
    case (SwitchRead, SwitchCall(to)) =>
      var next := if g.activeTarget == to then Returned else DrainAwaitDrainMu;
      Move(g, proc.(cpc := next))
    case (SwitchStore, SwitchCall(to)) =>
      Move(g.(activeTarget := to), proc.(cpc := ResetAwaitDrainMu))
    case _ => Move(g, proc)
  }

  predicate InDrain(cpc: ControlPc) {
    || cpc.DrainAwaitDrainMu? || cpc.DrainSeePrev? || cpc.DrainAwaitPrev? || cpc.DrainAwaitMu?
    || cpc.DrainCheck? || cpc.DrainAlready? || cpc.DrainMark? || cpc.DrainClose?
    || cpc.DrainLeaveMu? || cpc.DrainMakeDone? || cpc.DrainSpawn? || cpc.DrainAwaitDone?
    || cpc.DrainReturn?
  }

  predicate InReset(cpc: ControlPc) {
    || cpc.ResetAwaitDrainMu? || cpc.ResetSeePrev? || cpc.ResetAwaitMu? || cpc.ResetReopen?
    || cpc.ResetMakeCh? || cpc.ResetLeaveMu? || cpc.ResetReturn?
  }

  // ---- the waiter goroutine ----

  function WaiterStep(g: Gate, c: Chan): Gate
    requires c in g.waiters
  {
    match g.waiters[c]
    case Entering => g.(waiters := g.waiters[c := if g.wg == 0 then WaitReturned else Parked])
    case Woken => g.(waiters := g.waiters[c := WaitReturned])
    case WaitReturned => g.(closed := g.closed + {c}, waiters := g.waiters - {c})
    case Parked => g
  }

  // ---- the whole machine ----

  predicate ProcessEnabled(g: Gate, proc: Process) {
    if proc.Request? then RequestEnabled(g, proc) else ControlEnabled(g, proc)
  }

  function ProcessStep(g: Gate, p: Pid, proc: Process): Move {
    if proc.Request? then RequestStep(g, p, proc)
    else if InDrain(proc.cpc) then DrainStep(g, p, proc)
    else if InReset(proc.cpc) then ResetStep(g, p, proc)
    else SwitchStep(g, p, proc)
  }

  predicate CanCancel(proc: Process) {
    proc.Control? && (proc.cpc.DrainAwaitPrev? || proc.cpc.DrainAwaitDone?)
  }

  function CancelStep(proc: Process): Process
    requires CanCancel(proc)
  {
    proc.(cpc := DrainReturn, drained := false)
  }

  predicate Enabled(s: State, a: Action) {
    match a
    case Arrive(p, _) => p !in s.procs
    case Invoke(p, _) => p !in s.procs
    case Advance(p) => p in s.procs && ProcessEnabled(s.gate, s.procs[p])
    case Cancel(p) => p in s.procs && CanCancel(s.procs[p])
    case Wait(c) => c in s.gate.waiters && !s.gate.waiters[c].Parked?
  }

  function Step(s: State, a: Action): State
    requires Enabled(s, a)
  {
    match a
    case Arrive(p, entry) => State(s.gate, s.procs[p := Request(entry, AwaitMu, None)])
    case Invoke(p, call) => State(s.gate, s.procs[p := Control(call, FirstPc(call), false, false)])
    case Advance(p) =>
      var move := ProcessStep(s.gate, p, s.procs[p]);
      State(move.gate, s.procs[p := move.proc])
    case Cancel(p) => State(s.gate, s.procs[p := CancelStep(s.procs[p])])
    case Wait(c) => State(WaiterStep(s.gate, c), s.procs)
  }

  /** A finite behaviour: `ss` are the states, `acts` the actions between them. */
  ghost predicate IsRun(ss: seq<State>, acts: seq<Action>) {
    && |ss| == |acts| + 1
    && ss[0] == INIT
    && forall i :: 0 <= i < |acts| ==> Enabled(ss[i], acts[i]) && ss[i + 1] == Step(ss[i], acts[i])
  }

  lemma RunGrows(ss: seq<State>, acts: seq<Action>, a: Action)
    requires IsRun(ss, acts) && Enabled(ss[|acts|], a)
    ensures IsRun(ss + [Step(ss[|acts|], a)], acts + [a])
  {
  }
}

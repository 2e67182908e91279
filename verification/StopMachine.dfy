/** Every interleaving of starting and releasing processes, stop requests, and the kills they lead to.
    Requests and kills run in signal handlers, which are nested calls on the main thread: a handler may
    run between any two statements of what that thread is doing, also while that holds a lock, because
    both locks are re-entrant. Worker threads step in between, except where the registry's lock is taken. */
module StopMachine {
  import opened Wrappers
  import opened Stopping

  /** Where a kill is: about to close the registry, sending SIGTERM, in the grace period, sending SIGKILL. */
  datatype KillPoint = Closing | Terming(n: nat) | Grace | Ending(n: nat)

  /** A call on the main thread, past its test: a start that found the registry open, a drain that found
      no stop requested, an immediate request that found its flag unset, a kill. */
  datatype Frame =
    | InSpawn(proc: nat, started: bool)
    | InDrain(id: nat, flagged: bool)
    | InStop(id: nat, flagged: bool)
    | InKill(at: KillPoint)

  /** The stop state. `author` is the request whose result stands. The rest tells what happened: whether a
      drain was past its test when the first immediate request came, whether an immediate request came
      while another was past its test, and how many passed theirs. */
  datatype Stop = Stop(
    drain: bool, immediate: bool, author: Option<nat>, requests: seq<Request>,
    overtaken: bool, nested: bool, stops: nat)
  {
    predicate Draining() {
      drain || immediate
    }
  }

  /** A worker thread inside `spawn`, past its test: it holds the registry's lock. */
  datatype Worker = Worker(proc: nat, started: bool)

  /** The process registry, and what its close found: the processes released by then, and the one start
      on the main thread that the kill interrupted, after or before the process existed. */
  datatype Registry = Registry(
    closed: bool, procs: set<nat>, spawned: set<nat>, released: set<nat>, worker: Option<Worker>,
    releasedBefore: set<nat>, untracked: Option<nat>, late: Option<nat>, afterClose: set<nat>)

  /** The snapshots of the kills so far, and the signals sent. */
  datatype Sent = Sent(kills: seq<seq<nat>>, signals: seq<Signal>) {
    function Targets(): seq<nat> {
      if kills == [] then [] else kills[|kills| - 1]
    }
  }

  /** A session between the two checks of the stop-aware agents. */
  datatype Session = Started | Refused | Discarded | Answered

  datatype Machine = Machine(stop: Stop, reg: Registry, sent: Sent, stack: seq<Frame>, sessions: map<nat, Session>) {
    /** The main thread is in its own code: no call of a handler, a request or a start is under way. */
    predicate AtRest() {
      stack == []
    }
  }

  const START := Machine(
    Stop(false, false, None, [], false, false, 0),
    Registry(false, {}, {}, {}, None, {}, None, None, {}), Sent([], []), [], map[])

  /** The run's result, read while no request is under way. */
  function ResultOf(s: Stop): Option<RunResult> {
    if s.Draining() && s.author.Some? && s.author.value < |s.requests| then Some(s.requests[s.author.value].result)
    else None
  }

  // A request and its test.

  function HasDrain(stack: seq<Frame>): bool {
    exists i | 0 <= i < |stack| :: stack[i].InDrain?
  }

  function HasStop(stack: seq<Frame>): bool {
    exists i | 0 <= i < |stack| :: stack[i].InStop?
  }

  predicate PassesTest(s: Stop, r: Request) {
    match r
    case AskDrain(_) => !s.Draining()
    case AskImmediate(_) => !s.immediate
  }

  function NewFrame(s: Stop, r: Request): Frame {
    match r
    case AskDrain(_) => InDrain(|s.requests|, false)
    case AskImmediate(_) => InStop(|s.requests|, false)
  }

  function Noted(s: Stop, r: Request, stack: seq<Frame>): Stop {
    var seen := s.(requests := s.requests + [r]);
    if r.AskImmediate? && PassesTest(s, r) then
      seen.(overtaken := s.overtaken || (s.stops == 0 && HasDrain(stack)),
            nested := s.nested || HasStop(stack), stops := s.stops + 1)
    else seen
  }

  // The next statement of the innermost call on the main thread.

  /** The call after it; None if it was the last. A request that has written its result goes on as a kill. */
  function FrameAfter(f: Frame, targets: seq<nat>): Option<Frame> {
    match f
    case InSpawn(p, started) => if started then None else Some(InSpawn(p, true))
    case InDrain(id, flagged) => if flagged then None else Some(InDrain(id, true))
    case InStop(id, flagged) => Some(if flagged then InKill(Closing) else InStop(id, true))
    case InKill(Closing) => Some(InKill(Terming(0)))
    case InKill(Terming(n)) => Some(InKill(if n < |targets| then Terming(n + 1) else Grace))
    case InKill(Grace) => Some(InKill(Ending(0)))
    case InKill(Ending(n)) => if n < |targets| then Some(InKill(Ending(n + 1))) else None
  }

  /** A request sets its flag, then writes its result. */
  function StopAfter(s: Stop, f: Frame): Stop {
    match f
    case InDrain(id, flagged) => if flagged then s.(author := Some(id)) else s.(drain := true)
    case InStop(id, flagged) => if flagged then s.(author := Some(id)) else s.(immediate := true)
    case _ => s
  }

  /** A start makes the process, then tracks it; a kill closes the registry. */
  function RegistryAfter(r: Registry, f: Frame, outermost: Frame): Registry {
    match f
    case InSpawn(p, true) => r.(procs := r.procs + {p})
    case InSpawn(p, false) =>
      r.(spawned := r.spawned + {p}, afterClose := if r.closed then r.afterClose + {p} else r.afterClose)
    case InKill(Closing) =>
      if r.closed then r
      else
        r.(closed := true, releasedBefore := r.released,
           untracked := if outermost.InSpawn? && outermost.started then Some(outermost.proc) else None,
           late := if outermost.InSpawn? && !outermost.started then Some(outermost.proc) else None)
    case _ => r
  }

  /** A kill takes its snapshot, then signals its targets one by one. */
  function SentAfter(s: Sent, f: Frame, order: seq<nat>): Sent {
    match f
    case InKill(Closing) => s.(kills := s.kills + [order])
    case InKill(Terming(n)) => if n < |s.Targets()| then s.(signals := s.signals + [Term(s.Targets()[n])]) else s
    case InKill(Ending(n)) => if n < |s.Targets()| then s.(signals := s.signals + [Kill(s.Targets()[n])]) else s
    case _ => s
  }

  function Below(stack: seq<Frame>): seq<Frame>
    requires stack != []
  {
    stack[..|stack| - 1]
  }

  function TopOf(stack: seq<Frame>): Frame
    requires stack != []
  {
    stack[|stack| - 1]
  }

  function WithTop(below: seq<Frame>, top: Option<Frame>): seq<Frame> {
    if top.None? then below else below + [top.value]
  }

  function Stepped(m: Machine, order: seq<nat>): Machine
    requires m.stack != []
  {
    var top := TopOf(m.stack);
    m.(stop := StopAfter(m.stop, top), reg := RegistryAfter(m.reg, top, m.stack[0]),
       sent := SentAfter(m.sent, top, order),
       stack := WithTop(Below(m.stack), FrameAfter(top, m.sent.Targets())))
  }

  // Actions.

  /** One statement of some thread. */
  datatype Action =
    | Handle(request: Request)
    | MainSpawn(proc: nat)
    | MainStep(order: seq<nat>)
    | WorkerSpawn(proc: nat)
    | WorkerStep
    | Release(proc: nat)
    | FirstCheck(session: nat)
    | LastCheck(session: nat)

  predicate MainSpawns(stack: seq<Frame>) {
    stack != [] && stack[0].InSpawn?
  }

  /** Whether a thread can take the step. A kill waits for a worker that holds the registry's lock, and
      takes its snapshot in any order; it does not wait for its own thread. */
  ghost predicate Enabled(m: Machine, a: Action) {
    match a
    case Handle(_) => true
    case MainSpawn(p) => m.stack == [] && m.reg.worker.None? && p !in m.reg.spawned
    case MainStep(order) =>
      m.stack != [] && (TopOf(m.stack) == InKill(Closing) ==> m.reg.worker.None? && Lists(order, m.reg.procs))
    case WorkerSpawn(p) => m.reg.worker.None? && !MainSpawns(m.stack) && p !in m.reg.spawned
    case WorkerStep => m.reg.worker.Some?
    case Release(p) => m.reg.worker.None? && !MainSpawns(m.stack) && p in m.reg.procs
    case FirstCheck(n) => n !in m.sessions
    case LastCheck(n) => n in m.sessions && m.sessions[n] == Started && n in m.reg.released
  }

  function WorkerStepped(r: Registry): Registry
    requires r.worker.Some?
  {
    var w := r.worker.value;
    if w.started then r.(procs := r.procs + {w.proc}, worker := None)
    else r.(spawned := r.spawned + {w.proc}, worker := Some(Worker(w.proc, true)))
  }

  ghost function Act(m: Machine, a: Action): Machine {
    if !Enabled(m, a) then m
    else
      match a
      case Handle(r) =>
        m.(stop := Noted(m.stop, r, m.stack),
           stack := WithTop(m.stack, if PassesTest(m.stop, r) then Some(NewFrame(m.stop, r)) else None))
      case MainSpawn(p) => if m.reg.closed then m else m.(stack := [InSpawn(p, false)])
      case MainStep(order) => Stepped(m, order)
      case WorkerSpawn(p) => if m.reg.closed then m else m.(reg := m.reg.(worker := Some(Worker(p, false))))
      case WorkerStep => m.(reg := WorkerStepped(m.reg))
      case Release(p) => m.(reg := m.reg.(procs := m.reg.procs - {p}, released := m.reg.released + {p}))
      case FirstCheck(n) => m.(sessions := m.sessions[n := if m.stop.immediate then Refused else Started])
      case LastCheck(n) => m.(sessions := m.sessions[n := if m.stop.immediate then Discarded else Answered])
  }

  ghost function ActAll(m: Machine, actions: seq<Action>): Machine
    decreases |actions|
  {
    if actions == [] then m else ActAll(Act(m, actions[0]), actions[1..])
  }
}

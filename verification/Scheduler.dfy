/** The frontier scheduler as a state machine: one loop pass is one step, and everything that is not
    the conductor's (job results, stop requests, git and forge answers) arrives as that pass's input. */
module Scheduler {
  import opened Wrappers
  import opened Board
  import opened TicketFlow
  import opened IntegrationCheck
  import opened Graph

  /** The job key of the check. It is disjoint from the tickets, which are numbered from 1. */
  const CHECKER: nat := 0

  datatype Head = Head(number: nat, repo: string, open: bool)

  /** What is fixed for a run: settings, the sub-issues, their blockers, the tickets to resume, and the
      start of the integration branch as git reports it. */
  datatype Config = Config(
    parallel: nat, maxRounds: nat, waitForReset: bool,
    heads: seq<Head>, blockers: Blockers, resumes: seq<nat>, start: BranchRead)
  {
    /** The commit the branch starts green at, if it starts with nothing beyond its base. */
    function Baseline(): Option<Commit> {
      if NothingBeyondBase(start) then start.tip else None
    }
  }

  /** A branch that starts at commit 0, with nothing beyond its base. */
  const GREEN_AT_ZERO := BranchRead(Some(0), Some(0), Some(true))

  /** What happened to the integration branch, in order. */
  datatype Mark = Landed(ticket: nat, onto: Commit, seen: bool) | TurnedGreen(commit: Commit)

  /** What a ticket's flow did. */
  datatype Entry = Entry(ticket: nat, effect: Effect)

  /** The modelled GitHub board and git remote. `next` is above every commit named so far; `log` is what
      the flows did, in order. */
  datatype World = World(
    cards: map<nat, Card>, tip: Commit, next: Commit, verified: set<Commit>, history: seq<Mark>, log: seq<Entry>)

  datatype LoopStatus = Looping | Returned | LimitExit | Crashed

  datatype State = State(
    running: map<nat, Flow>,
    dispatched: set<nat>,
    waiting: seq<nat>,
    guard: GuardState,
    checker: Option<Check>,
    limited: bool,
    outstanding: multiset<nat>,
    draining: bool,
    immediate: bool,
    world: World,
    status: LoopStatus,
    jobs: nat,
    dispatches: multiset<nat>,
    requeues: multiset<nat>)
  {
    predicate Settled() {
      guard.Settled() && checker.None?
    }

    predicate Draining() {
      draining || immediate
    }
  }

  // The world under a flow's effects.

  function Max(a: nat, b: nat): nat {
    if a < b then b else a
  }

  function Absorb1(w: World, t: nat, e: Effect): World
    requires t in w.cards
  {
    var v := w.(cards := w.cards[t := Apply(w.cards[t], e)], log := w.log + [Entry(t, e)]);
    match e
    case Wrote(c) => v.(next := Max(w.next, c + 1))
    case Verified(c) => v.(next := Max(w.next, c + 1), verified := w.verified + {c})
    case Pushed(c) => v.(next := Max(w.next, c + 1))
    case MergeCalled(_, landed, seen) =>
      if landed then v.(tip := w.next, next := w.next + 1, history := w.history + [Landed(t, w.tip, seen)]) else v
    case _ => v
  }

  function Absorb(w: World, t: nat, es: seq<Effect>): (v: World)
    requires t in w.cards
    ensures v.cards.Keys == w.cards.Keys
    decreases |es|
  {
    if es == [] then w else Absorb(Absorb1(w, t, es[0]), t, es[1..])
  }

  /** A check verifies commits and pushes to the integration branch itself. */
  function AbsorbCheck(w: World, es: seq<Effect>): (v: World)
    ensures v.cards == w.cards
    decreases |es|
  {
    if es == [] then w
    else
      AbsorbCheck(
        match es[0]
        case Wrote(c) => w.(next := Max(w.next, c + 1))
        case Verified(c) => w.(next := Max(w.next, c + 1), verified := w.verified + {c})
        case Pushed(c) => w.(next := Max(w.next, c + 1), tip := c)
        case _ => w,
        es[1..])
  }

  // The nested functions of the loop.

  /** Where a resumed flow went: its next job, the wait for a green branch, its end, or an exception
      that escapes. A merge must be verified. */
  function Yielded(s: State, t: nat, step: Step): State
    requires t in s.world.cards
  {
    match step
    case Crash => s.(status := Crashed)
    case Step(f, effects) =>
      var after := s.(world := Absorb(s.world, t, effects));
      if f.at.Ended? then
        after.(running := s.running - {t},
               guard := if f.at.status == StatusIntegrated then s.guard.NoteMerge(t) else s.guard)
      else if f.at.AtGreen? then after.(running := s.running[t := f], waiting := s.waiting + [t])
      else after.(running := s.running[t := f], outstanding := s.outstanding + multiset{t})
  }

  /** One resumption of `t`'s flow, and its effects on the world. */
  function AdvanceFlow(cfg: Config, s: State, t: nat, r: Reply, env: Env): State
    requires t in s.running && t in s.world.cards && Fits(s.running[t].at, r)
  {
    Yielded(s, t, Resume(s.running[t], r, cfg.maxRounds, env))
  }

  /** The integration check ended. A red one breaks the branch for good and drains the run. */
  function Checked(s: State, result: CheckResult): State {
    match result
    case CheckGreen(sha) =>
      s.(guard := s.guard.NoteGreen(sha),
         world := s.world.(history := s.world.history + [TurnedGreen(sha)]))
    case CheckRed(_) => s.(guard := s.guard.(broken := true), draining := true)
  }

  function CheckYielded(s: State, step: CheckStep): State {
    match step
    case CheckCrash => s.(status := Crashed)
    case CheckStep(c, effects) =>
      var after := s.(world := AbsorbCheck(s.world, effects));
      if c.at.CheckEnded? then Checked(after.(checker := None), c.at.result)
      else after.(checker := Some(c), outstanding := s.outstanding + multiset{CHECKER})
  }

  function AdvanceCheck(cfg: Config, s: State, r: Reply, env: CheckEnv): State
    requires s.checker.Some? && CheckFits(s.checker.value.at, r)
  {
    CheckYielded(s, ResumeCheck(s.checker.value, r, cfg.maxRounds, env, s.world.tip))
  }

  /** Without a readable tip the check counts as red at once; otherwise it steps to its first job. */
  function StartCheck(cfg: Config, s: State, tipReadable: bool, env: CheckEnv): State {
    if !tipReadable then Checked(s, CheckRed(s.world.tip))
    else
      AdvanceCheck(cfg, s.(guard := s.guard.(needsCheck := false), checker := Some(NewCheck(s.world.tip))), Go, env)
  }

  /** Give a ticket's labels back: in review with an open PR, queued without one, untouched if unreadable. */
  function ParkCard(card: Card, readable: bool): Card {
    if !readable then card
    else if card.pr == Open then Apply(card, Labelled({InReview}, {InProgress}))
    else Apply(card, Labelled({Queued}, {InProgress, InReview}))
  }

  predicate Requeues(card: Card, readable: bool) {
    readable && card.pr != Open
  }

  function ParkFlow(s: State, t: nat, readable: bool): State
    requires t in s.running && t in s.world.cards
  {
    var card := s.world.cards[t];
    var back := Requeues(card, readable);
    s.(waiting := Without(s.waiting, t),
       running := s.running - {t},
       world := s.world.(cards := s.world.cards[t := ParkCard(card, readable)]),
       dispatched := if back then s.dispatched - {t} else s.dispatched,
       requeues := if back then s.requeues + multiset{t} else s.requeues)
  }

  /** Drops the check; `needsCheck` remembers it. */
  function ParkCheck(s: State): State {
    s.(checker := None, guard := s.guard.(needsCheck := true))
  }

  function Without(xs: seq<nat>, x: nat): (r: seq<nat>)
    ensures x !in xs ==> r == xs
  {
    if xs == [] then [] else if xs[0] == x then xs[1..] else [xs[0]] + Without(xs[1..], x)
  }

  /** A ticket to dispatch; `resume` if an earlier run left it in review with an open PR. */
  datatype Pick = Pick(number: nat, resume: bool)

  /** Create the ticket's flow and run it to its first job. */
  function Dispatch(cfg: Config, s: State, p: Pick, env: Env): State
    requires p.number in s.world.cards
  {
    var t := p.number;
    var flow := NewFlow(p.resume, s.world.cards[t].pr);
    AdvanceFlow(cfg,
      s.(dispatched := s.dispatched + {t}, dispatches := s.dispatches + multiset{t}, running := s.running[t := flow]),
      t, Go, env)
  }

  // What can be dispatched.

  function Issues(cfg: Config, w: World): (r: seq<Issue>)
    ensures |r| == |cfg.heads|
    ensures forall i | 0 <= i < |r| :: r[i] == IssueOf(cfg.heads[i], w)
  {
    seq(|cfg.heads|, i requires 0 <= i < |cfg.heads| => IssueOf(cfg.heads[i], w))
  }

  function IssueOf(h: Head, w: World): Issue {
    Issue(h.number, h.repo, if h.number in w.cards then w.cards[h.number].labels else {}, h.open)
  }

  function PicksOf(numbers: seq<nat>, resume: bool, dispatched: set<nat>): (r: seq<Pick>)
    ensures forall p :: p in r <==> p.resume == resume && p.number in numbers && p.number !in dispatched
  {
    if numbers == [] then []
    else
      assert forall n :: n in numbers <==> n == numbers[0] || n in numbers[1..];
      (if numbers[0] in dispatched then [] else [Pick(numbers[0], resume)]) + PicksOf(numbers[1..], resume, dispatched)
  }

  function IssueNumbers(issues: seq<Issue>): (r: seq<nat>)
    ensures |r| == |issues| && forall i | 0 <= i < |r| :: r[i] == issues[i].number
  {
    seq(|issues|, i requires 0 <= i < |issues| => issues[i].number)
  }

  /** The resumed tickets first, then the frontier; neither twice in a run. */
  function Ready(cfg: Config, s: State): seq<Pick> {
    PicksOf(cfg.resumes, true, s.dispatched) +
    PicksOf(IssueNumbers(Dispatchable(Issues(cfg, s.world), cfg.blockers)), false, s.dispatched)
  }

  predicate CanDispatch(cfg: Config, s: State) {
    !s.limited && !s.Draining() && s.Settled() && |s.running| < cfg.parallel
  }

  // One pass of the loop.

  datatype StopRequest = NoStop | DrainRequest | ImmediateRequest

  /** A finished job: its flow, its answer, and how git and the forge answer the resumption. */
  datatype Event = Event(number: nat, reply: Reply, env: Env, checkEnv: CheckEnv)

  datatype Input = Input(
    stop: StopRequest,
    releaseEnv: nat -> Env,
    parkReadable: nat -> bool,
    tipReadable: bool,
    checkStart: CheckEnv,
    startEnv: nat -> Env,
    event: Option<Event>,
    late: bool,
    waitCut: bool)

  /** Whether a job's answer holds a usage-limited session, also one inside a gate's answer. */
  predicate IsLimited(r: Reply) {
    match r
    case SessionEnded(result, _) => result.usageLimit
    case GateEnded(first, second) => GateResult(first, second).usageLimit
    case _ => false
  }

  function Poll(s: State, stop: StopRequest): State {
    match stop
    case NoStop => s
    case DrainRequest => s.(draining := true)
    case ImmediateRequest => s.(immediate := true)
  }

  /** An answer can be taken from the queue only if its job is outstanding. */
  predicate Deliverable(s: State, e: Event) {
    && e.number in s.outstanding
    && if e.number == CHECKER then s.checker.Some? && CheckFits(s.checker.value.at, e.reply)
       else e.number in s.running && e.number in s.world.cards && Fits(s.running[e.number].at, e.reply)
  }

  /** Nothing runs: the run is over, or it pauses until the usage limit resets. */
  function Idle(cfg: Config, s: State, input: Input): State {
    if !s.limited || s.Draining() then s.(status := Returned)
    else if !cfg.waitForReset then s.(status := LimitExit)
    else if input.waitCut then s.(draining := true, status := Returned)
    else s.(limited := false)
  }

  /** Take one finished job, if there is one: act on it, or park its flow once a limit is in force. */
  function Deliver(cfg: Config, s: State, input: Input): State {
    if input.event.None? || !Deliverable(s, input.event.value) then s
    else if input.late then s.(immediate := true, status := Returned)
    else
      var e := input.event.value;
      var taken := s.(outstanding := s.outstanding - multiset{e.number}, jobs := s.jobs + 1,
                      limited := s.limited || IsLimited(e.reply));
      if taken.limited then
        if e.number == CHECKER then ParkCheck(taken) else ParkFlow(taken, e.number, input.parkReadable(e.number))
      else if e.number == CHECKER then AdvanceCheck(cfg, taken, e.reply, e.checkEnv)
      else AdvanceFlow(cfg, taken, e.number, e.reply, e.env)
  }
}

/** The life of a ticket as a generator, which yields each job it waits for.
    A suspended generator is a `Flow`; `Resume` runs it to its next yield or its end. */
module TicketFlow {
  import opened Wrappers
  import opened Board
  import opened Markers

  datatype Status = StatusIntegrated | StatusFailed | StatusBlocked | StatusSystemic

  /** Where a flow is suspended. */
  datatype Point =
    | Created
    | AtImplementer
    | AtVerify
    | AtGate
    | AtGreen
    | AtMergeFix
    | AtFix
    | Ended(status: Status)

  /** The locals of a suspended flow. `prior` is the state of the ticket's latest PR at the claim. */
  datatype Flow = Flow(
    at: Point, resumed: bool, prior: PrState, hasPr: bool,
    rounds: nat, mergeRounds: nat, gated: bool,
    head: Commit, headSha: Commit, mergeCommit: Option<Commit>)

  function NewFlow(resumed: bool, prior: PrState): Flow {
    Flow(Created, resumed, prior, resumed, 0, 0, false, 0, 0, None)
  }

  /** What the scheduler sends into a flow. A writing session leaves its worktree at `head`;
      a gate job runs one session, and a fresh one if need be. */
  datatype Reply =
    | Go
    | SessionEnded(result: SessionResult, head: Commit)
    | VerifyEnded(ok: bool)
    | GateEnded(first: SessionResult, second: SessionResult)
    | Raised(infra: bool)

  datatype CreateAnswer = PrOpened | PrRefused | PrOpenedUnread
  datatype MergeAnswer = MergeAccepted | MergeRefused | MergeReplyLost

  /** How git and the forge answer one resumption. `false` is a call that raises an `InfraError`. */
  datatype Env = Env(
    latestPrOk: bool, deleteOk: bool, addTreeOk: bool, treeHead: Commit,
    pushOk: bool, headOk: bool, create: CreateAnswer,
    merge: MergeAnswer, rereadOk: bool, behind: bool, stopPushOk: bool)

  datatype Step = Step(flow: Flow, effects: seq<Effect>) | Crash

  /** The kinds of answer the job a flow waits for can give. */
  predicate Fits(at: Point, r: Reply) {
    match at
    case Created => r.Go?
    case AtImplementer => r.SessionEnded? || r.Raised?
    case AtVerify => r.VerifyEnded? || r.Raised?
    case AtGate => r.GateEnded? || r.Raised?
    case AtGreen => r.Go?
    case AtMergeFix => r.SessionEnded? || r.Raised?
    case AtFix => r.SessionEnded? || r.Raised?
    case Ended(_) => false
  }

  predicate AtJob(at: Point) {
    !at.Created? && !at.AtGreen? && !at.Ended?
  }

  /** The verdict of a gate job: of `second` only if `first` is usable but unparsable. */
  function GateVerdict(first: SessionResult, second: SessionResult): Verdict {
    if VerdictOf(first) != Unparsable || !Usable(first) then VerdictOf(first)
    else VerdictOf(second)
  }

  /** The session result the gate job hands back, which is the one a usage limit is read from. */
  function GateResult(first: SessionResult, second: SessionResult): SessionResult {
    if VerdictOf(first) != Unparsable || !Usable(first) then first else second
  }

  function StopLabel(status: Status): Label
    requires !status.StatusIntegrated?
  {
    match status
    case StatusFailed => FailedIssue
    case StatusBlocked => Blocked
    case StatusSystemic => FailedSystemic
  }

  /** The end of a flow that did not merge: a push, if asked for and possible, and the label of `status`. */
  function Halt(f: Flow, status: Status, push: bool, effects: seq<Effect>): Step
    requires !status.StatusIntegrated?
  {
    Step(f.(at := Ended(status)),
         effects + (if push then [Pushed(f.head)] else []) + [Labelled({StopLabel(status)}, {InProgress, InReview})])
  }

  /** Claim, discard the branch of a closed PR, add the worktree; up to the first job. */
  function Start(f: Flow, env: Env): Step {
    var claim := if f.resumed then [] else [Labelled({InProgress}, {Queued})];
    if !f.resumed && (!env.latestPrOk || (f.prior == Closed && !env.deleteOk)) then
      Halt(f, StatusSystemic, false, claim)
    else
      var gone := if !f.resumed && f.prior == Closed then [BranchDeleted] else [];
      if !env.addTreeOk then Halt(f, StatusSystemic, false, claim + gone)
      else Step(f.(at := if f.resumed then AtVerify else AtImplementer, head := env.treeHead), claim + gone)
  }

  /** A writing session must end "done": anything else ends the flow. */
  function AfterSession(f: Flow, result: SessionResult, env: Env, next: Step): Step {
    match OutcomeOf(result)
    case OutcomeBlocked => Halt(f, StatusBlocked, env.stopPushOk, [Wrote(f.head)])
    case OutcomeUnparsable => Halt(f, StatusFailed, env.stopPushOk, [Wrote(f.head)])
    case OutcomeDone => next
  }

  /** A red verify or a gate FAIL: one more fix session, or the end. */
  function NeedsFix(f: Flow, maxRounds: nat, env: Env, effects: seq<Effect>): Step {
    if f.rounds >= maxRounds then Halt(f, StatusFailed, env.stopPushOk, effects)
    else Step(f.(at := AtFix, rounds := f.rounds + 1, gated := false), effects)
  }

  /** Verify is green: push, read the head, open the PR once, then gate (or go on to the merge). */
  function AfterVerify(f: Flow, env: Env): Step {
    var seen := [Verified(f.head)];
    if !env.pushOk then Halt(f, StatusSystemic, env.stopPushOk, seen)
    else if !env.headOk then Halt(f, StatusSystemic, env.stopPushOk, seen + [Pushed(f.head)])
    else
      var pushed := seen + [Pushed(f.head)];
      if !f.hasPr && env.create == PrRefused then Halt(f, StatusSystemic, env.stopPushOk, pushed)
      else if !f.hasPr && env.create == PrOpenedUnread then
        Halt(f, StatusSystemic, env.stopPushOk, pushed + [PrCreated])
      else
        var prNews := if f.hasPr then [] else [PrCreated, Labelled({InReview}, {InProgress})];
        Step(f.(at := if f.gated then AtGreen else AtGate, headSha := f.head, hasPr := true), pushed + prNews)
  }

  function AfterGate(f: Flow, verdict: Verdict, maxRounds: nat, env: Env): Step {
    match verdict
    case Unparsable => Halt(f, StatusFailed, env.stopPushOk, [])
    case Pass => Step(f.(at := AtGreen, gated := true), [GatePassed(f.headSha)])
    case Fail => NeedsFix(f.(gated := false), maxRounds, env, [])
  }

  /** The integration branch is green: merge, pinned to the commit that was pushed before the gate. */
  function AfterGreen(f: Flow, maxRounds: nat, env: Env): Step {
    var landed := env.merge != MergeRefused;
    var accepted := env.merge == MergeAccepted;
    var merged := accepted || (env.rereadOk && landed);
    var called := [MergeCalled(f.headSha, landed, merged)];
    if merged then
      Step(f.(at := Ended(StatusIntegrated)), called + [Labelled({Integrated}, {InReview})])
    else if !env.rereadOk then Halt(f, StatusSystemic, env.stopPushOk, called)
    else if !env.behind then Halt(f, StatusSystemic, env.stopPushOk, called)
    else if f.mergeRounds >= maxRounds then Halt(f, StatusFailed, env.stopPushOk, called)
    else Step(f.(at := AtMergeFix, mergeRounds := f.mergeRounds + 1), called)
  }

  /** Run a suspended flow on one reply, up to its next yield or its end. */
  function Resume(f: Flow, r: Reply, maxRounds: nat, env: Env): Step
    requires Fits(f.at, r)
  {
    if r.Raised? then
      if r.infra then Halt(f, StatusSystemic, env.stopPushOk, []) else Crash
    else
      match f.at
      case Created => Start(f, env)
      case AtImplementer =>
        var g := f.(head := r.head);
        AfterSession(g, r.result, env, Step(g.(at := AtVerify), [Wrote(r.head)]))
      case AtVerify =>
        if r.ok then AfterVerify(f, env) else NeedsFix(f, maxRounds, env, [])
      case AtGate => AfterGate(f, GateVerdict(r.first, r.second), maxRounds, env)
      case AtGreen => AfterGreen(f, maxRounds, env)
      case AtMergeFix =>
        var g := f.(head := r.head);
        AfterSession(g, r.result, env,
          if !env.headOk then Halt(g, StatusSystemic, env.stopPushOk, [Wrote(r.head)])
          else Step(g.(at := AtVerify, mergeCommit := Some(r.head), gated := false), [Wrote(r.head)]))
      case AtFix =>
        var g := f.(head := r.head);
        AfterSession(g, r.result, env, Step(g.(at := AtVerify), [Wrote(r.head)]))
  }
}

/** How a resumption of a ticket flow ends its ticket, where it goes on, and what a stop leaves, each as an
    exact condition on what the session wrote and on which call failed. */
module FlowEnds {
  import opened Wrappers
  import opened Board
  import opened Markers
  import opened TicketFlow
  import opened FlowSucceeds

  // What a job's answer says, by its text.

  predicate Healthy(result: SessionResult) {
    result.returnCode == 0 && !result.timedOut && !result.usageLimit
  }

  ghost predicate SessionSays(f: Flow, r: Reply, marker: string, other: string) {
    Writing(f.at) && r.SessionEnded? && Reports(r.result, marker, other)
  }

  /** The first session says so, or a second one after a healthy first one that said nothing. */
  ghost predicate GateSays(r: Reply, marker: string, other: string) {
    r.GateEnded? &&
    (Judges(r.first, marker, other)
     || (Healthy(r.first) && !Judges(r.first, marker, other) && !Judges(r.first, other, marker)
         && Judges(r.second, marker, other)))
  }

  /** Verify or the gate refuses the code. */
  ghost predicate Refused(f: Flow, r: Reply) {
    (f.at.AtVerify? && r == VerifyEnded(false)) || (f.at.AtGate? && GateSays(r, FAIL_LINE, PASS_LINE))
  }

  // The four ends.

  /** The merge went through, and the conductor saw it. */
  predicate Merges(f: Flow, env: Env) {
    f.at.AtGreen? && (env.merge == MergeAccepted || (env.merge == MergeReplyLost && env.rereadOk))
  }

  ghost predicate Blocks(f: Flow, r: Reply) {
    SessionSays(f, r, BLOCKED_LINE, DONE_LINE)
  }

  /** The ticket's own fault: no usable outcome or verdict, or no round left. */
  ghost predicate Fails(f: Flow, r: Reply, maxRounds: nat, env: Env) {
    || (Writing(f.at) && r.SessionEnded? && !SessionSays(f, r, BLOCKED_LINE, DONE_LINE)
        && !SessionSays(f, r, DONE_LINE, BLOCKED_LINE))
    || (Refused(f, r) && f.rounds >= maxRounds)
    || (f.at.AtGate? && r.GateEnded? && !GateSays(r, PASS_LINE, FAIL_LINE) && !GateSays(r, FAIL_LINE, PASS_LINE))
    || (f.at.AtGreen? && env.merge == MergeRefused && env.rereadOk && env.behind && f.mergeRounds >= maxRounds)
  }

  predicate SetupFails(f: Flow, env: Env) {
    (!f.resumed && (!env.latestPrOk || (f.prior == Closed && !env.deleteOk))) || !env.addTreeOk
  }

  predicate PushFails(f: Flow, env: Env) {
    !env.pushOk || !env.headOk || (!f.hasPr && env.create != PrOpened)
  }

  /** Through no fault of the ticket: some git or forge call failed. */
  ghost predicate Breaks(f: Flow, r: Reply, env: Env) {
    || r == Raised(true)
    || (f.at.Created? && SetupFails(f, env))
    || (f.at.AtVerify? && r == VerifyEnded(true) && PushFails(f, env))
    || (f.at.AtMergeFix? && SessionSays(f, r, DONE_LINE, BLOCKED_LINE) && !env.headOk)
    || (f.at.AtGreen? && !Merges(f, env) && !(env.rereadOk && env.behind))
  }

  /** Where the flow goes on otherwise. */
  ghost function GoesTo(f: Flow, r: Reply): Point {
    if f.at.Created? then (if f.resumed then AtVerify else AtImplementer)
    else if Writing(f.at) then AtVerify
    else if Refused(f, r) then AtFix
    else if f.at.AtVerify? then (if f.gated then AtGreen else AtGate)
    else if f.at.AtGate? then AtGreen
    else AtMergeFix
  }

  ghost predicate EndsRight(f: Flow, r: Reply, maxRounds: nat, env: Env, step: Step) {
    && (step.Crash? <==> r == Raised(false))
    && (step.Step? ==>
          && (step.flow.at == Ended(StatusIntegrated) <==> r.Go? && Merges(f, env))
          && (step.flow.at == Ended(StatusBlocked) <==> Blocks(f, r))
          && (step.flow.at == Ended(StatusFailed) <==> Fails(f, r, maxRounds, env))
          && (step.flow.at == Ended(StatusSystemic) <==> Breaks(f, r, env))
          && (!step.flow.at.Ended? ==> step.flow.at == GoesTo(f, r)))
  }

  lemma GateText(r: Reply)
    requires r.GateEnded?
    ensures GateVerdict(r.first, r.second) == Pass <==> GateSays(r, PASS_LINE, FAIL_LINE)
    ensures GateVerdict(r.first, r.second) == Fail <==> GateSays(r, FAIL_LINE, PASS_LINE)
  {
    VerdictMeaning(r.first);
    VerdictMeaning(r.second);
    GatePassMeaning(r);
    GateFailMeaning(r);
    hide Judges, VerdictOf, GateVerdict;
  }

  lemma RaisedEnds(f: Flow, r: Reply, maxRounds: nat, env: Env)
    requires Fits(f.at, r) && r.Raised?
    ensures EndsRight(f, r, maxRounds, env, Resume(f, r, maxRounds, env))
  {
    hide Reports, Judges;
  }

  // Where each kind of resumption arrives.

  lemma CreatedArrives(f: Flow, maxRounds: nat, env: Env)
    requires f.at.Created?
    ensures
      var step := Resume(f, Go, maxRounds, env);
      && step.Step?
      && step.flow.at ==
         if SetupFails(f, env) then Ended(StatusSystemic) else if f.resumed then AtVerify else AtImplementer
  {
  }

  lemma VerifyArrives(f: Flow, ok: bool, maxRounds: nat, env: Env)
    requires f.at.AtVerify?
    ensures
      var step := Resume(f, VerifyEnded(ok), maxRounds, env);
      && step.Step?
      && step.flow.at ==
         if !ok then (if f.rounds >= maxRounds then Ended(StatusFailed) else AtFix)
         else if PushFails(f, env) then Ended(StatusSystemic)
         else if f.gated then AtGreen else AtGate
  {
  }

  lemma GateArrives(f: Flow, r: Reply, maxRounds: nat, env: Env)
    requires f.at.AtGate? && r.GateEnded?
    ensures Fits(f.at, r)
    ensures
      var step := Resume(f, r, maxRounds, env);
      && step.Step?
      && step.flow.at ==
         match GateVerdict(r.first, r.second)
         case Pass => AtGreen
         case Fail => if f.rounds >= maxRounds then Ended(StatusFailed) else AtFix
         case Unparsable => Ended(StatusFailed)
  {
    hide GateVerdict;
  }

  lemma GreenArrives(f: Flow, maxRounds: nat, env: Env)
    requires f.at.AtGreen?
    ensures
      var step := Resume(f, Go, maxRounds, env);
      && step.Step?
      && step.flow.at ==
         if Merges(f, env) then Ended(StatusIntegrated)
         else if !env.rereadOk || !env.behind then Ended(StatusSystemic)
         else if f.mergeRounds >= maxRounds then Ended(StatusFailed) else AtMergeFix
  {
  }

  lemma CreatedEnds(f: Flow, r: Reply, maxRounds: nat, env: Env)
    requires Fits(f.at, r) && f.at.Created?
    ensures EndsRight(f, r, maxRounds, env, Resume(f, r, maxRounds, env))
  {
    hide Resume, SetupFails, Reports, Judges;
    CreatedArrives(f, maxRounds, env);
  }

  lemma WritingEnds(f: Flow, r: Reply, maxRounds: nat, env: Env)
    requires Fits(f.at, r) && Writing(f.at) && r.SessionEnded?
    ensures EndsRight(f, r, maxRounds, env, Resume(f, r, maxRounds, env))
  {
    hide Reports, Judges, Resume, OutcomeOf;
    OutcomeMeaning(r.result);
    match OutcomeOf(r.result)
    case OutcomeBlocked => SessionBlocked(f, r, maxRounds, env);
    case OutcomeUnparsable => SessionUnusable(f, r, maxRounds, env);
    case OutcomeDone => SessionDone(f, r, maxRounds, env);
  }

  lemma VerifyEnds(f: Flow, r: Reply, maxRounds: nat, env: Env)
    requires Fits(f.at, r) && f.at.AtVerify? && r.VerifyEnded?
    ensures EndsRight(f, r, maxRounds, env, Resume(f, r, maxRounds, env))
  {
    hide Resume, PushFails, Reports, Judges;
    VerifyArrives(f, r.ok, maxRounds, env);
  }

  lemma GateEnds(f: Flow, r: Reply, maxRounds: nat, env: Env)
    requires Fits(f.at, r) && f.at.AtGate? && r.GateEnded?
    ensures EndsRight(f, r, maxRounds, env, Resume(f, r, maxRounds, env))
  {
    hide Resume, GateVerdict, GateSays, Reports;
    GateText(r);
    GateArrives(f, r, maxRounds, env);
  }

  lemma GreenEnds(f: Flow, r: Reply, maxRounds: nat, env: Env)
    requires Fits(f.at, r) && f.at.AtGreen?
    ensures EndsRight(f, r, maxRounds, env, Resume(f, r, maxRounds, env))
  {
    hide Resume, Reports, Judges;
    GreenArrives(f, maxRounds, env);
  }

  /** How it ends. A resumption lets an exception escape exactly if its job raised something that is no
      infrastructure error; it ends the ticket integrated, blocked, failed or as an infrastructure failure
      exactly under the four conditions above, and otherwise goes on where `GoesTo` says. */
  lemma HowItEnds(f: Flow, r: Reply, maxRounds: nat, env: Env)
    requires Fits(f.at, r)
    ensures EndsRight(f, r, maxRounds, env, Resume(f, r, maxRounds, env))
  {
    hide Resume, EndsRight;
    if r.Raised? {
      RaisedEnds(f, r, maxRounds, env);
    } else {
      match f.at
      case Created => CreatedEnds(f, r, maxRounds, env);
      case AtVerify => VerifyEnds(f, r, maxRounds, env);
      case AtGate => GateEnds(f, r, maxRounds, env);
      case AtGreen => GreenEnds(f, r, maxRounds, env);
      case _ => WritingEnds(f, r, maxRounds, env);
    }
  }

  // What a stop leaves.

  /** The work is on the remote if that push goes through, and the label says how it ended. */
  predicate LeavesWork(f: Flow, env: Env, g: Flow, status: Status, es: seq<Effect>)
    requires !status.StatusIntegrated?
  {
    && |es| >= 1 && es[|es| - 1] == Labelled({StopLabel(status)}, {InProgress, InReview})
    && (if f.at.Created? then forall e | e in es :: !e.Pushed?
        else env.stopPushOk ==> |es| >= 2 && es[|es| - 2] == Pushed(g.head))
  }

  lemma HaltLeaves(f: Flow, g: Flow, status: Status, env: Env, es: seq<Effect>)
    requires !status.StatusIntegrated? && !f.at.Created?
    ensures
      var step := Halt(g, status, env.stopPushOk, es);
      step.Step? && step.flow.at == Ended(status) && LeavesWork(f, env, step.flow, status, step.effects)
  {
  }

  predicate StopsWell(f: Flow, env: Env, step: Step) {
    step.Step? && step.flow.at.Ended? && !step.flow.at.status.StatusIntegrated? ==>
      LeavesWork(f, env, step.flow, step.flow.at.status, step.effects)
  }

  lemma StartLeaves(f: Flow, env: Env)
    requires f.at.Created?
    ensures StopsWell(f, env, Start(f, env))
  {
  }

  lemma SessionLeaves(f: Flow, g: Flow, result: SessionResult, env: Env, next: Step)
    requires !f.at.Created? && StopsWell(f, env, next)
    ensures StopsWell(f, env, AfterSession(g, result, env, next))
  {
    hide OutcomeOf, Halt, LeavesWork;
    HaltLeaves(f, g, StatusBlocked, env, [Wrote(g.head)]);
    HaltLeaves(f, g, StatusFailed, env, [Wrote(g.head)]);
  }

  lemma JobLeaves(f: Flow, g: Flow, maxRounds: nat, env: Env)
    requires !f.at.Created?
    ensures StopsWell(f, env, AfterVerify(g, env)) && StopsWell(f, env, NeedsFix(g, maxRounds, env, []))
    ensures StopsWell(f, env, AfterGreen(g, maxRounds, env))
  {
    hide Halt, LeavesWork;
    var seen, pushed := [Verified(g.head)], [Verified(g.head), Pushed(g.head)];
    assert seen + [Pushed(g.head)] == pushed;
    HaltLeaves(f, g, StatusSystemic, env, seen);
    HaltLeaves(f, g, StatusSystemic, env, pushed);
    HaltLeaves(f, g, StatusSystemic, env, pushed + [PrCreated]);
    HaltLeaves(f, g, StatusFailed, env, []);
    var called := [MergeCalled(g.headSha, env.merge != MergeRefused,
                               env.merge == MergeAccepted || (env.rereadOk && env.merge != MergeRefused))];
    HaltLeaves(f, g, StatusSystemic, env, called);
    HaltLeaves(f, g, StatusFailed, env, called);
  }

  /** A ticket that is left for a human keeps its work. Whatever ends it short of a merge, its last write is
      the label that says how it ended, and before it the worktree is pushed, unless that push fails; a
      ticket whose setup fails pushes nothing. */
  lemma StopKeepsTheWork(f: Flow, r: Reply, maxRounds: nat, env: Env)
    requires Fits(f.at, r)
    ensures StopsWell(f, env, Resume(f, r, maxRounds, env))
  {
    hide Start, AfterVerify, NeedsFix, AfterGreen, AfterSession, OutcomeOf, GateVerdict, Halt, LeavesWork;
    if f.at.Created? {
      StartLeaves(f, env);
    } else {
      HaltLeaves(f, f, StatusSystemic, env, []);
      HaltLeaves(f, f, StatusFailed, env, []);
      JobLeaves(f, f, maxRounds, env);
      JobLeaves(f, f.(gated := false), maxRounds, env);
      if r.SessionEnded? {
        var g := f.(head := r.head);
        HaltLeaves(f, g, StatusSystemic, env, [Wrote(r.head)]);
        SessionLeaves(f, g, r.result, env, Step(g.(at := AtVerify), [Wrote(r.head)]));
        SessionLeaves(f, g, r.result, env,
          if !env.headOk then Halt(g, StatusSystemic, env.stopPushOk, [Wrote(r.head)])
          else Step(g.(at := AtVerify, mergeCommit := Some(r.head), gated := false), [Wrote(r.head)]));
      }
    }
  }

  // What a claim does.

  /** A new ticket is claimed first, a resumed one is not; and the branch of its closed pull request is
      deleted exactly if there is one, it can be read, and the deletion goes through. */
  lemma ClaimMeaning(f: Flow, maxRounds: nat, env: Env)
    requires f.at.Created?
    ensures
      var step := Resume(f, Go, maxRounds, env);
      && step.Step?
      && (BranchDeleted in step.effects <==> !f.resumed && env.latestPrOk && f.prior == Closed && env.deleteOk)
      && (!f.resumed ==> |step.effects| >= 1 && step.effects[0] == Labelled({InProgress}, {Queued}))
      && (!step.flow.at.Ended? ==>
            && step.flow.head == env.treeHead
            && step.effects == (if f.resumed then [] else [Labelled({InProgress}, {Queued})])
                               + (if !f.resumed && f.prior == Closed then [BranchDeleted] else []))
  {
  }

  predicate NoDelete(step: Step) {
    step.Step? ==> BranchDeleted !in step.effects
  }

  lemma HaltNoDelete(f: Flow, status: Status, push: bool, es: seq<Effect>)
    requires !status.StatusIntegrated? && BranchDeleted !in es
    ensures NoDelete(Halt(f, status, push, es))
  {
  }

  lemma JobNoDelete(f: Flow, maxRounds: nat, env: Env)
    ensures NoDelete(AfterVerify(f, env)) && NoDelete(NeedsFix(f, maxRounds, env, []))
    ensures NoDelete(AfterGreen(f, maxRounds, env))
  {
  }

  lemma SessionNoDelete(f: Flow, result: SessionResult, env: Env, next: Step)
    requires NoDelete(next)
    ensures NoDelete(AfterSession(f, result, env, next))
  {
    hide OutcomeOf;
  }

  /** And nothing else ever deletes a branch. */
  lemma OnlyAClaimDeletes(f: Flow, r: Reply, maxRounds: nat, env: Env)
    requires Fits(f.at, r) && !f.at.Created?
    ensures Resume(f, r, maxRounds, env).Step? ==> BranchDeleted !in Resume(f, r, maxRounds, env).effects
  {
    hide Start, AfterVerify, NeedsFix, AfterGreen, AfterSession, OutcomeOf, GateVerdict, Halt;
    HaltNoDelete(f, StatusSystemic, env.stopPushOk, []);
    HaltNoDelete(f, StatusFailed, env.stopPushOk, []);
    JobNoDelete(f, maxRounds, env);
    JobNoDelete(f.(gated := false), maxRounds, env);
    if r.SessionEnded? {
      var g := f.(head := r.head);
      HaltNoDelete(g, StatusSystemic, env.stopPushOk, [Wrote(r.head)]);
      SessionNoDelete(g, r.result, env, Step(g.(at := AtVerify), [Wrote(r.head)]));
      SessionNoDelete(g, r.result, env,
        if !env.headOk then Halt(g, StatusSystemic, env.stopPushOk, [Wrote(r.head)])
        else Step(g.(at := AtVerify, mergeCommit := Some(r.head), gated := false), [Wrote(r.head)]));
    }
  }
}

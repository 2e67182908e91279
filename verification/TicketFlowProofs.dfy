/** What every run of a ticket flow keeps: pinned merges, one fitting state label, a bounded number of jobs. */
module TicketFlowProofs {
  import opened Wrappers
  import opened Board
  import opened Markers
  import opened TicketFlow

  /** A run: the answers delivered to a flow, in order. It ends at its end or at an answer that
      the flow's job cannot give. */
  function Drive(f: Flow, log: seq<Effect>, maxRounds: nat, script: seq<(Reply, Env)>): (r: (Flow, seq<Effect>))
    decreases |script|
  {
    if script == [] || !Fits(f.at, script[0].0) then (f, log)
    else
      match Resume(f, script[0].0, maxRounds, script[0].1)
      case Crash => (f, log)
      case Step(g, effects) => Drive(g, log + effects, maxRounds, script[1..])
  }

  // What is known about the worktree's commit, read off the log.

  datatype Standing = Unknown | IsVerified(c: Commit) | IsPushed(c: Commit) | IsGated(c: Commit)

  function Observe(s: Standing, e: Effect): Standing {
    match e
    case Wrote(_) => Unknown
    case Verified(c) => IsVerified(c)
    case Pushed(c) => if s == IsVerified(c) then IsPushed(c) else s
    case GatePassed(c) => if s == IsPushed(c) then IsGated(c) else s
    case _ => s
  }

  function Standings(log: seq<Effect>): Standing {
    if log == [] then Unknown else Observe(Standings(log[..|log| - 1]), log[|log| - 1])
  }

  function StandingsFrom(s: Standing, log: seq<Effect>): Standing
    decreases |log|
  {
    if log == [] then s else StandingsFrom(Observe(s, log[0]), log[1..])
  }

  lemma {:induction false} StandingsAppend(log: seq<Effect>, es: seq<Effect>)
    ensures Standings(log + es) == StandingsFrom(Standings(log), es)
    decreases |es|
  {
    if es == [] {
      assert log + es == log;
    } else {
      assert log + es == (log + [es[0]]) + es[1..];
      StandingsAppend(log + [es[0]], es[1..]);
      assert (log + [es[0]])[..|log|] == log;
    }
  }

  /** `c` was verified at `v` and nothing was written since. */
  predicate Since(log: seq<Effect>, c: Commit, v: nat) {
    v < |log| && log[v] == Verified(c) && forall i | v <= i < |log| :: !log[i].Wrote?
  }

  /** And then pushed at `p`, and then given a gate PASS at `g`. */
  predicate Cleared(log: seq<Effect>, c: Commit, v: nat, p: nat, g: nat) {
    Since(log, c, v) && v < p < g < |log| && log[p] == Pushed(c) && log[g] == GatePassed(c)
  }

  /** What a standing says about the log it was read from. */
  lemma {:induction false} StandingsJustified(log: seq<Effect>) returns (v: nat, p: nat, g: nat)
    ensures match Standings(log)
      case Unknown => true
      case IsVerified(c) => Since(log, c, v)
      case IsPushed(c) => Since(log, c, v) && v < p < |log| && log[p] == Pushed(c)
      case IsGated(c) => Cleared(log, c, v, p, g)
  {
    v, p, g := 0, 0, 0;
    if log == [] {
    } else {
      var last := |log| - 1;
      v, p, g := StandingsJustified(log[..last]);
      if log[last].Verified? {
        v := last;
      } else if log[last].Pushed? && Standings(log[..last]).IsVerified? {
        p := last;
      } else if log[last].GatePassed? && Standings(log[..last]).IsPushed? {
        g := last;
      }
    }
  }

  // The invariant of a suspended flow.

  predicate FlowOk(f: Flow, maxRounds: nat) {
    && f.rounds <= maxRounds && f.mergeRounds <= maxRounds
    && (f.resumed ==> f.hasPr)
    && (!f.at.Ended? ==> (f.gated <==> f.at.AtGreen? || f.at.AtMergeFix?))
    && (f.at.AtGate? ==> f.head == f.headSha)
    && (f.at.AtGate? || f.at.AtGreen? || f.at.AtMergeFix? ==> f.hasPr)
    && (f.at.Created? ==> f.hasPr == f.resumed && f.rounds == f.mergeRounds == 0)
    && (f.at.AtImplementer? ==> !f.hasPr && !f.resumed && f.rounds == f.mergeRounds == 0)
  }

  predicate StandingOk(f: Flow, s: Standing) {
    && (f.at.AtGate? ==> s == IsPushed(f.headSha))
    && (f.at.AtGreen? ==> s == IsGated(f.headSha))
  }

  predicate Pinned(s: Standing, es: seq<Effect>)
    decreases |es|
  {
    es == [] || ((es[0].MergeCalled? ==> s == IsGated(es[0].pin)) && Pinned(Observe(s, es[0]), es[1..]))
  }

  lemma {:induction false} PinnedAt(log: seq<Effect>, es: seq<Effect>, k: nat)
    requires Pinned(Standings(log), es) && k < |es| && es[k].MergeCalled?
    ensures Standings(log + es[..k]) == IsGated(es[k].pin)
    decreases k
  {
    if k == 0 {
      assert log + es[..0] == log;
    } else {
      assert (log + [es[0]])[..|log|] == log;
      PinnedAt(log + [es[0]], es[1..], k - 1);
      assert log + es[..k] == (log + [es[0]]) + es[1..][..k - 1];
    }
  }

  // The jobs a flow may still run, the outstanding one included.

  function Fuel(f: Flow, maxRounds: nat): nat
    requires f.rounds <= maxRounds && f.mergeRounds <= maxRounds
  {
    var left := 3 * (maxRounds - f.rounds) + 3 * (maxRounds - f.mergeRounds);
    match f.at
    case Created => if f.resumed then 6 * maxRounds + 2 else 6 * maxRounds + 3
    case AtImplementer => 6 * maxRounds + 3
    case AtVerify => left + 2
    case AtGate => left + 1
    case AtGreen => left
    case AtMergeFix => left + 3
    case AtFix => left + 3
    case Ended(_) => 0
  }

  // One lemma per stretch of the generator between two yields: `GoesOn` collects what each keeps.

  predicate GoesOn(f: Flow, job: bool, maxRounds: nat, s: Standing, step: Step) {
    step.Step? ==>
      && FlowOk(step.flow, maxRounds)
      && StandingOk(step.flow, StandingsFrom(s, step.effects))
      && !step.flow.at.Created? && step.flow.resumed == f.resumed
      && (f.at.AtGreen? ==> !step.flow.at.AtGreen?)
      && f.rounds <= maxRounds && f.mergeRounds <= maxRounds
      && Fuel(step.flow, maxRounds) + (if job then 1 else 0) <= Fuel(f, maxRounds)
  }

  lemma HaltGoesOn(f: Flow, g: Flow, job: bool, maxRounds: nat, s: Standing, status: Status, push: bool,
                   es: seq<Effect>)
    requires f.rounds <= maxRounds && f.mergeRounds <= maxRounds && !status.StatusIntegrated?
    requires g.rounds == f.rounds && g.mergeRounds == f.mergeRounds && g.resumed == f.resumed && (f.resumed ==> g.hasPr)
    requires Fuel(f, maxRounds) >= if job then 1 else 0
    ensures GoesOn(f, job, maxRounds, s, Halt(g, status, push, es))
  {
  }

  lemma StartGoesOn(f: Flow, maxRounds: nat, env: Env, s: Standing)
    requires f.at.Created? && FlowOk(f, maxRounds)
    ensures GoesOn(f, false, maxRounds, s, Start(f, env))
  {
  }

  lemma SessionGoesOn(f: Flow, g: Flow, maxRounds: nat, env: Env, s: Standing, result: SessionResult, next: Step)
    requires FlowOk(f, maxRounds) && AtJob(f.at) && g.rounds == f.rounds && g.mergeRounds == f.mergeRounds
    requires g.resumed == f.resumed && g.hasPr == f.hasPr
    requires GoesOn(f, true, maxRounds, s, next)
    ensures GoesOn(f, true, maxRounds, s, AfterSession(g, result, env, next))
  {
    match OutcomeOf(result)
    case OutcomeBlocked => HaltGoesOn(f, g, true, maxRounds, s, StatusBlocked, env.stopPushOk, [Wrote(g.head)]);
    case OutcomeUnparsable => HaltGoesOn(f, g, true, maxRounds, s, StatusFailed, env.stopPushOk, [Wrote(g.head)]);
    case OutcomeDone =>
  }

  lemma FixGoesOn(f: Flow, g: Flow, maxRounds: nat, env: Env, s: Standing)
    requires FlowOk(f, maxRounds) && (f.at.AtVerify? || f.at.AtGate?) && (g == f || g == f.(gated := false))
    ensures GoesOn(f, true, maxRounds, s, NeedsFix(g, maxRounds, env, []))
  {
  }

  lemma VerifyGoesOn(f: Flow, maxRounds: nat, env: Env, s: Standing)
    requires FlowOk(f, maxRounds) && f.at.AtVerify?
    ensures GoesOn(f, true, maxRounds, s, AfterVerify(f, env))
  {
    hide StandingsFrom;
    assert [Verified(f.head)] + [Pushed(f.head)] == [Verified(f.head), Pushed(f.head)];
    VerifiedAndPushed(s, f.head, if f.hasPr then [] else [PrCreated, Labelled({InReview}, {InProgress})]);
  }

  lemma VerifiedAndPushed(s: Standing, c: Commit, more: seq<Effect>)
    requires forall e | e in more :: !e.Wrote? && !e.Verified? && !e.Pushed? && !e.GatePassed?
    ensures StandingsFrom(s, [Verified(c), Pushed(c)] + more) == IsPushed(c)
  {
    var all := [Verified(c), Pushed(c)] + more;
    assert all[1..][1..] == more;
    Unmoved(IsPushed(c), more);
  }

  lemma GateGoesOn(f: Flow, verdict: Verdict, maxRounds: nat, env: Env, s: Standing)
    requires FlowOk(f, maxRounds) && StandingOk(f, s) && f.at.AtGate?
    ensures GoesOn(f, true, maxRounds, s, AfterGate(f, verdict, maxRounds, env))
  {
    FixGoesOn(f, f.(gated := false), maxRounds, env, s);
  }

  lemma GreenGoesOn(f: Flow, maxRounds: nat, env: Env, s: Standing)
    requires FlowOk(f, maxRounds) && f.at.AtGreen?
    ensures GoesOn(f, false, maxRounds, s, AfterGreen(f, maxRounds, env))
  {
  }

  /** What one resumption keeps: the counters within their bounds, the standing of the worktree's
      commit, and the fuel, which a job that ended uses up and nothing replenishes. */
  lemma ResumeKeeps(f: Flow, r: Reply, maxRounds: nat, env: Env, s: Standing)
    requires Fits(f.at, r) && FlowOk(f, maxRounds) && StandingOk(f, s)
    ensures GoesOn(f, AtJob(f.at), maxRounds, s, Resume(f, r, maxRounds, env))
  {
    if r.Raised? {
      HaltGoesOn(f, f, true, maxRounds, s, StatusSystemic, env.stopPushOk, []);
    } else {
      match f.at
      case Created => StartGoesOn(f, maxRounds, env, s);
      case AtVerify =>
        FixGoesOn(f, f, maxRounds, env, s);
        VerifyGoesOn(f, maxRounds, env, s);
      case AtGate => GateGoesOn(f, GateVerdict(r.first, r.second), maxRounds, env, s);
      case AtGreen => GreenGoesOn(f, maxRounds, env, s);
      case AtMergeFix =>
        var g := f.(head := r.head);
        HaltGoesOn(f, g, true, maxRounds, s, StatusSystemic, env.stopPushOk, [Wrote(r.head)]);
        SessionGoesOn(f, g, maxRounds, env, s, r.result,
          if !env.headOk then Halt(g, StatusSystemic, env.stopPushOk, [Wrote(r.head)])
          else Step(g.(at := AtVerify, mergeCommit := Some(r.head), gated := false), [Wrote(r.head)]));
      case AtImplementer =>
        var g := f.(head := r.head);
        SessionGoesOn(f, g, maxRounds, env, s, r.result, Step(g.(at := AtVerify), [Wrote(r.head)]));
      case AtFix =>
        var g := f.(head := r.head);
        SessionGoesOn(f, g, maxRounds, env, s, r.result, Step(g.(at := AtVerify), [Wrote(r.head)]));
    }
  }

  /** The same without a log: what the scheduler relies on. */
  lemma ResumeFlowOk(f: Flow, r: Reply, maxRounds: nat, env: Env)
    requires Fits(f.at, r) && FlowOk(f, maxRounds) && Resume(f, r, maxRounds, env).Step?
    ensures
      var g := Resume(f, r, maxRounds, env).flow;
      && FlowOk(g, maxRounds) && !g.at.Created? && (f.at.AtGreen? ==> !g.at.AtGreen?) && g.resumed == f.resumed
      && Fuel(g, maxRounds) + (if AtJob(f.at) then 1 else 0) <= Fuel(f, maxRounds)
  {
    var s := if f.at.AtGate? then IsPushed(f.headSha) else if f.at.AtGreen? then IsGated(f.headSha) else Unknown;
    ResumeKeeps(f, r, maxRounds, env, s);
  }

  /** A flow ends integrated only from its merge, and only if it saw the merge go through. */
  lemma IntegratedOnlyByMerge(f: Flow, r: Reply, maxRounds: nat, env: Env)
    requires Fits(f.at, r) && Resume(f, r, maxRounds, env).Step?
    ensures
      var step := Resume(f, r, maxRounds, env);
      if f.at.AtGreen? then
        && step.effects != [] && step.effects[0].MergeCalled? && NoMerge(step.effects[1..])
        && (step.effects[0].seen <==> step.flow.at == Ended(StatusIntegrated))
        && (step.effects[0].seen ==> step.effects[0].landed)
      else
        NoMerge(step.effects) && step.flow.at != Ended(StatusIntegrated)
  {
    if !f.at.AtGreen? {
      hide Resume;
      ResumeMergesOnlyAtGreen(f, r, maxRounds, env);
    }
  }

  lemma {:induction false} Unmoved(s: Standing, es: seq<Effect>)
    requires forall e | e in es :: !e.Wrote? && !e.Verified? && !e.Pushed? && !e.GatePassed?
    ensures StandingsFrom(s, es) == s
    decreases |es|
  {
    if es == [] {
    } else {
      Unmoved(s, es[1..]);
    }
  }

  predicate NoMerge(es: seq<Effect>) {
    forall i | 0 <= i < |es| :: !es[i].MergeCalled?
  }

  predicate Mergeless(step: Step) {
    step.Step? ==> NoMerge(step.effects) && step.flow.at != Ended(StatusIntegrated)
  }

  lemma HaltMergeless(f: Flow, status: Status, push: bool, es: seq<Effect>)
    requires !status.StatusIntegrated? && NoMerge(es)
    ensures Mergeless(Halt(f, status, push, es))
  {
  }

  lemma SessionMergeless(f: Flow, result: SessionResult, env: Env, next: Step)
    requires Mergeless(next)
    ensures Mergeless(AfterSession(f, result, env, next))
  {
    HaltMergeless(f, StatusBlocked, env.stopPushOk, [Wrote(f.head)]);
    HaltMergeless(f, StatusFailed, env.stopPushOk, [Wrote(f.head)]);
  }

  lemma GateMergeless(f: Flow, verdict: Verdict, maxRounds: nat, env: Env)
    ensures Mergeless(AfterGate(f, verdict, maxRounds, env)) && Mergeless(NeedsFix(f, maxRounds, env, []))
  {
    HaltMergeless(f, StatusFailed, env.stopPushOk, []);
    HaltMergeless(f.(gated := false), StatusFailed, env.stopPushOk, []);
  }

  lemma VerifyMergeless(f: Flow, env: Env)
    ensures Mergeless(AfterVerify(f, env))
  {
  }

  lemma StartMergeless(f: Flow, env: Env)
    ensures Mergeless(Start(f, env))
  {
  }

  lemma ResumeMergesOnlyAtGreen(f: Flow, r: Reply, maxRounds: nat, env: Env)
    requires Fits(f.at, r) && !f.at.AtGreen?
    ensures Mergeless(Resume(f, r, maxRounds, env))
  {
    hide AfterSession, AfterGate, NeedsFix, AfterVerify, Start, Halt, GateVerdict;
    HaltMergeless(f, StatusSystemic, env.stopPushOk, []);
    StartMergeless(f, env);
    VerifyMergeless(f, env);
    if r.GateEnded? {
      GateMergeless(f, GateVerdict(r.first, r.second), maxRounds, env);
    } else {
      GateMergeless(f, Fail, maxRounds, env);
    }
    if r.SessionEnded? {
      var g := f.(head := r.head);
      HaltMergeless(g, StatusSystemic, env.stopPushOk, [Wrote(r.head)]);
      SessionMergeless(g, r.result, env, Step(g.(at := AtVerify), [Wrote(r.head)]));
      SessionMergeless(g, r.result, env,
        if !env.headOk then Halt(g, StatusSystemic, env.stopPushOk, [Wrote(r.head)])
        else Step(g.(at := AtVerify, mergeCommit := Some(r.head), gated := false), [Wrote(r.head)]));
    }
  }

  lemma MergePin(f: Flow, r: Reply, maxRounds: nat, env: Env)
    requires f.at.AtGreen? && Fits(f.at, r)
    ensures
      var step := Resume(f, r, maxRounds, env);
      step.Step? && step.effects != [] && step.effects[0].MergeCalled? && step.effects[0].pin == f.headSha
  {
  }

  lemma ResumePins(f: Flow, r: Reply, maxRounds: nat, env: Env, s: Standing)
    requires Fits(f.at, r) && FlowOk(f, maxRounds) && StandingOk(f, s) && Resume(f, r, maxRounds, env).Step?
    ensures Pinned(s, Resume(f, r, maxRounds, env).effects)
  {
    hide Resume, FlowOk;
    var es := Resume(f, r, maxRounds, env).effects;
    IntegratedOnlyByMerge(f, r, maxRounds, env);
    if f.at.AtGreen? {
      MergePin(f, r, maxRounds, env);
      NoMergePinned(Observe(s, es[0]), es[1..]);
    } else {
      NoMergePinned(s, es);
    }
  }

  lemma {:induction false} NoMergePinned(s: Standing, es: seq<Effect>)
    requires NoMerge(es)
    ensures Pinned(s, es)
    decreases |es|
  {
    if es == [] {
    } else {
      NoMergePinned(Observe(s, es[0]), es[1..]);
    }
  }

  /** In every run of a flow, whatever its jobs answer, each merge is pinned to a commit that passed
      verify, was then pushed, and then got a gate PASS, with no writing session in between. */
  lemma MergesArePinned(resumed: bool, prior: PrState, maxRounds: nat, script: seq<(Reply, Env)>, k: nat)
    returns (v: nat, p: nat, g: nat)
    requires
      var log := Drive(NewFlow(resumed, prior), [], maxRounds, script).1;
      k < |log| && log[k].MergeCalled?
    ensures
      var log := Drive(NewFlow(resumed, prior), [], maxRounds, script).1;
      Cleared(log[..k], log[k].pin, v, p, g)
  {
    var log := Drive(NewFlow(resumed, prior), [], maxRounds, script).1;
    DrivePins(NewFlow(resumed, prior), [], maxRounds, script, k);
    v, p, g := StandingsJustified(log[..k]);
  }

  lemma {:induction false} DrivePins(f: Flow, log: seq<Effect>, maxRounds: nat, script: seq<(Reply, Env)>, k: nat)
    requires FlowOk(f, maxRounds) && StandingOk(f, Standings(log))
    requires
      var full := Drive(f, log, maxRounds, script).1;
      |log| <= k < |full| && full[k].MergeCalled?
    ensures
      var full := Drive(f, log, maxRounds, script).1;
      log <= full && Standings(full[..k]) == IsGated(full[k].pin)
    decreases |script|
  {
    hide Resume, FlowOk, StandingOk, Pinned, Standings, StandingsFrom, Fuel;
    var step := Resume(f, script[0].0, maxRounds, script[0].1);
    var more := log + step.effects;
    var full := Drive(f, log, maxRounds, script).1;
    ResumeKeeps(f, script[0].0, maxRounds, script[0].1, Standings(log));
    ResumePins(f, script[0].0, maxRounds, script[0].1, Standings(log));
    StandingsAppend(log, step.effects);
    DriveExtends(step.flow, more, maxRounds, script[1..]);
    if k < |more| {
      PinnedAt(log, step.effects, k - |log|);
      assert full[..k] == more[..k] == log + step.effects[..k - |log|];
    } else {
      DrivePins(step.flow, more, maxRounds, script[1..], k);
    }
  }

  lemma {:induction false} DriveExtends(f: Flow, log: seq<Effect>, maxRounds: nat, script: seq<(Reply, Env)>)
    ensures log <= Drive(f, log, maxRounds, script).1
    decreases |script|
  {
    if script == [] || !Fits(f.at, script[0].0) {
    } else {
      var step := Resume(f, script[0].0, maxRounds, script[0].1);
      if step.Step? {
        DriveExtends(step.flow, log + step.effects, maxRounds, script[1..]);
      }
    }
  }

  function JobsEnded(f: Flow, maxRounds: nat, script: seq<(Reply, Env)>): nat
    decreases |script|
  {
    if script == [] || !Fits(f.at, script[0].0) then 0
    else
      (if AtJob(f.at) then 1 else 0) +
      match Resume(f, script[0].0, maxRounds, script[0].1)
      case Crash => 0
      case Step(g, _) => JobsEnded(g, maxRounds, script[1..])
  }

  /** A flow runs at most 6R+3 jobs, whatever they answer. */
  lemma JobsAreBounded(resumed: bool, prior: PrState, maxRounds: nat, script: seq<(Reply, Env)>)
    ensures JobsEnded(NewFlow(resumed, prior), maxRounds, script) <= 6 * maxRounds + 3
  {
    JobsWithinFuel(NewFlow(resumed, prior), maxRounds, script, Unknown);
  }

  lemma {:induction false} JobsWithinFuel(f: Flow, maxRounds: nat, script: seq<(Reply, Env)>, s: Standing)
    requires FlowOk(f, maxRounds) && StandingOk(f, s)
    ensures JobsEnded(f, maxRounds, script) <= Fuel(f, maxRounds)
    decreases |script|
  {
    if script == [] || !Fits(f.at, script[0].0) {
    } else {
      var step := Resume(f, script[0].0, maxRounds, script[0].1);
      ResumeKeeps(f, script[0].0, maxRounds, script[0].1, s);
      if step.Step? {
        JobsWithinFuel(step.flow, maxRounds, script[1..], StandingsFrom(s, step.effects));
      }
    }
  }

  // The ticket's card.

  /** A suspended flow and its ticket's card agree. */
  predicate CardOk(f: Flow, card: Card) {
    match f.at
    case Created =>
      if f.resumed then In(card, InReview) && card.pr == Open
      else In(card, Queued) && card.pr in {NoPr, Closed} && f.prior == card.pr
    case Ended(StatusIntegrated) => In(card, Integrated) && card.pr == Merged
    case Ended(status) => In(card, StopLabel(status))
    case _ =>
      if f.hasPr then In(card, InReview) && card.pr == Open else In(card, InProgress) && card.pr in {NoPr, Closed}
  }

  predicate CardGoesOn(card: Card, step: Step) {
    step.Step? ==> AlwaysLegit(card, step.effects) && CardOk(step.flow, ApplyAll(card, step.effects))
  }

  predicate Held(card: Card) {
    In(card, InProgress) || In(card, InReview)
  }

  lemma OneEffect(card: Card, e: Effect)
    requires Legit(card) && Legit(Apply(card, e))
    ensures AlwaysLegit(card, [e]) && ApplyAll(card, [e]) == Apply(card, e)
  {
    assert [e][1..] == [];
    assert AlwaysLegit(Apply(card, e), []);
  }

  lemma OneQuiet(card: Card, e: Effect)
    requires Legit(card) && (e.Wrote? || e.Verified? || e.Pushed? || e.GatePassed? || e.BranchDeleted?)
    ensures AlwaysLegit(card, [e]) && ApplyAll(card, [e]) == card
  {
    OneEffect(card, e);
  }

  lemma LabelAfter(card: Card, es: seq<Effect>, last: Effect)
    requires AlwaysLegit(card, es) && Legit(Apply(ApplyAll(card, es), last))
    ensures AlwaysLegit(card, es + [last]) && ApplyAll(card, es + [last]) == Apply(ApplyAll(card, es), last)
  {
    LegitPrefix(card, es, |es|);
    assert es[..|es|] == es;
    AlwaysLegitAppend(card, es, [last]);
    ApplyAllAppend(card, es, [last]);
  }

  lemma MaybePushed(card: Card, es: seq<Effect>, head: Commit, push: bool)
    requires AlwaysLegit(card, es)
    ensures
      var pushed := es + if push then [Pushed(head)] else [];
      AlwaysLegit(card, pushed) && ApplyAll(card, pushed) == ApplyAll(card, es)
  {
    if push {
      LegitPrefix(card, es, |es|);
      assert es[..|es|] == es;
      OneQuiet(ApplyAll(card, es), Pushed(head));
      AlwaysLegitAppend(card, es, [Pushed(head)]);
      ApplyAllAppend(card, es, [Pushed(head)]);
    } else {
      assert es + [] == es;
    }
  }

  /** Giving a ticket up is legit from any card a flow still holds. */
  lemma HaltCard(card: Card, f: Flow, status: Status, push: bool, es: seq<Effect>)
    requires !status.StatusIntegrated? && AlwaysLegit(card, es) && Held(ApplyAll(card, es))
    ensures CardGoesOn(card, Halt(f, status, push, es))
  {
    hide AlwaysLegit, ApplyAll, Legit;
    var before := ApplyAll(card, es);
    var pushed: seq<Effect> := if push then [Pushed(f.head)] else [];
    MaybePushed(card, es, f.head, push);
    var last := Labelled({StopLabel(status)}, {InProgress, InReview});
    StoppedCard(f, before, status);
    LabelAfter(card, es + pushed, last);
  }

  lemma StoppedCard(f: Flow, card: Card, status: Status)
    requires !status.StatusIntegrated? && Held(card)
    ensures
      var after := Apply(card, Labelled({StopLabel(status)}, {InProgress, InReview}));
      Legit(after) && CardOk(f.(at := Ended(status)), after)
  {
    Relabel(card, if In(card, InProgress) then InProgress else InReview, StopLabel(status), {InProgress, InReview});
  }

  lemma StartCard(f: Flow, env: Env, card: Card)
    requires f.at.Created? && f.hasPr == f.resumed && CardOk(f, card)
    ensures CardGoesOn(card, Start(f, env))
  {
    var claim: seq<Effect> := if f.resumed then [] else [Labelled({InProgress}, {Queued})];
    if !f.resumed {
      Relabel(card, Queued, InProgress, {Queued});
      OneEffect(card, Labelled({InProgress}, {Queued}));
    }
    var claimed := ApplyAll(card, claim);
    assert AlwaysLegit(card, claim) && Held(claimed);
    var gone: seq<Effect> := if !f.resumed && f.prior == Closed then [BranchDeleted] else [];
    OneQuiet(claimed, BranchDeleted);
    assert AlwaysLegit(claimed, gone) && ApplyAll(claimed, gone) == claimed;
    AlwaysLegitAppend(card, claim, gone);
    ApplyAllAppend(card, claim, gone);
    HaltCard(card, f, StatusSystemic, false, claim);
    HaltCard(card, f, StatusSystemic, false, claim + gone);
  }

  lemma SessionCard(f: Flow, g: Flow, env: Env, card: Card, result: SessionResult, next: Step)
    requires Legit(card) && Held(card) && CardGoesOn(card, next)
    ensures CardGoesOn(card, AfterSession(g, result, env, next))
  {
    OneQuiet(card, Wrote(g.head));
    HaltCard(card, g, StatusBlocked, env.stopPushOk, [Wrote(g.head)]);
    HaltCard(card, g, StatusFailed, env.stopPushOk, [Wrote(g.head)]);
  }

  lemma FixCard(f: Flow, maxRounds: nat, env: Env, card: Card)
    requires (f.at.AtVerify? || f.at.AtGate?) && CardOk(f, card)
    ensures CardGoesOn(card, NeedsFix(f, maxRounds, env, []))
  {
    HaltCard(card, f, StatusFailed, env.stopPushOk, []);
  }

  lemma VerifyCard(f: Flow, env: Env, card: Card)
    requires f.at.AtVerify? && CardOk(f, card)
    ensures CardGoesOn(card, AfterVerify(f, env))
  {
    var seen := [Verified(f.head)];
    var pushed := seen + [Pushed(f.head)];
    OneQuiet(card, Verified(f.head));
    LabelAfter(card, seen, Pushed(f.head));
    HaltCard(card, f, StatusSystemic, env.stopPushOk, seen);
    HaltCard(card, f, StatusSystemic, env.stopPushOk, pushed);
    if !f.hasPr {
      LabelAfter(card, pushed, PrCreated);
      HaltCard(card, f, StatusSystemic, env.stopPushOk, pushed + [PrCreated]);
      Relabel(card.(pr := Open), InProgress, InReview, {InProgress});
      LabelAfter(card, pushed + [PrCreated], Labelled({InReview}, {InProgress}));
      assert pushed + [PrCreated] + [Labelled({InReview}, {InProgress})]
          == pushed + [PrCreated, Labelled({InReview}, {InProgress})];
    } else {
      assert pushed + [] == pushed;
    }
  }

  lemma GateCard(f: Flow, verdict: Verdict, maxRounds: nat, env: Env, card: Card)
    requires f.at.AtGate? && f.hasPr && CardOk(f, card)
    ensures CardGoesOn(card, AfterGate(f, verdict, maxRounds, env))
  {
    HaltCard(card, f, StatusFailed, env.stopPushOk, []);
    OneQuiet(card, GatePassed(f.headSha));
    FixCard(f.(gated := false), maxRounds, env, card);
  }

  lemma GreenCard(f: Flow, maxRounds: nat, env: Env, card: Card)
    requires f.at.AtGreen? && f.hasPr && CardOk(f, card)
    ensures CardGoesOn(card, AfterGreen(f, maxRounds, env))
  {
    var landed := env.merge != MergeRefused;
    var merged := env.merge == MergeAccepted || (env.rereadOk && landed);
    var called := [MergeCalled(f.headSha, landed, merged)];
    var after := ApplyAll(card, called);
    OneEffect(card, called[0]);
    assert AlwaysLegit(card, called) && In(after, InReview);
    HaltCard(card, f, StatusSystemic, env.stopPushOk, called);
    HaltCard(card, f, StatusFailed, env.stopPushOk, called);
    if merged {
      Relabel(after, InReview, Integrated, {InReview});
      LabelAfter(card, called, Labelled({Integrated}, {InReview}));
    }
  }

  /** Claim, PR, merge and every way to give up keep exactly one state label on the ticket, one that
      fits its PR, at every instant; integrated only ever appears on a merged PR. */
  lemma ResumeCard(f: Flow, r: Reply, maxRounds: nat, env: Env, card: Card)
    requires Fits(f.at, r) && FlowOk(f, maxRounds) && CardOk(f, card)
    ensures CardGoesOn(card, Resume(f, r, maxRounds, env))
  {
    if r.Raised? {
      HaltCard(card, f, StatusSystemic, env.stopPushOk, []);
    } else {
      match f.at
      case Created => StartCard(f, env, card);
      case AtVerify =>
        FixCard(f, maxRounds, env, card);
        VerifyCard(f, env, card);
      case AtGate => GateCard(f, GateVerdict(r.first, r.second), maxRounds, env, card);
      case AtGreen => GreenCard(f, maxRounds, env, card);
      case AtMergeFix =>
        var g := f.(head := r.head);
        OneQuiet(card, Wrote(r.head));
        HaltCard(card, g, StatusSystemic, env.stopPushOk, [Wrote(r.head)]);
        SessionCard(f, g, env, card, r.result,
          if !env.headOk then Halt(g, StatusSystemic, env.stopPushOk, [Wrote(r.head)])
          else Step(g.(at := AtVerify, mergeCommit := Some(r.head), gated := false), [Wrote(r.head)]));
      case AtImplementer =>
        var g := f.(head := r.head);
        OneQuiet(card, Wrote(r.head));
        SessionCard(f, g, env, card, r.result, Step(g.(at := AtVerify), [Wrote(r.head)]));
      case AtFix =>
        var g := f.(head := r.head);
        OneQuiet(card, Wrote(r.head));
        SessionCard(f, g, env, card, r.result, Step(g.(at := AtVerify), [Wrote(r.head)]));
    }
  }

  /** So a whole run keeps the card legit at every instant. */
  lemma {:induction false} DriveCard(f: Flow, log: seq<Effect>, maxRounds: nat, script: seq<(Reply, Env)>, card: Card)
    requires FlowOk(f, maxRounds) && StandingOk(f, Standings(log))
    requires AlwaysLegit(card, log) && CardOk(f, ApplyAll(card, log))
    ensures
      var (g, full) := Drive(f, log, maxRounds, script);
      AlwaysLegit(card, full) && CardOk(g, ApplyAll(card, full))
    decreases |script|
  {
    if script == [] || !Fits(f.at, script[0].0) {
    } else {
      var step := Resume(f, script[0].0, maxRounds, script[0].1);
      if step.Step? {
        ResumeKeeps(f, script[0].0, maxRounds, script[0].1, Standings(log));
        ResumeCard(f, script[0].0, maxRounds, script[0].1, ApplyAll(card, log));
        StandingsAppend(log, step.effects);
        AlwaysLegitAppend(card, log, step.effects);
        ApplyAllAppend(card, log, step.effects);
        DriveCard(step.flow, log + step.effects, maxRounds, script[1..], card);
      }
    }
  }
}

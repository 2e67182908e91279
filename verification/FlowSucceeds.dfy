/** What a ticket flow and an integration check are for: with good answers they succeed, and the fix
    rounds they are given are exactly `gate_fix_rounds`. */
module FlowSucceeds {
  import opened Wrappers
  import opened Board
  import opened Markers
  import opened TicketFlow
  import opened TicketFlowProofs
  import opened IntegrationCheck

  /** Every git and forge call goes through. */
  predicate AllGoes(env: Env) {
    && env.latestPrOk && env.deleteOk && env.addTreeOk && env.pushOk && env.headOk
    && env.create == PrOpened && env.merge == MergeAccepted
  }

  predicate SaysDone(r: Reply) {
    r.SessionEnded? && OutcomeOf(r.result) == OutcomeDone
  }

  predicate SaysPass(r: Reply) {
    r.GateEnded? && GateVerdict(r.first, r.second) == Pass
  }

  predicate SaysFail(r: Reply) {
    r.GateEnded? && GateVerdict(r.first, r.second) == Fail
  }

  /** One answer that moves the flow to its next yield, or to its end. */
  lemma DriveFirst(f: Flow, log: seq<Effect>, maxRounds: nat, r: Reply, env: Env, tail: seq<(Reply, Env)>, step: Step)
    requires Fits(f.at, r) && step.Step? && Resume(f, r, maxRounds, env) == step
    ensures Drive(f, log, maxRounds, [(r, env)] + tail) == Drive(step.flow, log + step.effects, maxRounds, tail)
  {
    hide Resume, Fits;
    assert ([(r, env)] + tail)[1..] == tail;
  }

  lemma DriveEnded(f: Flow, log: seq<Effect>, maxRounds: nat, tail: seq<(Reply, Env)>)
    requires f.at.Ended?
    ensures Drive(f, log, maxRounds, tail) == (f, log)
  {
  }

  /** The flow once its code is verified, pushed, and in a pull request. */
  function Opened(f: Flow): Flow {
    f.(at := AtGate, headSha := f.head, hasPr := true)
  }

  lemma VerifyGreen(f: Flow, maxRounds: nat, env: Env)
    requires f.at.AtVerify? && !f.gated && AllGoes(env)
    ensures
      var step := Resume(f, VerifyEnded(true), maxRounds, env);
      && step.Step? && step.flow == Opened(f) && |step.effects| >= 2
      && step.effects[0] == Verified(f.head) && step.effects[1] == Pushed(f.head)
  {
  }

  lemma GateGreen(f: Flow, maxRounds: nat, gate: Reply, env: Env)
    requires f.at.AtGate? && SaysPass(gate)
    ensures Resume(f, gate, maxRounds, env) == Step(f.(at := AtGreen, gated := true), [GatePassed(f.headSha)])
  {
    hide GateVerdict;
  }

  lemma MergeGoes(f: Flow, maxRounds: nat, env: Env)
    requires f.at.AtGreen? && AllGoes(env)
    ensures Resume(f, Go, maxRounds, env) ==
      Step(f.(at := Ended(StatusIntegrated)), [MergeCalled(f.headSha, true, true), Labelled({Integrated}, {InReview})])
  {
  }

  function Success(gate: Reply, env: Env): seq<(Reply, Env)> {
    [(VerifyEnded(true), env)] + ([(gate, env)] + ([(Go, env)] + []))
  }

  /** A green verify, a PASS and a green branch integrate the ticket, merging the commit of the verified
      worktree. */
  lemma GoodAnswersIntegrate(f: Flow, log: seq<Effect>, maxRounds: nat, gate: Reply, env: Env)
    requires f.at.AtVerify? && !f.gated && SaysPass(gate) && AllGoes(env)
    ensures
      var (g, full) := Drive(f, log, maxRounds, Success(gate, env));
      g.at == Ended(StatusIntegrated) && |full| >= 2 && full[|full| - 2] == MergeCalled(f.head, true, true)
  {
    hide Resume, Drive, GateVerdict;
    VerifyGreen(f, maxRounds, env);
    var a := Resume(f, VerifyEnded(true), maxRounds, env);
    DriveFirst(f, log, maxRounds, VerifyEnded(true), env, [(gate, env)] + ([(Go, env)] + []), a);
    GateGreen(a.flow, maxRounds, gate, env);
    var b := Resume(a.flow, gate, maxRounds, env);
    DriveFirst(a.flow, log + a.effects, maxRounds, gate, env, [(Go, env)] + [], b);
    MergeGoes(b.flow, maxRounds, env);
    var c := Resume(b.flow, Go, maxRounds, env);
    DriveFirst(b.flow, log + a.effects + b.effects, maxRounds, Go, env, [], c);
    DriveEnded(c.flow, log + a.effects + b.effects + c.effects, maxRounds, []);
  }

  /** A verify or a gate that refuses the code. */
  predicate Refuses(f: Flow, r: Reply) {
    (f.at.AtVerify? && r == VerifyEnded(false)) || (f.at.AtGate? && SaysFail(r))
  }

  /** A refusal fails the ticket exactly when no round is left; otherwise it asks for a fix. */
  lemma RefusalAsksForAFix(f: Flow, refusal: Reply, maxRounds: nat, env: Env)
    requires Refuses(f, refusal)
    ensures Fits(f.at, refusal)
    ensures
      var step := Resume(f, refusal, maxRounds, env);
      && step.Step? && (step.flow.at == Ended(StatusFailed) <==> f.rounds >= maxRounds)
      && (f.rounds < maxRounds ==> step == Step(f.(at := AtFix, rounds := f.rounds + 1, gated := false), []))
  {
    hide GateVerdict, AfterVerify, AfterGreen, Start, AfterSession, Resume, NeedsFix, Fits;
    RefusalResumes(f, refusal, maxRounds, env);
    FixLimit(f, maxRounds, env);
    FixLimit(f.(gated := false), maxRounds, env);
  }

  lemma RefusalResumes(f: Flow, refusal: Reply, maxRounds: nat, env: Env)
    requires Refuses(f, refusal)
    ensures Fits(f.at, refusal)
    ensures Resume(f, refusal, maxRounds, env) ==
      NeedsFix(if f.at.AtGate? then f.(gated := false) else f, maxRounds, env, [])
  {
    hide GateVerdict, NeedsFix;
  }

  lemma FixLimit(f: Flow, maxRounds: nat, env: Env)
    ensures
      var step := NeedsFix(f, maxRounds, env, []);
      && step.Step? && (step.flow.at == Ended(StatusFailed) <==> f.rounds >= maxRounds)
      && (f.rounds < maxRounds ==> step == Step(f.(at := AtFix, rounds := f.rounds + 1, gated := false), []))
  {
  }

  lemma FixReturns(f: Flow, fix: Reply, maxRounds: nat, env: Env)
    requires f.at.AtFix? && SaysDone(fix)
    ensures Fits(f.at, fix)
    ensures Resume(f, fix, maxRounds, env) == Step(f.(at := AtVerify, head := fix.head), [Wrote(fix.head)])
  {
    hide OutcomeOf;
  }

  /** A refusal, by a red verify or by the gate after a green one, and the fix session that repairs it. */
  datatype Repair = RedVerify(fix: Reply) | GateFail(gate: Reply, fix: Reply)

  predicate RepairOk(p: Repair) {
    SaysDone(p.fix) && (p.GateFail? ==> SaysFail(p.gate))
  }

  function RepairAnswers(p: Repair, env: Env, tail: seq<(Reply, Env)>): seq<(Reply, Env)> {
    var fixed := [(p.fix, env)] + tail;
    match p
    case RedVerify(_) => [(VerifyEnded(false), env)] + fixed
    case GateFail(gate, _) => [(VerifyEnded(true), env)] + ([(gate, env)] + fixed)
  }

  /** The flow at the verify after the repair. */
  function Repaired(f: Flow, p: Repair): Flow
    requires RepairOk(p)
  {
    (if p.GateFail? then Opened(f) else f).(at := AtVerify, rounds := f.rounds + 1, gated := false, head := p.fix.head)
  }

  function OpenLog(f: Flow): seq<Effect> {
    [Verified(f.head), Pushed(f.head)] + if f.hasPr then [] else [PrCreated, Labelled({InReview}, {InProgress})]
  }

  function RepairLog(f: Flow, p: Repair): seq<Effect>
    requires RepairOk(p)
  {
    (if p.GateFail? then OpenLog(f) else []) + [Wrote(p.fix.head)]
  }

  lemma Opens(f: Flow, maxRounds: nat, env: Env)
    requires f.at.AtVerify? && !f.gated && AllGoes(env)
    ensures Resume(f, VerifyEnded(true), maxRounds, env) == Step(Opened(f), OpenLog(f))
  {
  }

  /** The flow is refused, and goes to its fix session. */
  lemma RefusedAndFixed(f: Flow, log: seq<Effect>, maxRounds: nat, refusal: Reply, fix: Reply, env: Env,
                        tail: seq<(Reply, Env)>)
    requires Refuses(f, refusal) && f.rounds < maxRounds && SaysDone(fix)
    ensures
      var g := f.(at := AtVerify, rounds := f.rounds + 1, gated := false, head := fix.head);
      Drive(f, log, maxRounds, [(refusal, env)] + ([(fix, env)] + tail)) ==
        Drive(g, log + [Wrote(fix.head)], maxRounds, tail)
  {
    hide Resume, Drive, Fits, Refuses, OutcomeOf;
    RefusalAsksForAFix(f, refusal, maxRounds, env);
    var a := f.(at := AtFix, rounds := f.rounds + 1, gated := false);
    DriveFirst(f, log, maxRounds, refusal, env, [(fix, env)] + tail, Step(a, []));
    FixReturns(a, fix, maxRounds, env);
    assert log + [] == log;
    DriveFirst(a, log, maxRounds, fix, env, tail, Step(a.(at := AtVerify, head := fix.head), [Wrote(fix.head)]));
  }

  lemma RefusedForGood(f: Flow, log: seq<Effect>, maxRounds: nat, refusal: Reply, env: Env, tail: seq<(Reply, Env)>)
    requires Refuses(f, refusal) && f.rounds >= maxRounds
    ensures Drive(f, log, maxRounds, [(refusal, env)] + tail).0.at == Ended(StatusFailed)
  {
    hide Resume, Drive, Fits, Refuses;
    RefusalAsksForAFix(f, refusal, maxRounds, env);
    var step := Resume(f, refusal, maxRounds, env);
    DriveFirst(f, log, maxRounds, refusal, env, tail, step);
    DriveEnded(step.flow, log + step.effects, maxRounds, tail);
  }

  /** Up to the refusal: a gate is reached through a green verify, which pushes and opens the PR. */
  lemma UpToGate(f: Flow, log: seq<Effect>, maxRounds: nat, env: Env, tail: seq<(Reply, Env)>)
    requires f.at.AtVerify? && !f.gated && AllGoes(env)
    ensures Drive(f, log, maxRounds, [(VerifyEnded(true), env)] + tail) ==
      Drive(Opened(f), log + OpenLog(f), maxRounds, tail)
  {
    hide Resume, Drive, OpenLog, Opened;
    Opens(f, maxRounds, env);
    FitsVerify(f, VerifyEnded(true));
    DriveFirst(f, log, maxRounds, VerifyEnded(true), env, tail, Step(Opened(f), OpenLog(f)));
  }

  lemma FitsVerify(f: Flow, r: Reply)
    requires f.at.AtVerify? && r.VerifyEnded?
    ensures Fits(f.at, r)
  {
  }

  /** One refusal: with a round left it is repaired, with none left the ticket fails. */
  lemma OneRefusal(f: Flow, log: seq<Effect>, maxRounds: nat, p: Repair, env: Env, tail: seq<(Reply, Env)>)
    requires f.at.AtVerify? && !f.gated && RepairOk(p) && AllGoes(env)
    ensures
      var (g, full) := Drive(f, log, maxRounds, RepairAnswers(p, env, tail));
      if f.rounds < maxRounds then
        (g, full) == Drive(Repaired(f, p), log + RepairLog(f, p), maxRounds, tail)
      else g.at == Ended(StatusFailed)
  {
    hide Drive, Resume, OpenLog, OutcomeOf, GateVerdict, AllGoes;
    var fixed := [(p.fix, env)] + tail;
    var g, refusal, before := f, VerifyEnded(false), log;
    if p.GateFail? {
      UpToGate(f, log, maxRounds, env, [(p.gate, env)] + fixed);
      g, refusal, before := Opened(f), p.gate, log + OpenLog(f);
    }
    if f.rounds < maxRounds {
      RefusedAndFixed(g, before, maxRounds, refusal, p.fix, env, tail);
      assert before + [Wrote(p.fix.head)] == log + RepairLog(f, p);
    } else {
      RefusedForGood(g, before, maxRounds, refusal, env, fixed);
    }
  }

  function Repairs(ps: seq<Repair>, env: Env, tail: seq<(Reply, Env)>): seq<(Reply, Env)> {
    if ps == [] then tail else RepairAnswers(ps[0], env, Repairs(ps[1..], env, tail))
  }

  predicate AllRepairs(ps: seq<Repair>) {
    forall i | 0 <= i < |ps| :: RepairOk(ps[i])
  }

  function RepairedBy(f: Flow, ps: seq<Repair>): Flow
    requires AllRepairs(ps)
    decreases |ps|
  {
    if ps == [] then f else RepairedBy(Repaired(f, ps[0]), ps[1..])
  }

  function RepairsLog(f: Flow, ps: seq<Repair>): seq<Effect>
    requires AllRepairs(ps)
    decreases |ps|
  {
    if ps == [] then [] else RepairLog(f, ps[0]) + RepairsLog(Repaired(f, ps[0]), ps[1..])
  }

  /** A flow goes through as many repairs as rounds are left, whatever refused, and arrives at its next
      verify with the head of the last fix session. */
  lemma {:induction false} RoundsAreGiven(f: Flow, log: seq<Effect>, maxRounds: nat, ps: seq<Repair>, env: Env,
                                          tail: seq<(Reply, Env)>)
    requires f.at.AtVerify? && !f.gated && f.rounds + |ps| <= maxRounds && AllRepairs(ps) && AllGoes(env)
    ensures
      var g := RepairedBy(f, ps);
      && Drive(f, log, maxRounds, Repairs(ps, env, tail)) == Drive(g, log + RepairsLog(f, ps), maxRounds, tail)
      && g.at.AtVerify? && !g.gated && g.rounds == f.rounds + |ps|
      && g.head == (if ps == [] then f.head else ps[|ps| - 1].fix.head)
    decreases |ps|
  {
    hide Drive, RepairAnswers, AllGoes, RepairLog, SaysDone, SaysFail;
    if ps == [] {
      assert log + [] == log;
    } else {
      OneRefusal(f, log, maxRounds, ps[0], env, Repairs(ps[1..], env, tail));
      RoundsAreGiven(Repaired(f, ps[0]), log + RepairLog(f, ps[0]), maxRounds, ps[1..], env, tail);
      assert log + RepairsLog(f, ps) == log + RepairLog(f, ps[0]) + RepairsLog(Repaired(f, ps[0]), ps[1..]);
    }
  }

  /** A ticket that needs n fix rounds before it passes verify and gate, in any mix of red verifies and
      gate FAILs, is integrated exactly if n <= R: otherwise it fails at the refusal with no round left. */
  lemma {:induction false} NeededRounds(f: Flow, log: seq<Effect>, maxRounds: nat, ps: seq<Repair>, gate: Reply,
                                         env: Env)
    requires f.at.AtVerify? && !f.gated && f.rounds <= maxRounds
    requires AllRepairs(ps) && SaysPass(gate) && AllGoes(env)
    ensures
      Drive(f, log, maxRounds, Repairs(ps, env, Success(gate, env))).0.at ==
        Ended(if f.rounds + |ps| <= maxRounds then StatusIntegrated else StatusFailed)
    decreases |ps|
  {
    hide Drive, RepairAnswers, AllGoes, RepairLog, SaysDone, SaysFail, SaysPass, Success;
    if ps == [] {
      GoodAnswersIntegrate(f, log, maxRounds, gate, env);
    } else {
      OneRefusal(f, log, maxRounds, ps[0], env, Repairs(ps[1..], env, Success(gate, env)));
      if f.rounds < maxRounds {
        NeededRounds(Repaired(f, ps[0]), log + RepairLog(f, ps[0]), maxRounds, ps[1..], gate, env);
      }
    }
  }

  // A merge refused because the integration branch moved.

  predicate Conflicts(env: Env) {
    env.merge == MergeRefused && env.rereadOk && env.behind
  }

  /** A refused merge: only a moved branch asks for a merge-fix, as long as one is left; their count is
      apart from the fix rounds. Every other refusal ends the ticket as systemic. */
  lemma RefusedMerge(f: Flow, maxRounds: nat, env: Env)
    requires f.at.AtGreen? && env.merge == MergeRefused
    ensures
      var step := Resume(f, Go, maxRounds, env);
      && step.Step?
      && (step.flow.at == Ended(StatusSystemic) <==> !Conflicts(env))
      && (step.flow.at == Ended(StatusFailed) <==> Conflicts(env) && f.mergeRounds >= maxRounds)
      && (Conflicts(env) && f.mergeRounds < maxRounds ==>
            step == Step(f.(at := AtMergeFix, mergeRounds := f.mergeRounds + 1),
                         [MergeCalled(f.headSha, false, false)]))
  {
    GoIsMerge(f, maxRounds, env);
    hide Resume;
  }

  lemma GoIsMerge(f: Flow, maxRounds: nat, env: Env)
    requires f.at.AtGreen?
    ensures Fits(f.at, Go) && Resume(f, Go, maxRounds, env) == AfterGreen(f, maxRounds, env)
  {
    hide AfterGreen;
  }

  lemma MergeFixReturns(f: Flow, fix: Reply, maxRounds: nat, env: Env)
    requires f.at.AtMergeFix? && SaysDone(fix) && env.headOk
    ensures Resume(f, fix, maxRounds, env) ==
      Step(f.(at := AtVerify, head := fix.head, mergeCommit := Some(fix.head), gated := false), [Wrote(fix.head)])
  {
    hide OutcomeOf;
  }

  lemma VerifyAgain(f: Flow, maxRounds: nat, env: Env)
    requires f.at.AtVerify? && !f.gated && f.hasPr && AllGoes(env)
    ensures Resume(f, VerifyEnded(true), maxRounds, env) ==
      Step(f.(at := AtGate, headSha := f.head), [Verified(f.head), Pushed(f.head)])
  {
  }

  /** The answers of one conflict: refused, repaired, and cleared again up to the wait for green. */
  function OneConflict(done: SessionResult, head: Commit, gate: Reply, refused: Env, env: Env): seq<(Reply, Env)> {
    [(Go, refused), (SessionEnded(done, head), env), (VerifyEnded(true), env), (gate, env)]
  }

  function AfterConflict(f: Flow, head: Commit): Flow {
    f.(at := AtGreen, mergeRounds := f.mergeRounds + 1, head := head, headSha := head,
       mergeCommit := Some(head), gated := true)
  }

  function ConflictLog(f: Flow, head: Commit): seq<Effect> {
    [MergeCalled(f.headSha, false, false), Wrote(head), Verified(head), Pushed(head), GatePassed(head)]
  }

  /** After a merge-fix everything is cleared again, for the new commit, before the next attempt. */
  lemma ConflictIsCleared(f: Flow, log: seq<Effect>, maxRounds: nat, done: SessionResult, head: Commit, gate: Reply,
                          refused: Env, env: Env, tail: seq<(Reply, Env)>)
    requires f.at.AtGreen? && f.hasPr && f.mergeRounds < maxRounds && Conflicts(refused)
    requires OutcomeOf(done) == OutcomeDone && SaysPass(gate) && AllGoes(env)
    ensures Drive(f, log, maxRounds, OneConflict(done, head, gate, refused, env) + tail)
         == Drive(AfterConflict(f, head), log + ConflictLog(f, head), maxRounds, tail)
  {
    hide Resume, Drive, OutcomeOf, GateVerdict;
    var fix := SessionEnded(done, head);
    var s2, s1, s0 := [(gate, env)] + tail, [(VerifyEnded(true), env)] + ([(gate, env)] + tail),
                      [(fix, env)] + ([(VerifyEnded(true), env)] + ([(gate, env)] + tail));
    assert OneConflict(done, head, gate, refused, env) + tail == [(Go, refused)] + s0;
    RefusedMerge(f, maxRounds, refused);
    var a := Resume(f, Go, maxRounds, refused);
    DriveFirst(f, log, maxRounds, Go, refused, s0, a);
    MergeFixReturns(a.flow, fix, maxRounds, env);
    var b := Resume(a.flow, fix, maxRounds, env);
    DriveFirst(a.flow, log + a.effects, maxRounds, fix, env, s1, b);
    VerifyAgain(b.flow, maxRounds, env);
    var c := Resume(b.flow, VerifyEnded(true), maxRounds, env);
    DriveFirst(b.flow, log + a.effects + b.effects, maxRounds, VerifyEnded(true), env, s2, c);
    GateGreen(c.flow, maxRounds, gate, env);
    var d := Resume(c.flow, gate, maxRounds, env);
    DriveFirst(c.flow, log + a.effects + b.effects + c.effects, maxRounds, gate, env, tail, d);
    assert log + a.effects + b.effects + c.effects + d.effects == log + ConflictLog(f, head);
  }

  function AllConflicts(done: SessionResult, heads: seq<Commit>, gate: Reply, refused: Env, env: Env)
    : seq<(Reply, Env)>
  {
    if heads == [] then []
    else OneConflict(done, heads[0], gate, refused, env) + AllConflicts(done, heads[1..], gate, refused, env)
  }

  /** A cleared ticket whose merge meets n conflicts in a row is integrated if n is at most R, whatever
      fix rounds it used before, and fails if n is more. */
  lemma {:induction false} NeededMergeFixes(f: Flow, log: seq<Effect>, maxRounds: nat, done: SessionResult,
                                            heads: seq<Commit>, gate: Reply, refused: Env, env: Env)
    requires f.at.AtGreen? && f.hasPr && f.mergeRounds <= maxRounds && Conflicts(refused)
    requires OutcomeOf(done) == OutcomeDone && SaysPass(gate) && AllGoes(env)
    ensures
      Drive(f, log, maxRounds, AllConflicts(done, heads, gate, refused, env) + [(Go, env)]).0.at ==
        Ended(if f.mergeRounds + |heads| <= maxRounds then StatusIntegrated else StatusFailed)
    decreases |heads|
  {
    hide Resume, Drive, OutcomeOf, GateVerdict, OneConflict;
    if heads == [] {
      MergeGoes(f, maxRounds, env);
      var step := Resume(f, Go, maxRounds, env);
      assert AllConflicts(done, heads, gate, refused, env) + [(Go, env)] == [(Go, env)] + [];
      DriveFirst(f, log, maxRounds, Go, env, [], step);
      DriveEnded(step.flow, log + step.effects, maxRounds, []);
    } else {
      var rest := AllConflicts(done, heads[1..], gate, refused, env) + [(Go, env)];
      assert AllConflicts(done, heads, gate, refused, env) + [(Go, env)]
          == OneConflict(done, heads[0], gate, refused, env) + rest;
      if f.mergeRounds < maxRounds {
        ConflictIsCleared(f, log, maxRounds, done, heads[0], gate, refused, env, rest);
        NeededMergeFixes(AfterConflict(f, heads[0]), log + ConflictLog(f, heads[0]), maxRounds, done, heads[1..],
                         gate, refused, env);
      } else {
        RefusedMerge(f, maxRounds, refused);
        ConflictOpens(done, heads[0], gate, refused, env, rest);
        var step := Resume(f, Go, maxRounds, refused);
        var later := (OneConflict(done, heads[0], gate, refused, env) + rest)[1..];
        DriveFirst(f, log, maxRounds, Go, refused, later, step);
        DriveEnded(step.flow, log + step.effects, maxRounds, later);
      }
    }
  }

  lemma ConflictOpens(done: SessionResult, head: Commit, gate: Reply, refused: Env, env: Env, rest: seq<(Reply, Env)>)
    ensures
      var script := OneConflict(done, head, gate, refused, env) + rest;
      script != [] && script == [(Go, refused)] + script[1..]
  {
  }

  // How a flow ends.

  predicate Writing(at: Point) {
    at.AtImplementer? || at.AtFix? || at.AtMergeFix?
  }

  /** A healthy writing session whose last lines say BLOCKED, and not DONE, ends its ticket blocked, and only
      that does; one that says DONE, and not BLOCKED, goes on, unless a call fails; any other ends it failed. */
  lemma SessionDecides(f: Flow, r: Reply, maxRounds: nat, env: Env)
    requires Writing(f.at) && r.SessionEnded?
    ensures Fits(f.at, r)
    ensures
      var step := Resume(f, r, maxRounds, env);
      && step.Step?
      && (step.flow.at == Ended(StatusBlocked) <==> Reports(r.result, BLOCKED_LINE, DONE_LINE))
      && (step.flow.at == Ended(StatusFailed) <==>
            !Reports(r.result, BLOCKED_LINE, DONE_LINE) && !Reports(r.result, DONE_LINE, BLOCKED_LINE))
      && (step.flow.at == AtVerify <==>
            Reports(r.result, DONE_LINE, BLOCKED_LINE) && (f.at.AtMergeFix? ==> env.headOk))
  {
    hide OutcomeOf, Resume, Reports;
    OutcomeMeaning(r.result);
    SessionFits(f, r);
    match OutcomeOf(r.result)
    case OutcomeBlocked => SessionBlocked(f, r, maxRounds, env);
    case OutcomeUnparsable => SessionUnusable(f, r, maxRounds, env);
    case OutcomeDone => SessionDone(f, r, maxRounds, env);
  }

  lemma SessionFits(f: Flow, r: Reply)
    requires Writing(f.at) && r.SessionEnded?
    ensures Fits(f.at, r)
  {
  }

  lemma SessionBlocked(f: Flow, r: Reply, maxRounds: nat, env: Env)
    requires Writing(f.at) && r.SessionEnded? && OutcomeOf(r.result) == OutcomeBlocked
    ensures Fits(f.at, r)
    ensures
      var step := Resume(f, r, maxRounds, env);
      step.Step? && step.flow.at == Ended(StatusBlocked)
  {
    hide OutcomeOf;
  }

  lemma SessionUnusable(f: Flow, r: Reply, maxRounds: nat, env: Env)
    requires Writing(f.at) && r.SessionEnded? && OutcomeOf(r.result) == OutcomeUnparsable
    ensures Fits(f.at, r)
    ensures
      var step := Resume(f, r, maxRounds, env);
      step.Step? && step.flow.at == Ended(StatusFailed)
  {
    hide OutcomeOf;
  }

  lemma SessionDone(f: Flow, r: Reply, maxRounds: nat, env: Env)
    requires Writing(f.at) && r.SessionEnded? && OutcomeOf(r.result) == OutcomeDone
    ensures Fits(f.at, r)
    ensures
      var step := Resume(f, r, maxRounds, env);
      && step.Step?
      && step.flow.at == if f.at.AtMergeFix? && !env.headOk then Ended(StatusSystemic) else AtVerify
  {
    hide OutcomeOf;
  }

  /** The label a flow leaves says how it ended. */
  lemma LabelSaysHow(f: Flow, r: Reply, maxRounds: nat, env: Env, card: Card)
    requires Fits(f.at, r) && FlowOk(f, maxRounds) && CardOk(f, card)
    requires Resume(f, r, maxRounds, env).Step? && Resume(f, r, maxRounds, env).flow.at.Ended?
    ensures
      var step := Resume(f, r, maxRounds, env);
      In(ApplyAll(card, step.effects),
         match step.flow.at.status
         case StatusIntegrated => Integrated
         case StatusBlocked => Blocked
         case StatusFailed => FailedIssue
         case StatusSystemic => FailedSystemic)
  {
    ResumeCard(f, r, maxRounds, env, card);
    hide Resume, ApplyAll, AlwaysLegit, FlowOk;
  }

  // Where a PASS comes from.

  predicate NoPass(es: seq<Effect>) {
    forall e | e in es :: !e.GatePassed?
  }

  lemma HaltNoPass(f: Flow, status: Status, push: bool, es: seq<Effect>)
    requires !status.StatusIntegrated? && NoPass(es)
    ensures Halt(f, status, push, es).Step? && NoPass(Halt(f, status, push, es).effects)
  {
  }

  predicate Passless(step: Step) {
    step.Step? ==> NoPass(step.effects)
  }

  lemma SessionNoPass(f: Flow, result: SessionResult, env: Env, next: Step)
    requires Passless(next)
    ensures Passless(AfterSession(f, result, env, next))
  {
    hide OutcomeOf, Halt;
    HaltNoPass(f, StatusBlocked, env.stopPushOk, [Wrote(f.head)]);
    HaltNoPass(f, StatusFailed, env.stopPushOk, [Wrote(f.head)]);
  }

  lemma VerifyNoPass(f: Flow, maxRounds: nat, env: Env)
    ensures Passless(AfterVerify(f, env)) && Passless(NeedsFix(f, maxRounds, env, []))
    ensures Passless(AfterGreen(f, maxRounds, env)) && Passless(Start(f, env))
  {
  }

  /** Nothing but the gate's own PASS counts as one, and it counts for the commit pushed before it. */
  lemma PassComesFromTheGate(f: Flow, r: Reply, maxRounds: nat, env: Env, c: Commit)
    requires Fits(f.at, r) && Resume(f, r, maxRounds, env).Step?
    requires GatePassed(c) in Resume(f, r, maxRounds, env).effects
    ensures f.at.AtGate? && SaysPass(r) && c == f.headSha
  {
    hide GateVerdict, OutcomeOf, AfterSession, AfterVerify, NeedsFix, AfterGreen, Start, Halt;
    HaltNoPass(f, StatusSystemic, env.stopPushOk, []);
    HaltNoPass(f, StatusFailed, env.stopPushOk, []);
    VerifyNoPass(f, maxRounds, env);
    VerifyNoPass(f.(gated := false), maxRounds, env);
    if r.SessionEnded? {
      var g := f.(head := r.head);
      HaltNoPass(g, StatusSystemic, env.stopPushOk, [Wrote(r.head)]);
      SessionNoPass(g, r.result, env, Step(g.(at := AtVerify), [Wrote(r.head)]));
      SessionNoPass(g, r.result, env,
        if !env.headOk then Halt(g, StatusSystemic, env.stopPushOk, [Wrote(r.head)])
        else Step(g.(at := AtVerify, mergeCommit := Some(r.head), gated := false), [Wrote(r.head)]));
    }
  }

  /** And that PASS is the verdict of a healthy session, whose last lines hold it: the first one, or a
      fresh one after a healthy first session that gave no verdict. */
  lemma GatePassMeaning(r: Reply)
    requires r.GateEnded?
    ensures SaysPass(r) <==>
      VerdictOf(r.first) == Pass || (Usable(r.first) && VerdictOf(r.first) == Unparsable && VerdictOf(r.second) == Pass)
  {
    hide ParseVerdict;
  }

  /** The same for a FAIL: a second session is run only if the first one gave no verdict. */
  lemma GateFailMeaning(r: Reply)
    requires r.GateEnded?
    ensures SaysFail(r) <==>
      VerdictOf(r.first) == Fail || (Usable(r.first) && VerdictOf(r.first) == Unparsable && VerdictOf(r.second) == Fail)
  {
    hide ParseVerdict;
  }

  // The integration check.

  predicate AllChecks(env: CheckEnv) {
    env.addDetachedOk && env.addTreeOk && env.pushOk && env.headOk
  }

  lemma DriveCheckFirst(c: Check, log: seq<Effect>, maxRounds: nat, tip: Commit, r: Reply, env: CheckEnv,
                        tail: seq<(Reply, CheckEnv)>, step: CheckStep)
    requires CheckFits(c.at, r) && step.CheckStep? && ResumeCheck(c, r, maxRounds, env, TipAfter(tip, log)) == step
    ensures DriveCheck(c, log, maxRounds, tip, [(r, env)] + tail)
         == DriveCheck(step.check, log + step.effects, maxRounds, tip, tail)
  {
    hide ResumeCheck, CheckFits, TipAfter;
    assert ([(r, env)] + tail)[1..] == tail;
  }

  lemma CheckDone(c: Check, log: seq<Effect>, maxRounds: nat, tip: Commit, tail: seq<(Reply, CheckEnv)>)
    requires c.at.CheckEnded?
    ensures DriveCheck(c, log, maxRounds, tip, tail) == (c, log)
  {
  }

  /** Fix sessions that leave the worktree at `heads`, in order; only the last fix verifies. */
  function FixRounds(done: SessionResult, heads: seq<Commit>, env: CheckEnv): seq<(Reply, CheckEnv)> {
    if heads == [] then []
    else [(SessionEnded(done, heads[0]), env)] + ([(VerifyEnded(|heads| == 1), env)] + FixRounds(done, heads[1..], env))
  }

  lemma FixStep(c: Check, maxRounds: nat, tip: Commit, done: SessionResult, head: Commit, env: CheckEnv)
    requires c.at.AtFixSession? && OutcomeOf(done) == OutcomeDone
    ensures ResumeCheck(c, SessionEnded(done, head), maxRounds, env, tip) ==
      CheckStep(c.(at := AtFixVerify(c.at.round), fixHead := head), [Wrote(head)])
  {
    hide OutcomeOf;
  }

  lemma FixVerifyStep(c: Check, maxRounds: nat, tip: Commit, ok: bool, env: CheckEnv)
    requires c.at.AtFixVerify? && AllChecks(env)
    ensures ResumeCheck(c, VerifyEnded(ok), maxRounds, env, tip) ==
      if ok then CheckStep(c.(at := CheckEnded(CheckGreen(c.fixHead))), [Verified(c.fixHead), Pushed(c.fixHead)])
      else if c.at.round < maxRounds then CheckStep(c.(at := AtFixSession(c.at.round + 1)), [])
      else CheckStep(c.(at := CheckEnded(CheckRed(c.sha))), [])
  {
  }

  lemma {:induction false} FixesNeeded(c: Check, log: seq<Effect>, maxRounds: nat, tip: Commit, done: SessionResult,
                                       heads: seq<Commit>, env: CheckEnv)
    requires c.at.AtFixSession? && c.at.round <= maxRounds && heads != []
    requires OutcomeOf(done) == OutcomeDone && AllChecks(env)
    ensures DriveCheck(c, log, maxRounds, tip, FixRounds(done, heads, env)).0.at ==
      CheckEnded(if c.at.round + |heads| <= maxRounds + 1 then CheckGreen(heads[|heads| - 1]) else CheckRed(c.sha))
    decreases |heads|
  {
    hide OutcomeOf, ResumeCheck, DriveCheck, TipAfter, AllChecks;
    var rest := FixRounds(done, heads[1..], env);
    var fix, verify := SessionEnded(done, heads[0]), VerifyEnded(|heads| == 1);
    FixStep(c, maxRounds, TipAfter(tip, log), done, heads[0], env);
    var a := ResumeCheck(c, fix, maxRounds, env, TipAfter(tip, log));
    DriveCheckFirst(c, log, maxRounds, tip, fix, env, [(verify, env)] + rest, a);
    var mid := log + a.effects;
    FixVerifyStep(a.check, maxRounds, TipAfter(tip, mid), |heads| == 1, env);
    var b := ResumeCheck(a.check, verify, maxRounds, env, TipAfter(tip, mid));
    DriveCheckFirst(a.check, mid, maxRounds, tip, verify, env, rest, b);
    if b.check.at.CheckEnded? {
      CheckDone(b.check, mid + b.effects, maxRounds, tip, rest);
    } else {
      FixesNeeded(b.check, mid + b.effects, maxRounds, tip, done, heads[1..], env);
    }
  }

  /** A red branch that needs n fixes before it verifies is repaired exactly if 1 <= n <= R, and then
      green at the last fix; otherwise it stays red, and that ends the run. */
  lemma NeededFixes(sha: Commit, maxRounds: nat, done: SessionResult, heads: seq<Commit>, env: CheckEnv)
    requires heads != [] && OutcomeOf(done) == OutcomeDone && AllChecks(env)
    ensures
      var script := [(Go, env)] + ([(VerifyEnded(false), env)] + FixRounds(done, heads, env));
      DriveCheck(NewCheck(sha), [], maxRounds, sha, script).0.at ==
        CheckEnded(if |heads| <= maxRounds then CheckGreen(heads[|heads| - 1]) else CheckRed(sha))
  {
    hide OutcomeOf, DriveCheck, TipAfter;
    var rest := FixRounds(done, heads, env);
    var red := VerifyEnded(false);
    var c := NewCheck(sha);
    var a := ResumeCheck(c, Go, maxRounds, env, TipAfter(sha, []));
    DriveCheckFirst(c, [], maxRounds, sha, Go, env, [(red, env)] + rest, a);
    assert [] + a.effects == [];
    var b := ResumeCheck(a.check, red, maxRounds, env, TipAfter(sha, []));
    DriveCheckFirst(a.check, [], maxRounds, sha, red, env, rest, b);
    assert [] + b.effects == [];
    hide ResumeCheck, FixRounds;
    if maxRounds == 0 {
      CheckDone(b.check, [], maxRounds, sha, rest);
    } else {
      FixesNeeded(b.check, [], maxRounds, sha, done, heads, env);
    }
  }
}

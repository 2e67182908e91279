/** The ticket flow as the program writes it: a loop over its local variables that reads the answer to
    each job it yields. It is proved to be the state machine of `TicketFlow`, resumed answer by answer. */
module TicketGenerator {
  import opened Wrappers
  import opened Board
  import opened Markers
  import opened TicketFlow
  import opened TicketFlowProofs

  predicate Answered(script: seq<(Reply, Env)>, i: nat, at: Point) {
    i < |script| && Fits(at, script[i].0)
  }

  lemma NothingFitsTheEnd(at: Point, r: Reply)
    requires at.Ended?
    ensures !Fits(at, r)
  {
  }

  /** One resumption of a suspended flow: the run is over, or it goes on with the next answer. */
  lemma DriveOne(f: Flow, log: seq<Effect>, maxRounds: nat, script: seq<(Reply, Env)>, i: nat)
    requires i <= |script|
    ensures !Answered(script, i, f.at) ==> Drive(f, log, maxRounds, script[i..]) == (f, log)
    ensures Answered(script, i, f.at) ==>
      var step, rest := Resume(f, script[i].0, maxRounds, script[i].1), Drive(f, log, maxRounds, script[i..]);
      && (step.Crash? ==> rest == (f, log))
      && (step.Step? ==> rest == Drive(step.flow, log + step.effects, maxRounds, script[i + 1..]))
      && (step.Step? && step.flow.at.Ended? ==> rest == (step.flow, log + step.effects))
  {
    hide Resume, Fits;
    if Answered(script, i, f.at) {
      assert script[i..][1..] == script[i + 1..];
      var step := Resume(f, script[i].0, maxRounds, script[i].1);
      if step.Step? && step.flow.at.Ended? && script[i + 1..] != [] {
        NothingFitsTheEnd(step.flow.at, script[i + 1..][0].0);
      }
    }
  }

  /** Ends the flow without a merge, with the label of `status`; a push that fails is passed over. */
  method Stop(f: Flow, status: Status, push: bool, done: seq<Effect>) returns (g: Flow, effects: seq<Effect>)
    requires !status.StatusIntegrated?
    ensures Step(g, effects) == Halt(f, status, push, done)
  {
    effects := done;
    if push {
      effects := effects + [Pushed(f.head)];
    }
    effects := effects + [Labelled({StopLabel(status)}, {InProgress, InReview})];
    g := f.(at := Ended(status));
    assert push ==> effects == done + [Pushed(f.head)] + [Labelled({StopLabel(status)}, {InProgress, InReview})];
    assert !push ==> done + [] == done;
  }

  /** Claim, discard the branch of a closed PR, add the worktree. */
  method SetUp(f: Flow, env: Env) returns (ok: bool, g: Flow, effects: seq<Effect>)
    requires f.at.Created?
    ensures Step(g, effects) == Start(f, env) && (ok <==> !g.at.Ended?)
  {
    hide Halt;
    ok, g, effects := true, f, [];
    if !f.resumed {
      effects := [Labelled({InProgress}, {Queued})];
      ok := env.latestPrOk && (f.prior != Closed || env.deleteOk);
      if ok && f.prior == Closed {
        effects := effects + [BranchDeleted];
      }
    }
    assert effects + [] == effects;
    ok := ok && env.addTreeOk;
    if ok {
      g := f.(at := if f.resumed then AtVerify else AtImplementer, head := env.treeHead);
    } else {
      HaltEnds(f, StatusSystemic, false, effects);
      g, effects := Stop(f, StatusSystemic, false, effects);
    }
  }

  lemma HaltEnds(f: Flow, status: Status, push: bool, effects: seq<Effect>)
    requires !status.StatusIntegrated?
    ensures Halt(f, status, push, effects).Step? && Halt(f, status, push, effects).flow.at == Ended(status)
  {
  }

  /** The session ended the flow: where it would have gone on does not matter. */
  ghost predicate StopsAfter(f: Flow, result: SessionResult, env: Env, g: Flow, effects: seq<Effect>) {
    forall next :: Step(g, effects) == AfterSession(f, result, env, next)
  }

  /** Take a writing session's answer: the flow goes on only if it reported done. */
  method TakeSession(f: Flow, r: Reply, env: Env) returns (ok: bool, g: Flow, effects: seq<Effect>)
    requires r.SessionEnded?
    ensures ok <==> OutcomeOf(r.result) == OutcomeDone
    ensures ok ==> g == f.(head := r.head) && effects == [Wrote(r.head)]
    ensures !ok ==> g.at.Ended? && StopsAfter(f.(head := r.head), r.result, env, g, effects)
  {
    hide OutcomeOf, Halt;
    g, effects := f.(head := r.head), [Wrote(r.head)];
    ok := OutcomeOf(r.result) == OutcomeDone;
    if !ok {
      var status := if OutcomeOf(r.result) == OutcomeBlocked then StatusBlocked else StatusFailed;
      HaltEnds(g, status, env.stopPushOk, effects);
      g, effects := Stop(g, status, env.stopPushOk, effects);
    }
  }

  /** Verify is green: push, read the head, open the PR once. */
  method PushAndOpen(f: Flow, env: Env) returns (ok: bool, g: Flow, effects: seq<Effect>)
    ensures Step(g, effects) == AfterVerify(f, env) && (ok <==> !g.at.Ended?)
  {
    hide Halt;
    ok, effects := false, [Verified(f.head)];
    if env.pushOk {
      effects := effects + [Pushed(f.head)];
      if env.headOk {
        if f.hasPr {
          ok := true;
        } else if env.create != PrRefused {
          effects := effects + [PrCreated];
          if env.create == PrOpened {
            effects := effects + [Labelled({InReview}, {InProgress})];
            ok := true;
          }
        }
      }
    }
    if ok {
      g := f.(at := if f.gated then AtGreen else AtGate, headSha := f.head, hasPr := true);
    } else {
      HaltEnds(f, StatusSystemic, env.stopPushOk, effects);
      g, effects := Stop(f, StatusSystemic, env.stopPushOk, effects);
    }
  }

  /** Merges at the pinned head; `fix` is set if the refusal calls for a merge-fix session. */
  method TryMerge(f: Flow, maxRounds: nat, env: Env) returns (fix: bool, g: Flow, effects: seq<Effect>)
    ensures Step(g, effects) == AfterGreen(f, maxRounds, env)
    ensures fix <==> g.at.AtMergeFix?
    ensures !fix ==> g.at.Ended?
  {
    hide Halt;
    var accepted := env.merge == MergeAccepted;
    var anyway := !accepted && env.rereadOk && env.merge == MergeReplyLost;
    effects := [MergeCalled(f.headSha, env.merge != MergeRefused, accepted || anyway)];
    fix := false;
    if accepted || anyway {
      g, effects := f.(at := Ended(StatusIntegrated)), effects + [Labelled({Integrated}, {InReview})];
    } else if !env.rereadOk || !env.behind {
      HaltEnds(f, StatusSystemic, env.stopPushOk, effects);
      g, effects := Stop(f, StatusSystemic, env.stopPushOk, effects);
    } else if f.mergeRounds >= maxRounds {
      HaltEnds(f, StatusFailed, env.stopPushOk, effects);
      g, effects := Stop(f, StatusFailed, env.stopPushOk, effects);
    } else {
      g, fix := f.(at := AtMergeFix, mergeRounds := f.mergeRounds + 1), true;
    }
  }

  /** One more fix session, or the end. */
  method AskForFix(f: Flow, maxRounds: nat, env: Env) returns (ok: bool, g: Flow, effects: seq<Effect>)
    ensures Step(g, effects) == NeedsFix(f, maxRounds, env, [])
    ensures ok <==> g.at.AtFix?
    ensures !ok ==> g.at.Ended?
  {
    hide Halt;
    ok, effects := f.rounds < maxRounds, [];
    if ok {
      g := f.(at := AtFix, rounds := f.rounds + 1, gated := false);
    } else {
      HaltEnds(f, StatusFailed, env.stopPushOk, effects);
      g, effects := Stop(f, StatusFailed, env.stopPushOk, effects);
    }
  }

  /** A job raised: an infrastructure error ends the ticket, anything else escapes. */
  method TakeError(f: Flow, infra: bool, env: Env) returns (g: Flow, effects: seq<Effect>)
    ensures if infra then Step(g, effects) == Halt(f, StatusSystemic, env.stopPushOk, []) else g == f && effects == []
  {
    g, effects := f, [];
    if infra {
      g, effects := Stop(f, StatusSystemic, env.stopPushOk, []);
    }
  }

  /** From one yield to a later one: the run is over, or the flow is at `g` with `log` and goes on. */
  ghost predicate Reaches(f: Flow, before: seq<Effect>, i: nat, again: bool, g: Flow, log: seq<Effect>, j: nat,
                          maxRounds: nat, script: seq<(Reply, Env)>)
  {
    && i <= |script| && j <= |script|
    && if again then i < j && Drive(f, before, maxRounds, script[i..]) == Drive(g, log, maxRounds, script[j..])
       else Drive(f, before, maxRounds, script[i..]) == (g, log)
  }

  lemma ReachesTwice(f: Flow, a: seq<Effect>, i: nat, g: Flow, b: seq<Effect>, j: nat,
                     again: bool, h: Flow, c: seq<Effect>, k: nat, maxRounds: nat, script: seq<(Reply, Env)>)
    requires Reaches(f, a, i, true, g, b, j, maxRounds, script) && Reaches(g, b, j, again, h, c, k, maxRounds, script)
    ensures Reaches(f, a, i, again, h, c, k, maxRounds, script)
  {
    hide Drive;
  }

  /** One resumption, as the generator sees it. */
  lemma ReachesOne(f: Flow, log: seq<Effect>, maxRounds: nat, script: seq<(Reply, Env)>, i: nat)
    requires i <= |script|
    ensures !Answered(script, i, f.at) ==> Reaches(f, log, i, false, f, log, i, maxRounds, script)
    ensures Answered(script, i, f.at) ==>
      var step := Resume(f, script[i].0, maxRounds, script[i].1);
      && (step.Crash? ==> Reaches(f, log, i, false, f, log, i, maxRounds, script))
      && (step.Step? ==> Reaches(f, log, i, true, step.flow, log + step.effects, i + 1, maxRounds, script))
      && (step.Step? && step.flow.at.Ended? ==>
            Reaches(f, log, i, false, step.flow, log + step.effects, i + 1, maxRounds, script))
  {
    hide Drive, Resume;
    DriveOne(f, log, maxRounds, script, i);
  }

  lemma RaisedReaches(f: Flow, log: seq<Effect>, maxRounds: nat, script: seq<(Reply, Env)>, i: nat,
                      g: Flow, effects: seq<Effect>)
    requires Answered(script, i, f.at) && script[i].0.Raised?
    requires if script[i].0.infra then Step(g, effects) == Halt(f, StatusSystemic, script[i].1.stopPushOk, [])
             else g == f && effects == []
    ensures Reaches(f, log, i, false, g, log + effects, i + 1, maxRounds, script)
  {
    hide Drive, Reaches, Halt;
    HaltEnds(f, StatusSystemic, script[i].1.stopPushOk, []);
    ReachesOne(f, log, maxRounds, script, i);
    if !script[i].0.infra {
      assert log + effects == log;
      LaterEnd(f, log, i, f, log, i, i + 1, maxRounds, script);
    }
  }

  lemma LaterEnd(f: Flow, log: seq<Effect>, i: nat, g: Flow, after: seq<Effect>, j: nat, k: nat,
                 maxRounds: nat, script: seq<(Reply, Env)>)
    requires Reaches(f, log, i, false, g, after, j, maxRounds, script) && k <= |script|
    ensures Reaches(f, log, i, false, g, after, k, maxRounds, script)
  {
    hide Drive;
  }

  /** A writing session: the implementer, a fix or a merge-fix. */
  method AwaitSession(f: Flow, before: seq<Effect>, maxRounds: nat, script: seq<(Reply, Env)>, i: nat)
    returns (again: bool, g: Flow, log: seq<Effect>, j: nat)
    requires i <= |script| && f.at in {AtImplementer, AtFix, AtMergeFix}
    ensures Reaches(f, before, i, again, g, log, j, maxRounds, script)
    ensures again ==> g.at == AtVerify
  {
    hide Drive, Reaches, Halt, AfterSession;
    ReachesOne(f, before, maxRounds, script, i);
    again, g, log, j := false, f, before, i;
    if !Answered(script, i, f.at) {
      return;
    }
    var r, env := script[i].0, script[i].1;
    var effects;
    j := i + 1;
    if r.Raised? {
      g, effects := TakeError(f, r.infra, env);
      RaisedReaches(f, before, maxRounds, script, i, g, effects);
      log := before + effects;
      return;
    }
    again, g, effects := TakeSession(f, r, env);
    SessionResumes(f, r, maxRounds, env, again, g, effects);
    if again {
      if f.at.AtMergeFix? {
        if env.headOk {
          g := g.(at := AtVerify, mergeCommit := Some(r.head), gated := false);
        } else {
          again := false;
          HaltEnds(g, StatusSystemic, env.stopPushOk, effects);
          g, effects := Stop(g, StatusSystemic, env.stopPushOk, effects);
        }
      } else {
        g := g.(at := AtVerify);
      }
    }
    log := before + effects;
  }

  /** What a session's answer makes of the flow. */
  lemma SessionResumes(f: Flow, r: Reply, maxRounds: nat, env: Env, ok: bool, g: Flow, effects: seq<Effect>)
    requires Fits(f.at, r) && f.at in {AtImplementer, AtFix, AtMergeFix} && r.SessionEnded?
    requires ok <==> OutcomeOf(r.result) == OutcomeDone
    requires ok ==> g == f.(head := r.head) && effects == [Wrote(r.head)]
    requires !ok ==> StopsAfter(f.(head := r.head), r.result, env, g, effects)
    ensures
      Resume(f, r, maxRounds, env) ==
        if !ok then Step(g, effects)
        else if f.at.AtMergeFix? then
          if env.headOk then Step(g.(at := AtVerify, mergeCommit := Some(r.head), gated := false), effects)
          else Halt(g, StatusSystemic, env.stopPushOk, effects)
        else Step(g.(at := AtVerify), effects)
  {
    hide OutcomeOf, Halt;
  }

  /** Verify, and what follows at once: a green one is pushed and opened, a red one needs a fix. */
  method AwaitVerify(f: Flow, before: seq<Effect>, maxRounds: nat, script: seq<(Reply, Env)>, i: nat)
    returns (again: bool, g: Flow, log: seq<Effect>, j: nat)
    requires i <= |script| && f.at.AtVerify?
    ensures Reaches(f, before, i, again, g, log, j, maxRounds, script)
    ensures again ==> g.at in {AtGate, AtGreen, AtFix}
  {
    hide Drive, Reaches, Halt, AfterVerify, NeedsFix;
    ReachesOne(f, before, maxRounds, script, i);
    again, g, log, j := false, f, before, i;
    if !Answered(script, i, f.at) {
      return;
    }
    var r, env := script[i].0, script[i].1;
    var effects;
    j := i + 1;
    if r.Raised? {
      g, effects := TakeError(f, r.infra, env);
      RaisedReaches(f, before, maxRounds, script, i, g, effects);
    } else if r.ok {
      again, g, effects := PushAndOpen(f, env);
      OpenedAt(f, env);
    } else {
      again, g, effects := AskForFix(f, maxRounds, env);
    }
    log := before + effects;
  }

  lemma OpenedAt(f: Flow, env: Env)
    ensures
      var step := AfterVerify(f, env);
      step.Step? && (step.flow.at.Ended? || step.flow.at in {AtGate, AtGreen})
  {
  }

  /** The gate: a PASS goes on to the merge, a FAIL to a fix, no verdict to a human. */
  method AwaitGate(f: Flow, before: seq<Effect>, maxRounds: nat, script: seq<(Reply, Env)>, i: nat)
    returns (again: bool, g: Flow, log: seq<Effect>, j: nat)
    requires i <= |script| && f.at.AtGate?
    ensures Reaches(f, before, i, again, g, log, j, maxRounds, script)
    ensures again ==> g.at in {AtGreen, AtFix}
  {
    hide Drive, Reaches, Halt, NeedsFix, GateVerdict;
    ReachesOne(f, before, maxRounds, script, i);
    again, g, log, j := false, f, before, i;
    if !Answered(script, i, f.at) {
      return;
    }
    var r, env := script[i].0, script[i].1;
    var effects;
    j := i + 1;
    if r.Raised? {
      g, effects := TakeError(f, r.infra, env);
      RaisedReaches(f, before, maxRounds, script, i, g, effects);
    } else {
      match GateVerdict(r.first, r.second) {
        case Unparsable =>
          HaltEnds(f, StatusFailed, env.stopPushOk, []);
          g, effects := Stop(f, StatusFailed, env.stopPushOk, []);
        case Pass =>
          again, g, effects := true, f.(at := AtGreen, gated := true), [GatePassed(f.headSha)];
        case Fail =>
          again, g, effects := AskForFix(f.(gated := false), maxRounds, env);
      }
    }
    log := before + effects;
  }

  /** The branch is green: merge, or repair a conflict with the moved branch in a merge-fix session. */
  method AwaitMerge(f: Flow, before: seq<Effect>, maxRounds: nat, script: seq<(Reply, Env)>, i: nat)
    returns (again: bool, g: Flow, log: seq<Effect>, j: nat)
    requires i <= |script| && f.at.AtGreen?
    ensures Reaches(f, before, i, again, g, log, j, maxRounds, script)
    ensures again ==> g.at == AtVerify
  {
    hide Drive, Reaches, Halt, AfterGreen;
    ReachesOne(f, before, maxRounds, script, i);
    again, g, log, j := false, f, before, i;
    if !Answered(script, i, f.at) {
      return;
    }
    var effects;
    again, g, effects := TryMerge(f, maxRounds, script[i].1);
    j, log := i + 1, before + effects;
    if again {
      ghost var h, mid := g, log;
      again, g, log, j := AwaitSession(g, log, maxRounds, script, i + 1);
      ReachesTwice(f, before, i, h, mid, i + 1, again, g, log, j, maxRounds, script);
    }
  }

  /** Up to the first verify: the claim, and the implementer unless the ticket is resumed. */
  method Implement(f: Flow, maxRounds: nat, script: seq<(Reply, Env)>)
    returns (again: bool, g: Flow, log: seq<Effect>, j: nat)
    requires f.at.Created?
    ensures Reaches(f, [], 0, again, g, log, j, maxRounds, script)
    ensures again ==> g.at == AtVerify
  {
    hide Drive, Reaches, Start;
    ReachesOne(f, [], maxRounds, script, 0);
    again, g, log, j := false, f, [], 0;
    if !Answered(script, 0, f.at) {
      return;
    }
    j := 1;
    again, g, log := SetUp(f, script[0].1);
    assert [] + log == log;
    SetUpAt(f, script[0].1);
    if again && g.at == AtImplementer {
      ghost var at, before := g, log;
      again, g, log, j := AwaitSession(g, log, maxRounds, script, j);
      ReachesTwice(f, [], 0, at, before, 1, again, g, log, j, maxRounds, script);
    }
  }

  /** From one verify to the next: gate what is green, merge what passed, fix what did not. */
  method OneRound(f: Flow, before: seq<Effect>, maxRounds: nat, script: seq<(Reply, Env)>, i: nat)
    returns (again: bool, g: Flow, log: seq<Effect>, j: nat)
    requires i <= |script| && f.at.AtVerify?
    ensures Reaches(f, before, i, again, g, log, j, maxRounds, script)
    ensures again ==> g.at == AtVerify
  {
    hide Drive, Reaches;
    again, g, log, j := AwaitVerify(f, before, maxRounds, script, i);
    if again && g.at == AtGate {
      ReachesWithin(f, before, i, g, log, j, maxRounds, script);
      ghost var at, mid, k := g, log, j;
      again, g, log, j := AwaitGate(g, log, maxRounds, script, j);
      ReachesTwice(f, before, i, at, mid, k, again, g, log, j, maxRounds, script);
    }
    if again {
      again, g, log, j := MergeOrFix(f, before, i, g, log, maxRounds, script, j);
    }
  }

  method MergeOrFix(ghost f: Flow, ghost before: seq<Effect>, ghost i: nat, at: Flow, mid: seq<Effect>,
                    maxRounds: nat, script: seq<(Reply, Env)>, k: nat)
    returns (again: bool, g: Flow, log: seq<Effect>, j: nat)
    requires Reaches(f, before, i, true, at, mid, k, maxRounds, script) && at.at in {AtGreen, AtFix}
    ensures Reaches(f, before, i, again, g, log, j, maxRounds, script)
    ensures again ==> g.at == AtVerify
  {
    ReachesWithin(f, before, i, at, mid, k, maxRounds, script);
    hide Drive, Reaches;
    if at.at == AtGreen {
      again, g, log, j := AwaitMerge(at, mid, maxRounds, script, k);
    } else {
      again, g, log, j := AwaitSession(at, mid, maxRounds, script, k);
    }
    ReachesTwice(f, before, i, at, mid, k, again, g, log, j, maxRounds, script);
  }

  lemma ReachesWithin(f: Flow, before: seq<Effect>, i: nat, g: Flow, log: seq<Effect>, j: nat,
                      maxRounds: nat, script: seq<(Reply, Env)>)
    requires Reaches(f, before, i, true, g, log, j, maxRounds, script)
    ensures i < j <= |script|
  {
    hide Drive;
  }

  /** One ticket from its claim to its end, or to the job whose answer has not come. */
  method IntegrateTicket(resumed: bool, prior: PrState, maxRounds: nat, script: seq<(Reply, Env)>)
    returns (flow: Flow, log: seq<Effect>)
    ensures (flow, log) == Drive(NewFlow(resumed, prior), [], maxRounds, script)
  {
    hide Drive, Reaches;
    ghost var first := NewFlow(resumed, prior);
    var again: bool, i: nat;
    again, flow, log, i := Implement(NewFlow(resumed, prior), maxRounds, script);
    if again {
      ReachesWithin(first, [], 0, flow, log, i, maxRounds, script);
    }
    while again
      invariant Reaches(first, [], 0, again, flow, log, i, maxRounds, script)
      invariant again ==> flow.at == AtVerify && i <= |script|
      decreases if again then |script| - i + 1 else 0
    {
      ghost var at, before, k := flow, log, i;
      ReachesWithin(first, [], 0, flow, log, i, maxRounds, script);
      again, flow, log, i := OneRound(flow, log, maxRounds, script, i);
      ReachesTwice(first, [], 0, at, before, k, again, flow, log, i, maxRounds, script);
      if again {
        ReachesWithin(at, before, k, flow, log, i, maxRounds, script);
      }
    }
    ReachesEnd(first, flow, log, i, maxRounds, script);
  }

  lemma SetUpAt(f: Flow, env: Env)
    ensures Start(f, env).Step?
    ensures !Start(f, env).flow.at.Ended? ==> Start(f, env).flow.at == if f.resumed then AtVerify else AtImplementer
  {
  }

  /** Reaching an end from the very start is what a whole run comes to. */
  lemma ReachesEnd(f: Flow, g: Flow, log: seq<Effect>, j: nat, maxRounds: nat, script: seq<(Reply, Env)>)
    requires Reaches(f, [], 0, false, g, log, j, maxRounds, script)
    ensures Drive(f, [], maxRounds, script) == (g, log)
  {
    hide Drive;
    assert script[0..] == script;
  }
}

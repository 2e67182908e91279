/** The check of the integration branch: its guard, its fix loop, and what it may leave behind. */
module IntegrationCheck {
  import opened Wrappers
  import opened Board
  import opened Markers
  import opened TicketFlow

  /** What the scheduler knows about the integration branch. */
  datatype GuardState = GuardState(green: Option<Commit>, needsCheck: bool, broken: bool, merged: seq<nat>) {
    predicate Settled() {
      !needsCheck && !broken
    }

    function NoteMerge(ticket: nat): GuardState {
      this.(needsCheck := true, merged := merged + [ticket])
    }

    function NoteGreen(sha: Commit): GuardState {
      this.(green := Some(sha), needsCheck := false, merged := [])
    }
  }

  /** What git says at the start of a run: the tip of the integration branch, the tip of the base branch,
      and whether the first is an ancestor of the second. None is a call that failed. */
  datatype BranchRead = BranchRead(tip: Option<Commit>, base: Option<Commit>, ancestor: Option<bool>)

  predicate NothingBeyondBase(read: BranchRead) {
    read.tip.Some? && read.base.Some? && read.ancestor == Some(true)
  }

  /** With nothing beyond the base the branch starts green there; in every other case a check comes first. */
  function InitialGuard(read: BranchRead): GuardState {
    if NothingBeyondBase(read) then GuardState(read.tip, false, false, [])
    else GuardState(None, true, false, [])
  }

  /** A run starts on a settled branch exactly if all three can be read and the tip is in the base. */
  lemma StartsGreen(read: BranchRead)
    ensures
      var g := InitialGuard(read);
      && (g.Settled() <==> read.tip.Some? && read.base.Some? && read.ancestor == Some(true))
      && g.green == (if g.Settled() then read.tip else None)
      && !g.broken && g.merged == [] && (g.needsCheck <==> !g.Settled())
  {
  }

  class IntegrationGuard {
    var green: Option<Commit>
    var needsCheck: bool
    var broken: bool
    var merged: seq<nat>

    function View(): GuardState
      reads this
    {
      GuardState(green, needsCheck, broken, merged)
    }

    constructor (read: BranchRead)
      ensures View() == InitialGuard(read)
      ensures View().Settled() <==> read.tip.Some? && read.base.Some? && read.ancestor == Some(true)
      ensures green == (if View().Settled() then read.tip else None) && !broken && merged == []
    {
      green, needsCheck, broken, merged := None, true, false, [];
      if read.tip.Some? && read.base.Some? && read.ancestor == Some(true) {
        green, needsCheck := read.tip, false;
      }
    }

    method NoteMerge(ticket: nat)
      modifies this
      ensures View() == old(View()).NoteMerge(ticket)
    {
      needsCheck := true;
      merged := merged + [ticket];
    }

    method NoteGreen(sha: Commit)
      modifies this
      ensures View() == old(View()).NoteGreen(sha)
    {
      green := Some(sha);
      needsCheck := false;
      merged := [];
    }
  }

  datatype CheckResult = CheckGreen(sha: Commit) | CheckRed(sha: Commit)

  datatype CheckPoint =
    | CheckCreated
    | AtTipVerify
    | AtFixSession(round: nat)
    | AtFixVerify(round: nat)
    | CheckEnded(result: CheckResult)

  /** A suspended check of the pinned commit `sha`; `fixHead` is the head of the fix worktree. */
  datatype Check = Check(at: CheckPoint, sha: Commit, fixHead: Commit)

  datatype CheckEnv = CheckEnv(addDetachedOk: bool, addTreeOk: bool, pushOk: bool, headOk: bool)

  datatype CheckStep = CheckStep(check: Check, effects: seq<Effect>) | CheckCrash

  function NewCheck(sha: Commit): Check {
    Check(CheckCreated, sha, sha)
  }

  predicate CheckFits(at: CheckPoint, r: Reply) {
    match at
    case CheckCreated => r.Go?
    case AtTipVerify => r.VerifyEnded? || r.Raised?
    case AtFixSession(_) => r.SessionEnded? || r.Raised?
    case AtFixVerify(_) => r.VerifyEnded? || r.Raised?
    case CheckEnded(_) => false
  }

  predicate CheckAtJob(at: CheckPoint) {
    !at.CheckCreated? && !at.CheckEnded?
  }

  function Red(c: Check, effects: seq<Effect>): CheckStep {
    CheckStep(c.(at := CheckEnded(CheckRed(c.sha))), effects)
  }

  /** Resume a check. `tip` is the commit the integration branch is at: a fix starts there. */
  function ResumeCheck(c: Check, r: Reply, maxRounds: nat, env: CheckEnv, tip: Commit): CheckStep
    requires CheckFits(c.at, r)
  {
    if r.Raised? then
      if r.infra then Red(c, []) else CheckCrash
    else
      match c.at
      case CheckCreated =>
        if env.addDetachedOk then CheckStep(c.(at := AtTipVerify), []) else Red(c, [])
      case AtTipVerify =>
        if r.ok then CheckStep(c.(at := CheckEnded(CheckGreen(c.sha))), [Verified(c.sha)])
        else if !env.addTreeOk || maxRounds == 0 then Red(c, [])
        else CheckStep(c.(at := AtFixSession(1), fixHead := tip), [])
      case AtFixSession(round) =>
        if OutcomeOf(r.result) == OutcomeDone then
          CheckStep(c.(at := AtFixVerify(round), fixHead := r.head), [Wrote(r.head)])
        else Red(c, [Wrote(r.head)])
      case AtFixVerify(round) =>
        if r.ok then
          if !env.pushOk then Red(c, [Verified(c.fixHead)])
          else if !env.headOk then Red(c, [Verified(c.fixHead), Pushed(c.fixHead)])
          else CheckStep(c.(at := CheckEnded(CheckGreen(c.fixHead))), [Verified(c.fixHead), Pushed(c.fixHead)])
        else if round < maxRounds then CheckStep(c.(at := AtFixSession(round + 1)), [])
        else Red(c, [])
  }

  /** The tip of the integration branch after a check's effects: only a push moves it. */
  function TipAfter(tip: Commit, es: seq<Effect>): Commit {
    if es == [] then tip
    else if es[|es| - 1].Pushed? then es[|es| - 1].commit
    else TipAfter(tip, es[..|es| - 1])
  }

  /** A run of a check: the answers delivered to it, in order. */
  function DriveCheck(c: Check, log: seq<Effect>, maxRounds: nat, tip: Commit, script: seq<(Reply, CheckEnv)>)
    : (Check, seq<Effect>)
    decreases |script|
  {
    if script == [] || !CheckFits(c.at, script[0].0) then (c, log)
    else
      match ResumeCheck(c, script[0].0, maxRounds, script[0].1, TipAfter(tip, log))
      case CheckCrash => (c, log)
      case CheckStep(d, effects) => DriveCheck(d, log + effects, maxRounds, tip, script[1..])
  }

  /** The jobs a check may still run, the outstanding one included. */
  function CheckFuel(c: Check, maxRounds: nat): nat {
    match c.at
    case CheckCreated => 2 * maxRounds + 1
    case AtTipVerify => 2 * maxRounds + 1
    case AtFixSession(round) => if round <= maxRounds then 2 * (maxRounds - round) + 2 else 2
    case AtFixVerify(round) => if round <= maxRounds then 2 * (maxRounds - round) + 1 else 1
    case CheckEnded(_) => 0
  }

  lemma CheckBurns(c: Check, r: Reply, maxRounds: nat, env: CheckEnv, tip: Commit)
    requires CheckFits(c.at, r) && ResumeCheck(c, r, maxRounds, env, tip).CheckStep?
    ensures
      var d := ResumeCheck(c, r, maxRounds, env, tip).check;
      CheckFuel(d, maxRounds) + (if CheckAtJob(c.at) then 1 else 0) <= CheckFuel(c, maxRounds)
  {
  }

  predicate IsVerifiedIn(log: seq<Effect>, c: Commit) {
    Verified(c) in log
  }

  /** What holds of a check after its `log`: the tip has not moved, or it moved to a commit that
      passed verify; a green end names the tip, and that commit passed verify. */
  predicate CheckOk(c: Check, tip: Commit, log: seq<Effect>) {
    var now := TipAfter(tip, log);
    && (now == tip || IsVerifiedIn(log, now))
    && (!c.at.CheckEnded? ==> now == tip)
    && c.sha == tip
    && (c.at.CheckEnded? && c.at.result.CheckGreen? ==> c.at.result.sha == now && IsVerifiedIn(log, now))
  }

  lemma {:induction false} TipAfterAppend(tip: Commit, a: seq<Effect>, b: seq<Effect>)
    ensures TipAfter(tip, a + b) == TipAfter(TipAfter(tip, a), b)
  {
    if b == [] {
      assert a + b == a;
    } else {
      TipAfterAppend(tip, a, b[..|b| - 1]);
      assert (a + b)[..|a + b| - 1] == a + b[..|b| - 1];
    }
  }

  /** The only ways a step of a check can move the tip or end green. */
  lemma ResumeCheckEffects(c: Check, r: Reply, maxRounds: nat, env: CheckEnv, tip: Commit)
    requires CheckFits(c.at, r) && ResumeCheck(c, r, maxRounds, env, tip).CheckStep?
    ensures
      var step := ResumeCheck(c, r, maxRounds, env, tip);
      && step.check.sha == c.sha
      && (if step.effects == [Verified(c.fixHead), Pushed(c.fixHead)] then
            step.check.at in {CheckEnded(CheckRed(c.sha)), CheckEnded(CheckGreen(c.fixHead))}
            && TipAfter(tip, step.effects) == c.fixHead && Verified(c.fixHead) in step.effects
          else
            && TipAfter(tip, step.effects) == tip
            && (step.check.at.CheckEnded? && step.check.at.result.CheckGreen? ==>
                  step.check.at.result.sha == c.sha && step.effects == [Verified(c.sha)]))
  {
    var step := ResumeCheck(c, r, maxRounds, env, tip);
    if |step.effects| == 1 {
      assert step.effects[..0] == [];
    }
  }

  lemma ResumeCheckKeeps(c: Check, r: Reply, maxRounds: nat, env: CheckEnv, tip: Commit, log: seq<Effect>)
    requires CheckFits(c.at, r) && CheckOk(c, tip, log)
    requires ResumeCheck(c, r, maxRounds, env, TipAfter(tip, log)).CheckStep?
    ensures
      var step := ResumeCheck(c, r, maxRounds, env, TipAfter(tip, log));
      CheckOk(step.check, tip, log + step.effects)
  {
    hide ResumeCheck;
    var step := ResumeCheck(c, r, maxRounds, env, TipAfter(tip, log));
    ResumeCheckEffects(c, r, maxRounds, env, TipAfter(tip, log));
    TipAfterAppend(tip, log, step.effects);
  }

  /** Whatever the sessions answer and whichever git call fails, a check leaves the remote tip
      unchanged or at a commit that passed verify, and a green result names exactly the tip. */
  lemma {:induction false} CheckIsSafe(c: Check, log: seq<Effect>, maxRounds: nat, tip: Commit,
                                        script: seq<(Reply, CheckEnv)>)
    requires CheckOk(c, tip, log)
    ensures
      var (d, full) := DriveCheck(c, log, maxRounds, tip, script);
      CheckOk(d, tip, full)
    decreases |script|
  {
    if script == [] || !CheckFits(c.at, script[0].0) {
    } else {
      var step := ResumeCheck(c, script[0].0, maxRounds, script[0].1, TipAfter(tip, log));
      if step.CheckStep? {
        ResumeCheckKeeps(c, script[0].0, maxRounds, script[0].1, tip, log);
        CheckIsSafe(step.check, log + step.effects, maxRounds, tip, script[1..]);
      }
    }
  }

  function FixSessions(es: seq<Effect>): nat {
    if es == [] then 0 else FixSessions(es[..|es| - 1]) + if es[|es| - 1].Wrote? then 1 else 0
  }

  lemma {:induction false} FixSessionsAppend(a: seq<Effect>, b: seq<Effect>)
    ensures FixSessions(a + b) == FixSessions(a) + FixSessions(b)
  {
    if b == [] {
      assert a + b == a;
    } else {
      FixSessionsAppend(a, b[..|b| - 1]);
      assert (a + b)[..|a + b| - 1] == a + b[..|b| - 1];
    }
  }

  /** The rounds a suspended check has used up. */
  predicate RoundsOk(c: Check, maxRounds: nat, sessions: nat) {
    match c.at
    case CheckCreated => sessions == 0
    case AtTipVerify => sessions == 0
    case AtFixSession(round) => sessions + 1 == round && round <= maxRounds
    case AtFixVerify(round) => sessions == round && round <= maxRounds
    case CheckEnded(_) => sessions <= maxRounds
  }

  lemma ResumeCheckRounds(c: Check, r: Reply, maxRounds: nat, env: CheckEnv, tip: Commit, sessions: nat)
    requires CheckFits(c.at, r) && RoundsOk(c, maxRounds, sessions)
    requires ResumeCheck(c, r, maxRounds, env, tip).CheckStep?
    ensures
      var step := ResumeCheck(c, r, maxRounds, env, tip);
      RoundsOk(step.check, maxRounds, sessions + FixSessions(step.effects))
  {
    var es := ResumeCheck(c, r, maxRounds, env, tip).effects;
    if |es| >= 1 {
      assert es[..1][..0] == [];
      assert FixSessions(es[..1]) == if es[0].Wrote? then 1 else 0;
      if |es| == 2 {
        assert FixSessions(es) == FixSessions(es[..1]);
      } else {
        assert es[..1] == es;
      }
    }
  }

  /** At most `gate_fix_rounds` fix sessions run in one check. */
  lemma {:induction false} FixSessionsAreBounded(
    c: Check, log: seq<Effect>, maxRounds: nat, tip: Commit, script: seq<(Reply, CheckEnv)>)
    requires RoundsOk(c, maxRounds, FixSessions(log))
    ensures
      var (d, full) := DriveCheck(c, log, maxRounds, tip, script);
      FixSessions(full) <= maxRounds && RoundsOk(d, maxRounds, FixSessions(full))
    decreases |script|
  {
    if script == [] || !CheckFits(c.at, script[0].0) {
    } else {
      var step := ResumeCheck(c, script[0].0, maxRounds, script[0].1, TipAfter(tip, log));
      if step.CheckStep? {
        FixSessionsAppend(log, step.effects);
        ResumeCheckRounds(c, script[0].0, maxRounds, script[0].1, TipAfter(tip, log), FixSessions(log));
        FixSessionsAreBounded(step.check, log + step.effects, maxRounds, tip, script[1..]);
      }
    }
  }

  function CheckJobs(c: Check, log: seq<Effect>, maxRounds: nat, tip: Commit, script: seq<(Reply, CheckEnv)>): nat
    decreases |script|
  {
    if script == [] || !CheckFits(c.at, script[0].0) then 0
    else
      (if CheckAtJob(c.at) then 1 else 0) +
      match ResumeCheck(c, script[0].0, maxRounds, script[0].1, TipAfter(tip, log))
      case CheckCrash => 0
      case CheckStep(d, effects) => CheckJobs(d, log + effects, maxRounds, tip, script[1..])
  }

  /** A check runs at most 2R+1 jobs (`CheckFuel` of a new check). */
  lemma {:induction false} CheckJobsAreBounded(
    c: Check, log: seq<Effect>, maxRounds: nat, tip: Commit, script: seq<(Reply, CheckEnv)>)
    ensures CheckJobs(c, log, maxRounds, tip, script) <= CheckFuel(c, maxRounds)
    decreases |script|
  {
    if script == [] || !CheckFits(c.at, script[0].0) {
    } else {
      var step := ResumeCheck(c, script[0].0, maxRounds, script[0].1, TipAfter(tip, log));
      if step.CheckStep? {
        CheckBurns(c, script[0].0, maxRounds, script[0].1, TipAfter(tip, log));
        CheckJobsAreBounded(step.check, log + step.effects, maxRounds, tip, script[1..]);
      }
    }
  }
}

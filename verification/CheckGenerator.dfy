/** The integration check as the program writes it: a verify of the pinned tip, then a loop over the fix
    rounds. It is proved to be the state machine of `IntegrationCheck`, resumed answer by answer. */
module CheckGenerator {
  import opened Board
  import opened Markers
  import opened TicketFlow
  import opened IntegrationCheck

  predicate Answered(script: seq<(Reply, CheckEnv)>, i: nat, at: CheckPoint) {
    i < |script| && CheckFits(at, script[i].0)
  }

  lemma NothingFitsTheEnd(at: CheckPoint, r: Reply)
    requires at.CheckEnded?
    ensures !CheckFits(at, r)
  {
  }

  /** From one yield to a later one: the run is over, or the check is at `d` with `log` and goes on. */
  ghost predicate Reaches(c: Check, before: seq<Effect>, i: nat, again: bool, d: Check, log: seq<Effect>, j: nat,
                          maxRounds: nat, tip: Commit, script: seq<(Reply, CheckEnv)>)
  {
    && i <= |script| && j <= |script|
    && DriveCheck(c, before, maxRounds, tip, script[i..]) ==
       if again then DriveCheck(d, log, maxRounds, tip, script[j..]) else (d, log)
  }

  lemma ReachesTwice(c: Check, a: seq<Effect>, i: nat, d: Check, b: seq<Effect>, j: nat,
                     again: bool, e: Check, log: seq<Effect>, k: nat,
                     maxRounds: nat, tip: Commit, script: seq<(Reply, CheckEnv)>)
    requires Reaches(c, a, i, true, d, b, j, maxRounds, tip, script)
    requires Reaches(d, b, j, again, e, log, k, maxRounds, tip, script)
    ensures Reaches(c, a, i, again, e, log, k, maxRounds, tip, script)
  {
    hide DriveCheck;
  }

  /** One resumption, as the generator sees it. */
  lemma ReachesOne(c: Check, log: seq<Effect>, maxRounds: nat, tip: Commit, script: seq<(Reply, CheckEnv)>, i: nat)
    requires i <= |script|
    ensures !Answered(script, i, c.at) ==> Reaches(c, log, i, false, c, log, i, maxRounds, tip, script)
    ensures Answered(script, i, c.at) ==>
      var step := ResumeCheck(c, script[i].0, maxRounds, script[i].1, TipAfter(tip, log));
      && (step.CheckCrash? ==> Reaches(c, log, i, false, c, log, i, maxRounds, tip, script))
      && (step.CheckStep? ==>
            Reaches(c, log, i, true, step.check, log + step.effects, i + 1, maxRounds, tip, script))
      && (step.CheckStep? && step.check.at.CheckEnded? ==>
            Reaches(c, log, i, false, step.check, log + step.effects, i + 1, maxRounds, tip, script))
  {
    hide ResumeCheck, CheckFits, TipAfter;
    if Answered(script, i, c.at) {
      assert script[i..][1..] == script[i + 1..];
      var step := ResumeCheck(c, script[i].0, maxRounds, script[i].1, TipAfter(tip, log));
      if step.CheckStep? && step.check.at.CheckEnded? && script[i + 1..] != [] {
        NothingFitsTheEnd(step.check.at, script[i + 1..][0].0);
      }
    }
  }

  /** Verify the pinned tip. */
  method VerifyTip(sha: Commit, maxRounds: nat, script: seq<(Reply, CheckEnv)>)
    returns (red: bool, d: Check, log: seq<Effect>, j: nat)
    ensures Reaches(NewCheck(sha), [], 0, red, d, log, j, maxRounds, sha, script)
    ensures red ==> d == Check(AtFixSession(1), sha, sha) && maxRounds >= 1 && log == [] && j <= |script|
  {
    hide Reaches, TipAfter, DriveCheck, ResumeCheck, CheckFits;
    d, log, j, red := NewCheck(sha), [], 0, false;
    ghost var first := d;
    ReachesOne(d, [], maxRounds, sha, script, 0);
    if !Answered(script, 0, d.at) {
      return;
    }
    CreatedResumes(d, script[0].0, maxRounds, script[0].1, TipAfter(sha, []));
    j := 1;
    assert log + [] == log;
    if !script[0].1.addDetachedOk {
      d := Reddened(d);
      return;
    }
    d := d.(at := AtTipVerify);
    ghost var at := d;
    red, d, log, j := TipAnswer(d, maxRounds, script);
    ReachesTwice(first, [], 0, at, [], 1, red, d, log, j, maxRounds, sha, script);
  }

  method TipAnswer(c: Check, maxRounds: nat, script: seq<(Reply, CheckEnv)>)
    returns (red: bool, d: Check, log: seq<Effect>, j: nat)
    requires c.at.AtTipVerify? && c.fixHead == c.sha && 1 <= |script|
    ensures Reaches(c, [], 1, red, d, log, j, maxRounds, c.sha, script)
    ensures red ==> d == Check(AtFixSession(1), c.sha, c.sha) && maxRounds >= 1 && log == [] && j <= |script|
  {
    hide Reaches, DriveCheck, ResumeCheck, CheckFits;
    d, log, j, red := c, [], 1, false;
    ReachesOne(c, [], maxRounds, c.sha, script, 1);
    if !Answered(script, 1, c.at) {
      return;
    }
    var r, env := script[1].0, script[1].1;
    TipResumes(c, r, maxRounds, env, c.sha);
    if r.Raised? && !r.infra {
      return;
    }
    j := 2;
    if r.Raised? {
      d := c.(at := CheckEnded(CheckRed(c.sha)));
    } else if r.ok {
      d, log := c.(at := CheckEnded(CheckGreen(c.sha))), [Verified(c.sha)];
    } else if !env.addTreeOk || maxRounds == 0 {
      d := c.(at := CheckEnded(CheckRed(c.sha)));
    } else {
      d, red := c.(at := AtFixSession(1)), true;
    }
    assert [] + log == log;
  }

  function Reddened(c: Check): Check {
    c.(at := CheckEnded(CheckRed(c.sha)))
  }

  lemma CreatedResumes(c: Check, r: Reply, maxRounds: nat, env: CheckEnv, tip: Commit)
    requires c.at.CheckCreated? && CheckFits(c.at, r)
    ensures ResumeCheck(c, r, maxRounds, env, tip) ==
      CheckStep(if env.addDetachedOk then c.(at := AtTipVerify) else Reddened(c), [])
  {
  }

  lemma TipResumes(c: Check, r: Reply, maxRounds: nat, env: CheckEnv, tip: Commit)
    requires c.at.AtTipVerify? && CheckFits(c.at, r)
    ensures r.Raised? || r.VerifyEnded?
    ensures ResumeCheck(c, r, maxRounds, env, tip) ==
      if r.Raised? then (if r.infra then CheckStep(Reddened(c), []) else CheckCrash)
      else if r.ok then CheckStep(c.(at := CheckEnded(CheckGreen(c.sha))), [Verified(c.sha)])
      else if !env.addTreeOk || maxRounds == 0 then CheckStep(Reddened(c), [])
      else CheckStep(c.(at := AtFixSession(1), fixHead := tip), [])
  {
  }

  lemma FixVerifyResumes(c: Check, r: Reply, maxRounds: nat, env: CheckEnv, tip: Commit)
    requires c.at.AtFixVerify? && CheckFits(c.at, r)
    ensures r.Raised? || r.VerifyEnded?
    ensures ResumeCheck(c, r, maxRounds, env, tip) ==
      if r.Raised? then (if r.infra then CheckStep(Reddened(c), []) else CheckCrash)
      else if !r.ok then
        CheckStep(if c.at.round < maxRounds then c.(at := AtFixSession(c.at.round + 1)) else Reddened(c), [])
      else if !env.pushOk then CheckStep(Reddened(c), [Verified(c.fixHead)])
      else
        CheckStep(if env.headOk then c.(at := CheckEnded(CheckGreen(c.fixHead))) else Reddened(c),
                  [Verified(c.fixHead), Pushed(c.fixHead)])
  {
  }

  /** One fix session: done, or the branch stays red. */
  method AwaitFix(c: Check, before: seq<Effect>, maxRounds: nat, tip: Commit, script: seq<(Reply, CheckEnv)>, i: nat)
    returns (done: bool, d: Check, log: seq<Effect>, j: nat)
    requires i <= |script| && c.at.AtFixSession?
    ensures Reaches(c, before, i, done, d, log, j, maxRounds, tip, script)
    ensures done ==> d.at == AtFixVerify(c.at.round) && d.sha == c.sha
  {
    hide Reaches, OutcomeOf, TipAfter, DriveCheck;
    d, log, j, done := c, before, i, false;
    ReachesOne(c, before, maxRounds, tip, script, i);
    if !Answered(script, i, c.at) {
      return;
    }
    var r := script[i].0;
    if r.Raised? && !r.infra {
      return;
    }
    j := i + 1;
    if r.Raised? {
      assert before + [] == before;
      d := c.(at := CheckEnded(CheckRed(c.sha)));
    } else {
      log := before + [Wrote(r.head)];
      done := OutcomeOf(r.result) == OutcomeDone;
      if done {
        d := c.(at := AtFixVerify(c.at.round), fixHead := r.head);
      } else {
        d := c.(at := CheckEnded(CheckRed(c.sha)));
      }
    }
  }

  /** The verify of a fix: pushed when green, the next round when red. */
  method AwaitFixVerify(c: Check, before: seq<Effect>, maxRounds: nat, tip: Commit, script: seq<(Reply, CheckEnv)>,
                        i: nat)
    returns (red: bool, d: Check, log: seq<Effect>, j: nat)
    requires i <= |script| && c.at.AtFixVerify?
    ensures Reaches(c, before, i, red, d, log, j, maxRounds, tip, script)
    ensures red ==> c.at.round < maxRounds && d == c.(at := AtFixSession(c.at.round + 1))
  {
    hide Reaches, TipAfter, DriveCheck, ResumeCheck, CheckFits;
    d, log, j, red := c, before, i, false;
    ReachesOne(c, before, maxRounds, tip, script, i);
    if !Answered(script, i, c.at) {
      return;
    }
    var r, env := script[i].0, script[i].1;
    FixVerifyResumes(c, r, maxRounds, env, TipAfter(tip, before));
    if r.Raised? && !r.infra {
      return;
    }
    j := i + 1;
    var effects := [];
    if r.Raised? {
      d := c.(at := CheckEnded(CheckRed(c.sha)));
    } else if r.ok {
      effects := [Verified(c.fixHead)];
      d := c.(at := CheckEnded(CheckRed(c.sha)));
      if env.pushOk {
        effects := [Verified(c.fixHead), Pushed(c.fixHead)];
        if env.headOk {
          d := c.(at := CheckEnded(CheckGreen(c.fixHead)));
        }
      }
    } else if c.at.round < maxRounds {
      d, red := c.(at := AtFixSession(c.at.round + 1)), true;
    } else {
      d := c.(at := CheckEnded(CheckRed(c.sha)));
    }
    log := before + effects;
  }

  /** Verify the pinned commit; when red, repair it in at most `maxRounds` rounds. */
  method CheckIntegration(sha: Commit, maxRounds: nat, script: seq<(Reply, CheckEnv)>)
    returns (check: Check, log: seq<Effect>)
    ensures (check, log) == DriveCheck(NewCheck(sha), [], maxRounds, sha, script)
  {
    hide Reaches, DriveCheck;
    ghost var first := NewCheck(sha);
    var red: bool, i: nat;
    red, check, log, i := VerifyTip(sha, maxRounds, script);
    if !red {
      WholeCheck(first, check, log, i, maxRounds, sha, script);
      return;
    }
    var round := 1;
    while red
      invariant Reaches(first, [], 0, red, check, log, i, maxRounds, sha, script)
      invariant red ==> check.at == AtFixSession(round) && 1 <= round <= maxRounds && i <= |script|
      decreases if red then maxRounds - round + 1 else 0
    {
      ghost var at, before, k := check, log, i;
      red, check, log, i := FixRound(check, log, maxRounds, sha, script, i);
      ReachesTwice(first, [], 0, at, before, k, red, check, log, i, maxRounds, sha, script);
      round := round + 1;
    }
    WholeCheck(first, check, log, i, maxRounds, sha, script);
  }

  method FixRound(c: Check, before: seq<Effect>, maxRounds: nat, tip: Commit, script: seq<(Reply, CheckEnv)>, i: nat)
    returns (red: bool, d: Check, log: seq<Effect>, j: nat)
    requires i <= |script| && c.at.AtFixSession?
    ensures Reaches(c, before, i, red, d, log, j, maxRounds, tip, script)
    ensures red ==> c.at.round < maxRounds && d.at == AtFixSession(c.at.round + 1) && j <= |script|
  {
    red, d, log, j := AwaitFix(c, before, maxRounds, tip, script, i);
    if red {
      ghost var at, mid, k := d, log, j;
      red, d, log, j := AwaitFixVerify(d, log, maxRounds, tip, script, j);
      ReachesTwice(c, before, i, at, mid, k, red, d, log, j, maxRounds, tip, script);
    }
  }

  lemma WholeCheck(c: Check, d: Check, log: seq<Effect>, j: nat, maxRounds: nat, tip: Commit,
                   script: seq<(Reply, CheckEnv)>)
    requires Reaches(c, [], 0, false, d, log, j, maxRounds, tip, script)
    ensures DriveCheck(c, [], maxRounds, tip, script) == (d, log)
  {
    hide DriveCheck;
    assert script[0..] == script;
  }
}

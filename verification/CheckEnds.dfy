/** How a check of the integration branch ends, by what its sessions wrote and which call failed: one
    resumption at a time, and whole runs against the shape of their answers. */
module CheckEnds {
  import opened Board
  import opened Markers
  import opened TicketFlow
  import opened IntegrationCheck

  ghost predicate Done(r: Reply) {
    r.SessionEnded? && Reports(r.result, DONE_LINE, BLOCKED_LINE)
  }

  // One resumption.

  predicate Greens(c: Check, r: Reply, env: CheckEnv) {
    r == VerifyEnded(true) && (c.at.AtTipVerify? || (c.at.AtFixVerify? && env.pushOk && env.headOk))
  }

  ghost predicate Reds(c: Check, r: Reply, maxRounds: nat, env: CheckEnv) {
    || r == Raised(true)
    || (c.at.CheckCreated? && !env.addDetachedOk)
    || (c.at.AtTipVerify? && r == VerifyEnded(false) && (!env.addTreeOk || maxRounds == 0))
    || (c.at.AtFixSession? && r.SessionEnded? && !Done(r))
    || (c.at.AtFixVerify? && r == VerifyEnded(true) && !(env.pushOk && env.headOk))
    || (c.at.AtFixVerify? && r == VerifyEnded(false) && c.at.round >= maxRounds)
  }

  /** How it ends. An exception escapes exactly if the job raised one that is no infrastructure error; the
      check ends green at the commit that just verified, or red at the commit it was started for, exactly
      under the conditions above. */
  lemma CheckEndsHow(c: Check, r: Reply, maxRounds: nat, env: CheckEnv, tip: Commit)
    requires CheckFits(c.at, r)
    ensures
      var step := ResumeCheck(c, r, maxRounds, env, tip);
      && (step.CheckCrash? <==> r == Raised(false))
      && (step.CheckStep? ==>
            && (Greens(c, r, env) <==>
                  step.check.at == CheckEnded(CheckGreen(if c.at.AtTipVerify? then c.sha else c.fixHead)))
            && (Reds(c, r, maxRounds, env) <==> step.check.at == CheckEnded(CheckRed(c.sha)))
            && (step.check.at.CheckEnded? <==> Greens(c, r, env) || Reds(c, r, maxRounds, env)))
  {
    hide OutcomeOf, Reports;
    if r.SessionEnded? {
      OutcomeMeaning(r.result);
    }
  }

  /** A fix session that does not say DONE ends the check red, with nothing verified and nothing pushed. */
  lemma NotDoneEndsRed(c: Check, r: Reply, maxRounds: nat, env: CheckEnv, tip: Commit)
    requires c.at.AtFixSession? && r.SessionEnded? && !Done(r)
    ensures CheckFits(c.at, r)
    ensures ResumeCheck(c, r, maxRounds, env, tip) ==
      CheckStep(c.(at := CheckEnded(CheckRed(c.sha))), [Wrote(r.head)])
  {
    hide OutcomeOf, Reports;
    OutcomeMeaning(r.result);
  }

  lemma DoneGoesOn(c: Check, r: Reply, maxRounds: nat, env: CheckEnv, tip: Commit)
    requires c.at.AtFixSession? && Done(r)
    ensures CheckFits(c.at, r)
    ensures ResumeCheck(c, r, maxRounds, env, tip) ==
      CheckStep(c.(at := AtFixVerify(c.at.round), fixHead := r.head), [Wrote(r.head)])
  {
    hide OutcomeOf, Reports;
    OutcomeMeaning(r.result);
  }

  // Whole runs.

  /** The answers of one fix round: a session that says DONE and leaves `x`, and its verify. */
  ghost predicate Fixed(script: seq<(Reply, CheckEnv)>, x: Commit, ok: bool) {
    |script| >= 2 && Done(script[0].0) && script[0].0.head == x && script[1].0 == VerifyEnded(ok)
  }

  ghost predicate RedRound(script: seq<(Reply, CheckEnv)>) {
    |script| >= 2 && Done(script[0].0) && script[1].0 == VerifyEnded(false)
  }

  /** `n` rounds whose fix does not verify, and then one whose fix, `x`, verifies and is pushed. */
  ghost predicate FixedAfter(script: seq<(Reply, CheckEnv)>, n: nat, x: Commit)
    decreases n
  {
    if n == 0 then Fixed(script, x, true) && script[1].1.pushOk
    else RedRound(script) && FixedAfter(script[2..], n - 1, x)
  }

  /** And that round's head can be read. */
  ghost predicate ReadAfter(script: seq<(Reply, CheckEnv)>, n: nat)
    decreases n
  {
    if n == 0 then |script| >= 2 && script[1].1.headOk else |script| >= 2 && ReadAfter(script[2..], n - 1)
  }

  ghost predicate PushesIn(script: seq<(Reply, CheckEnv)>, left: nat, x: Commit) {
    exists n: nat :: n < left && FixedAfter(script, n, x)
  }

  ghost predicate GreenIn(script: seq<(Reply, CheckEnv)>, left: nat, x: Commit) {
    exists n: nat :: n < left && FixedAfter(script, n, x) && ReadAfter(script, n)
  }

  lemma PushesNext(script: seq<(Reply, CheckEnv)>, left: nat, x: Commit)
    requires left > 0
    ensures PushesIn(script, left, x) <==>
      FixedAfter(script, 0, x) || (RedRound(script) && PushesIn(script[2..], left - 1, x))
  {
    hide Done, Fixed;
    if PushesIn(script, left, x) {
      var n: nat :| n < left && FixedAfter(script, n, x);
      if n > 0 {
        assert n - 1 < left - 1 && FixedAfter(script[2..], n - 1, x);
      }
    }
    if RedRound(script) && PushesIn(script[2..], left - 1, x) {
      var n: nat :| n < left - 1 && FixedAfter(script[2..], n, x);
      assert FixedAfter(script, n + 1, x);
    }
  }

  lemma GreenNext(script: seq<(Reply, CheckEnv)>, left: nat, x: Commit)
    requires left > 0
    ensures GreenIn(script, left, x) <==>
      || (FixedAfter(script, 0, x) && ReadAfter(script, 0))
      || (RedRound(script) && GreenIn(script[2..], left - 1, x))
  {
    hide Done, Fixed;
    if GreenIn(script, left, x) {
      var n: nat :| n < left && FixedAfter(script, n, x) && ReadAfter(script, n);
      if n > 0 {
        assert n - 1 < left - 1 && FixedAfter(script[2..], n - 1, x) && ReadAfter(script[2..], n - 1);
      }
    }
    if RedRound(script) && GreenIn(script[2..], left - 1, x) {
      var n: nat :| n < left - 1 && FixedAfter(script[2..], n, x) && ReadAfter(script[2..], n);
      assert FixedAfter(script, n + 1, x) && ReadAfter(script, n + 1);
    }
  }

  // The run, against this shape.

  /** The run ends green at `x` exactly if `green`, and pushes `x` from here on exactly if `pushes`. */
  ghost predicate Runs(before: seq<Effect>, end: (Check, seq<Effect>), x: Commit, green: bool, pushes: bool) {
    && before <= end.1
    && (end.0.at == CheckEnded(CheckGreen(x)) <==> green)
    && (Pushed(x) in end.1[|before|..] <==> pushes)
  }

  lemma NothingRuns(c: Check, before: seq<Effect>, x: Commit)
    requires !c.at.CheckEnded?
    ensures Runs(before, (c, before), x, false, false)
  {
  }

  lemma RunsOn(before: seq<Effect>, es: seq<Effect>, end: (Check, seq<Effect>), x: Commit, green: bool, pushes: bool)
    requires Runs(before + es, end, x, green, pushes)
    ensures Runs(before, end, x, green, pushes || Pushed(x) in es)
  {
    var log := end.1;
    assert log[|before|..] == es + log[|before + es|..];
  }

  lemma StopsHere(c: Check, log: seq<Effect>, maxRounds: nat, tip: Commit, script: seq<(Reply, CheckEnv)>)
    requires script == [] || !CheckFits(c.at, script[0].0)
    ensures DriveCheck(c, log, maxRounds, tip, script) == (c, log)
  {
  }

  lemma Answers(c: Check, log: seq<Effect>, maxRounds: nat, tip: Commit, script: seq<(Reply, CheckEnv)>)
    requires script != [] && CheckFits(c.at, script[0].0)
    ensures
      var step := ResumeCheck(c, script[0].0, maxRounds, script[0].1, TipAfter(tip, log));
      DriveCheck(c, log, maxRounds, tip, script) ==
        if step.CheckCrash? then (c, log)
        else DriveCheck(step.check, log + step.effects, maxRounds, tip, script[1..])
  {
    hide ResumeCheck, CheckFits, TipAfter;
  }

  lemma EndedStays(c: Check, log: seq<Effect>, maxRounds: nat, tip: Commit, script: seq<(Reply, CheckEnv)>)
    requires c.at.CheckEnded?
    ensures DriveCheck(c, log, maxRounds, tip, script) == (c, log)
  {
  }

  /** A raise ends the run, red or with the exception. */
  lemma RaisedRuns(c: Check, log: seq<Effect>, maxRounds: nat, tip: Commit, script: seq<(Reply, CheckEnv)>, x: Commit)
    requires script != [] && CheckFits(c.at, script[0].0) && script[0].0.Raised? && !c.at.CheckEnded?
    ensures Runs(log, DriveCheck(c, log, maxRounds, tip, script), x, false, false)
  {
    hide DriveCheck, TipAfter;
    Answers(c, log, maxRounds, tip, script);
    NothingRuns(c, log, x);
    if script[0].0.infra {
      var d := c.(at := CheckEnded(CheckRed(c.sha)));
      assert log + [] == log;
      EndedStays(d, log, maxRounds, tip, script[1..]);
    }
  }

  /** What the verify of a fix leads to. */
  lemma {:induction false} FixVerifyRuns(c: Check, log: seq<Effect>, maxRounds: nat, tip: Commit,
                                          script: seq<(Reply, CheckEnv)>, x: Commit)
    requires c.at.AtFixVerify? && c.at.round <= maxRounds
    ensures
      var ok := script != [] && script[0].0 == VerifyEnded(true) && script[0].1.pushOk && c.fixHead == x;
      var red := script != [] && script[0].0 == VerifyEnded(false) && c.at.round < maxRounds;
      Runs(log, DriveCheck(c, log, maxRounds, tip, script), x,
           (ok && script[0].1.headOk) || (red && GreenIn(script[1..], maxRounds - c.at.round, x)),
           ok || (red && PushesIn(script[1..], maxRounds - c.at.round, x)))
    decreases |script|
  {
    hide DriveCheck, TipAfter, GreenIn, PushesIn, FixedAfter, ReadAfter;
    if script == [] || !CheckFits(c.at, script[0].0) {
      StopsHere(c, log, maxRounds, tip, script);
      NothingRuns(c, log, x);
    } else if script[0].0.Raised? {
      RaisedRuns(c, log, maxRounds, tip, script, x);
    } else {
      Answers(c, log, maxRounds, tip, script);
      var step := ResumeCheck(c, script[0].0, maxRounds, script[0].1, TipAfter(tip, log));
      if step.check.at.CheckEnded? {
        EndedStays(step.check, log + step.effects, maxRounds, tip, script[1..]);
        assert (log + step.effects)[|log|..] == step.effects;
      } else {
        FixSessionRuns(step.check, log, maxRounds, tip, script[1..], x);
        assert log + [] == log;
      }
    }
  }

  /** What a fix session, and the rounds from it on, lead to. */
  lemma {:induction false} FixSessionRuns(c: Check, log: seq<Effect>, maxRounds: nat, tip: Commit,
                                           script: seq<(Reply, CheckEnv)>, x: Commit)
    requires c.at.AtFixSession? && c.at.round <= maxRounds
    ensures
      var left := maxRounds - c.at.round + 1;
      Runs(log, DriveCheck(c, log, maxRounds, tip, script), x, GreenIn(script, left, x), PushesIn(script, left, x))
    decreases |script|
  {
    var left := maxRounds - c.at.round + 1;
    GreenNext(script, left, x);
    PushesNext(script, left, x);
    hide DriveCheck, TipAfter, GreenIn, PushesIn, ReadAfter, ResumeCheck, Runs, Reports;
    if script == [] || !CheckFits(c.at, script[0].0) {
      StopsHere(c, log, maxRounds, tip, script);
      NothingRuns(c, log, x);
    } else if script[0].0.Raised? {
      RaisedRuns(c, log, maxRounds, tip, script, x);
    } else if !Done(script[0].0) {
      SessionStopsRun(c, log, maxRounds, tip, script, x);
    } else {
      Answers(c, log, maxRounds, tip, script);
      DoneGoesOn(c, script[0].0, maxRounds, script[0].1, TipAfter(tip, log));
      var d, es := c.(at := AtFixVerify(c.at.round), fixHead := script[0].0.head), [Wrote(script[0].0.head)];
      FixVerifyRuns(d, log + es, maxRounds, tip, script[1..], x);
      FixRoundShape(script, left, x);
      SessionPushesNothing(log, es, DriveCheck(d, log + es, maxRounds, tip, script[1..]), x,
                           GreenIn(script, left, x), PushesIn(script, left, x));
    }
  }

  lemma SessionPushesNothing(log: seq<Effect>, es: seq<Effect>, end: (Check, seq<Effect>), x: Commit,
                             green: bool, pushes: bool)
    requires Runs(log + es, end, x, green, pushes) && |es| == 1 && es[0].Wrote?
    ensures Runs(log, end, x, green, pushes)
  {
    RunsOn(log, es, end, x, green, pushes);
  }

  lemma SessionStopsRun(c: Check, log: seq<Effect>, maxRounds: nat, tip: Commit, script: seq<(Reply, CheckEnv)>,
                        x: Commit)
    requires c.at.AtFixSession? && script != [] && script[0].0.SessionEnded? && !Done(script[0].0)
    ensures Runs(log, DriveCheck(c, log, maxRounds, tip, script), x, false, false)
  {
    NotDoneEndsRed(c, script[0].0, maxRounds, script[0].1, TipAfter(tip, log));
    hide DriveCheck, TipAfter, ResumeCheck;
    Answers(c, log, maxRounds, tip, script);
    var d, es := c.(at := CheckEnded(CheckRed(c.sha))), [Wrote(script[0].0.head)];
    EndedStays(d, log + es, maxRounds, tip, script[1..]);
    assert (log + es)[|log|..] == es;
  }

  /** The shape of the first round, by its verify. */
  lemma FixRoundShape(script: seq<(Reply, CheckEnv)>, left: nat, x: Commit)
    requires left > 0 && script != [] && Done(script[0].0)
    ensures
      var rest := script[1..];
      var ok := rest != [] && rest[0].0 == VerifyEnded(true) && rest[0].1.pushOk && script[0].0.head == x;
      var red := rest != [] && rest[0].0 == VerifyEnded(false) && left > 1;
      && (GreenIn(script, left, x) <==> (ok && rest[0].1.headOk) || (red && GreenIn(rest[1..], left - 1, x)))
      && (PushesIn(script, left, x) <==> ok || (red && PushesIn(rest[1..], left - 1, x)))
  {
    GreenNext(script, left, x);
    PushesNext(script, left, x);
    hide Done, GreenIn, PushesIn;
    if |script| >= 2 {
      assert script[1..][1..] == script[2..];
      if left == 1 {
        NoneLeft(script[2..], x);
      }
    }
  }

  lemma NoneLeft(script: seq<(Reply, CheckEnv)>, x: Commit)
    ensures !GreenIn(script, 0, x) && !PushesIn(script, 0, x)
  {
  }

  /** A whole check ends green at `x` exactly if its tip verified and is `x`, or fewer than R fix rounds, each
      DONE but not verifying, were followed by one that said DONE, left `x`, verified, was pushed and read.
      And it pushes `x` exactly if there is such a round, read or not: never the work of a session that did
      not say DONE, and never a commit that did not verify. */
  lemma CheckMeaning(sha: Commit, maxRounds: nat, script: seq<(Reply, CheckEnv)>, x: Commit)
    ensures
      var (d, log) := DriveCheck(NewCheck(sha), [], maxRounds, sha, script);
      var begun := |script| >= 2 && script[0].0.Go? && script[0].1.addDetachedOk;
      var fixes := begun && script[1].0 == VerifyEnded(false) && script[1].1.addTreeOk;
      && (d.at == CheckEnded(CheckGreen(x)) <==>
            (begun && script[1].0 == VerifyEnded(true) && x == sha) || (fixes && GreenIn(script[2..], maxRounds, x)))
      && (Pushed(x) in log <==> fixes && PushesIn(script[2..], maxRounds, x))
      && (d.at.CheckEnded? && d.at.result.CheckRed? ==> d.at.result.sha == sha)
  {
    hide DriveCheck, TipAfter, GreenIn, PushesIn, FixedAfter, ReadAfter;
    var c, none: seq<Effect> := NewCheck(sha), [];
    assert none + none == none;
    RedNamesTheStart(c, [], maxRounds, sha, script);
    if script == [] || !CheckFits(c.at, script[0].0) {
      StopsHere(c, [], maxRounds, sha, script);
    } else {
      Answers(c, [], maxRounds, sha, script);
      if script[0].1.addDetachedOk {
        TipRuns(c.(at := AtTipVerify), maxRounds, script[1..], x);
        assert |script| >= 2 ==> script[1..][0] == script[1] && script[1..][1..] == script[2..];
      } else {
        EndedStays(c.(at := CheckEnded(CheckRed(sha))), [], maxRounds, sha, script[1..]);
      }
    }
  }

  lemma TipRuns(c: Check, maxRounds: nat, script: seq<(Reply, CheckEnv)>, x: Commit)
    requires c.at.AtTipVerify?
    ensures
      var fixes := script != [] && script[0].0 == VerifyEnded(false) && script[0].1.addTreeOk;
      Runs([], DriveCheck(c, [], maxRounds, c.sha, script), x,
           (script != [] && script[0].0 == VerifyEnded(true) && x == c.sha)
           || (fixes && GreenIn(script[1..], maxRounds, x)),
           fixes && PushesIn(script[1..], maxRounds, x))
  {
    hide DriveCheck, TipAfter, GreenIn, PushesIn, FixedAfter, ReadAfter;
    if script == [] || !CheckFits(c.at, script[0].0) {
      StopsHere(c, [], maxRounds, c.sha, script);
      NothingRuns(c, [], x);
    } else if script[0].0.Raised? {
      RaisedRuns(c, [], maxRounds, c.sha, script, x);
    } else {
      TipAnswered(c, maxRounds, script, x);
    }
  }

  lemma TipAnswered(c: Check, maxRounds: nat, script: seq<(Reply, CheckEnv)>, x: Commit)
    requires c.at.AtTipVerify? && script != [] && script[0].0.VerifyEnded?
    ensures
      var fixes := !script[0].0.ok && script[0].1.addTreeOk;
      Runs([], DriveCheck(c, [], maxRounds, c.sha, script), x,
           (script[0].0.ok && x == c.sha) || (fixes && GreenIn(script[1..], maxRounds, x)),
           fixes && PushesIn(script[1..], maxRounds, x))
  {
    hide DriveCheck, TipAfter, GreenIn, PushesIn, FixedAfter, ReadAfter, ResumeCheck;
    var r, env := script[0].0, script[0].1;
    var none: seq<Effect> := [];
    FitsTip(c, r);
    Answers(c, none, maxRounds, c.sha, script);
    TipVerified(c, r.ok, maxRounds, env, TipAfter(c.sha, none));
    assert r == VerifyEnded(r.ok) && none + none == none && none + [Verified(c.sha)] == [Verified(c.sha)];
    if r.ok {
      EndedStays(c.(at := CheckEnded(CheckGreen(c.sha))), [Verified(c.sha)], maxRounds, c.sha, script[1..]);
      EndedRuns(c.(at := CheckEnded(CheckGreen(c.sha))), [Verified(c.sha)], x);
    } else if env.addTreeOk && maxRounds > 0 {
      var d := c.(at := AtFixSession(1), fixHead := TipAfter(c.sha, none));
      FixSessionRuns(d, none, maxRounds, c.sha, script[1..], x);
    } else {
      EndedStays(c.(at := CheckEnded(CheckRed(c.sha))), none, maxRounds, c.sha, script[1..]);
      EndedRuns(c.(at := CheckEnded(CheckRed(c.sha))), none, x);
      NoneLeft(script[1..], x);
    }
  }

  lemma FitsTip(c: Check, r: Reply)
    requires c.at.AtTipVerify? && r.VerifyEnded?
    ensures CheckFits(c.at, r)
  {
  }

  lemma TipVerified(c: Check, ok: bool, maxRounds: nat, env: CheckEnv, tip: Commit)
    requires c.at.AtTipVerify?
    ensures ResumeCheck(c, VerifyEnded(ok), maxRounds, env, tip) ==
      if ok then CheckStep(c.(at := CheckEnded(CheckGreen(c.sha))), [Verified(c.sha)])
      else if !env.addTreeOk || maxRounds == 0 then CheckStep(c.(at := CheckEnded(CheckRed(c.sha))), [])
      else CheckStep(c.(at := AtFixSession(1), fixHead := tip), [])
  {
  }

  lemma EndedRuns(c: Check, log: seq<Effect>, x: Commit)
    requires forall e | e in log :: !e.Pushed?
    ensures Runs([], (c, log), x, c.at == CheckEnded(CheckGreen(x)), false)
  {
    assert log[0..] == log;
  }

  lemma StepNamesTheStart(c: Check, r: Reply, maxRounds: nat, env: CheckEnv, tip: Commit)
    requires CheckFits(c.at, r)
    ensures
      var step := ResumeCheck(c, r, maxRounds, env, tip);
      step.CheckStep? ==>
        && step.check.sha == c.sha
        && (step.check.at.CheckEnded? && step.check.at.result.CheckRed? ==> step.check.at.result.sha == c.sha)
  {
    hide OutcomeOf;
  }

  lemma {:induction false} RedNamesTheStart(c: Check, log: seq<Effect>, maxRounds: nat, tip: Commit,
                                             script: seq<(Reply, CheckEnv)>)
    requires c.at.CheckEnded? && c.at.result.CheckRed? ==> c.at.result.sha == c.sha
    ensures
      var d := DriveCheck(c, log, maxRounds, tip, script).0;
      d.sha == c.sha && (d.at.CheckEnded? && d.at.result.CheckRed? ==> d.at.result.sha == c.sha)
    decreases |script|
  {
    if script == [] || !CheckFits(c.at, script[0].0) {
    } else {
      hide TipAfter, ResumeCheck, CheckFits;
      StepNamesTheStart(c, script[0].0, maxRounds, script[0].1, TipAfter(tip, log));
      var step := ResumeCheck(c, script[0].0, maxRounds, script[0].1, TipAfter(tip, log));
      if step.CheckStep? {
        RedNamesTheStart(step.check, log + step.effects, maxRounds, tip, script[1..]);
      }
    }
  }
}

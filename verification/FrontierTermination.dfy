/** The frontier ends: with every outstanding job answered, after a bounded number of passes. */
module FrontierTermination {
  import opened Wrappers
  import opened TicketFlow
  import opened IntegrationCheck
  import opened Sorting
  import opened Scheduler
  import opened SchedulerInvariant
  import opened Frontier
  import opened FrontierBound
  import opened FrontierTheorems
  import opened FrontierProgress

  /** The pass waits until a job ends, if one is outstanding then. */
  predicate Answers(cfg: Config, s: State, input: Input)
    requires Inv(cfg, s, None) && s.status == Looping
  {
    var r := Prepare(cfg, s, input);
    r.status == Looping && r.outstanding != multiset{} ==> input.event.Some? && Deliverable(r, input.event.value)
  }

  predicate AlwaysAnswers(cfg: Config, s: State, inputs: seq<Input>)
    requires Inv(cfg, s, None) && s.status == Looping
    decreases |inputs|
  {
    inputs != [] ==>
      && Answers(cfg, s, inputs[0])
      && var s' := Pass(cfg, s, inputs[0]);
         s'.status == Looping ==> AlwaysAnswers(cfg, s', inputs[1..])
  }

  predicate RunAnswers(cfg: Config, w: World, inputs: seq<Input>)
    requires WorldOk(cfg, w)
  {
    BeginOk(cfg, w);
    AlwaysAnswers(cfg, Begin(cfg, w), inputs)
  }

  /** What is left of a run: the jobs it may still end, and one pass in which the branch may break. */
  function Left(cfg: Config, s: State, tickets: seq<nat>): nat {
    Potential(cfg, s, tickets) + if s.guard.broken then 0 else 1
  }

  lemma AdvanceBroken(cfg: Config, s: State, r: Reply, env: CheckEnv)
    requires s.checker.Some? && CheckFits(s.checker.value.at, r)
    ensures s.guard.broken ==> AdvanceCheck(cfg, s, r, env).guard.broken
  {
    hide ResumeCheck, AbsorbCheck;
  }

  lemma PrepareBroken(cfg: Config, s: State, input: Input)
    requires Inv(cfg, s, None) && s.status == Looping && s.guard.broken
    ensures Prepare(cfg, s, input).guard.broken
  {
    hide Inv, Release, GiveBack, CheckIfDue, FillSlots, Ready, Take, NumbersIn;
    PollKeeps(cfg, s, input.stop);
    var polled := Poll(s, input.stop);
    if !polled.immediate {
      ReleaseMode(cfg, polled, input.releaseEnv);
      var rel := Release(cfg, polled, input.releaseEnv);
      GivenBack(cfg, rel, input.parkReadable);
      var given := GiveBack(cfg, rel, input.parkReadable);
      CheckStarts(cfg, given, input);
      FillSlotsOnly(cfg, CheckIfDue(cfg, given, input), input.startEnv);
    }
  }

  lemma ActedBroken(cfg: Config, s: State, e: Event, readable: nat -> bool)
    requires e.number == CHECKER ==> s.checker.Some? && CheckFits(s.checker.value.at, e.reply)
    requires e.number != CHECKER ==>
      e.number in s.running && e.number in s.world.cards && Fits(s.running[e.number].at, e.reply)
    requires s.guard.broken
    ensures Acted(cfg, s, e, readable).guard.broken
  {
    hide AdvanceFlow, AdvanceCheck, Fits, CheckFits, ParkCard, Without;
    if !s.limited && e.number == CHECKER {
      AdvanceBroken(cfg, s, e.reply, e.checkEnv);
    } else if !s.limited {
      AdvanceMode(cfg, s, e.number, e.reply, e.env);
    }
  }

  lemma DeliverBroken(cfg: Config, s: State, input: Input)
    requires Inv(cfg, s, None) && s.status == Looping && s.guard.broken
    ensures Deliver(cfg, s, input).guard.broken
  {
    hide Inv, Deliver, Deliverable, Acted, Fits, CheckFits, IsLimited;
    if input.event.Some? && Deliverable(s, input.event.value) && !input.late {
      var e := input.event.value;
      CanAct(cfg, s, e);
      DeliverActs(cfg, s, input);
      ActedBroken(cfg, Taken(s, e), e, input.parkReadable);
    } else {
      DeliverIdles(cfg, s, input);
    }
  }

  /** With every outstanding job answered, a pass that goes on has less left. */
  lemma PassDescends(cfg: Config, s: State, input: Input, tickets: seq<nat>)
    requires Inv(cfg, s, None) && s.status == Looping && Covers(s, tickets) && !s.limited && Unlimited(input)
    requires Answers(cfg, s, input)
    ensures
      var s' := Pass(cfg, s, input);
      s'.status == Looping ==> !s'.limited && Covers(s', tickets) && Left(cfg, s', tickets) < Left(cfg, s, tickets)
  {
    hide Inv, Prepare, Deliver, Potential, Covers, Deliverable, Unlimited, IsLimited;
    PassPays(cfg, s, input, tickets);
    PrepareLimit(cfg, s, input);
    var r := Prepare(cfg, s, input);
    var s' := Pass(cfg, s, input);
    if s'.status == Looping {
      IdleEnds(cfg, r, input);
      if s.guard.broken {
        PrepareBroken(cfg, s, input);
      }
      if r.guard.broken {
        DeliverBroken(cfg, r, input);
      }
      if r.outstanding == multiset{} {
        NothingOutstanding(cfg, r);
        assert |r.running| == |r.running.Keys|;
        StillWaiting(cfg, s, input);
        DeliverNothing(cfg, r, input);
      } else {
        DeliverCounts(cfg, r, input);
      }
    }
  }

  lemma IdleEnds(cfg: Config, s: State, input: Input)
    requires !s.limited
    ensures Idle(cfg, s, input).status == Returned
  {
  }

  lemma DeliverCounts(cfg: Config, s: State, input: Input)
    requires Inv(cfg, s, None) && s.status == Looping && input.event.Some? && Deliverable(s, input.event.value)
    ensures Deliver(cfg, s, input).status == Looping ==> Deliver(cfg, s, input).jobs == s.jobs + 1
  {
    if !input.late {
      var e := input.event.value;
      TakeKeeps(cfg, s, e);
      var taken := Taken(s, e);
      if !taken.limited && e.number != CHECKER {
        AdvanceMode(cfg, taken, e.number, e.reply, e.env);
      } else if !taken.limited {
        CheckSpends(cfg, taken, e);
      }
      hide Inv, AdvanceFlow, AdvanceCheck;
    }
  }

  lemma {:induction false} RunDescends(cfg: Config, s: State, inputs: seq<Input>, tickets: seq<nat>)
    requires Inv(cfg, s, None) && s.status == Looping && Covers(s, tickets) && !s.limited
    requires (forall input | input in inputs :: Unlimited(input)) && AlwaysAnswers(cfg, s, inputs)
    requires |inputs| > Left(cfg, s, tickets)
    ensures Run(cfg, s, inputs).status != Looping
    decreases |inputs|
  {
    hide Inv, InvEnd, Pass, Left, Covers, Unlimited, Answers;
    PassDescends(cfg, s, inputs[0], tickets);
    var s' := Pass(cfg, s, inputs[0]);
    if s'.status == Looping {
      RunDescends(cfg, s', inputs[1..], tickets);
    }
  }

  /** A whole run: with T tickets, R fix rounds, no usage limit, and every outstanding job answered, the
      loop is over after T(6R+3) + (T+1)(2R+1) + 2 passes, whatever the answers are and in any order. */
  lemma FrontierEnds(cfg: Config, w: World, inputs: seq<Input>, tickets: seq<nat>)
    requires WorldOk(cfg, w) && NoRepeats(tickets) && forall t | t in w.cards :: t in tickets
    requires forall input | input in inputs :: Unlimited(input)
    requires RunAnswers(cfg, w, inputs)
    requires |inputs| >= |tickets| * (6 * cfg.maxRounds + 3) + (|tickets| + 1) * (2 * cfg.maxRounds + 1) + 2
    ensures RunOf(cfg, w, inputs).status != Looping
  {
    BeginOk(cfg, w);
    BeginsLooping(cfg, w);
    FreshLeft(cfg, w, tickets);
    FreshCovers(cfg, w, tickets);
    hide Inv, InvEnd, Run, AlwaysAnswers, Begin, Left, Covers, WorldOk, Unlimited;
    RunDescends(cfg, Begin(cfg, w), inputs, tickets);
  }

  lemma FreshCovers(cfg: Config, w: World, tickets: seq<nat>)
    requires NoRepeats(tickets) && forall t | t in w.cards :: t in tickets
    ensures Covers(Begin(cfg, w), tickets) && !Begin(cfg, w).limited
  {
  }

  lemma FreshLeft(cfg: Config, w: World, tickets: seq<nat>)
    ensures Left(cfg, Begin(cfg, w), tickets) <=
      |tickets| * (6 * cfg.maxRounds + 3) + (|tickets| + 1) * (2 * cfg.maxRounds + 1) + 1
  {
    hide Total;
    FreshTotal(cfg, Begin(cfg, w), tickets);
    OneCheckMore(|tickets|, 6 * cfg.maxRounds + 3, 2 * cfg.maxRounds + 1);
  }

  /** And it never ends more jobs than that, answered or not. */
  lemma RunJobsAreBounded(cfg: Config, w: World, inputs: seq<Input>, tickets: seq<nat>)
    requires WorldOk(cfg, w) && NoRepeats(tickets) && forall t | t in w.cards :: t in tickets
    requires forall input | input in inputs :: Unlimited(input)
    ensures RunOf(cfg, w, inputs).jobs <=
      |tickets| * (6 * cfg.maxRounds + 3) + (|tickets| + 1) * (2 * cfg.maxRounds + 1)
  {
    BeginOk(cfg, w);
    hide Inv, InvEnd, Run;
    FrontierBound.JobsAreBounded(cfg, Begin(cfg, w), inputs, tickets);
  }
}

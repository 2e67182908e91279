/** Nothing is dispatched and nothing merges before the integration branch is known to be green. */
module FrontierStart {
  import opened Wrappers
  import opened Board
  import opened TicketFlow
  import opened IntegrationCheck
  import opened Scheduler
  import opened SchedulerInvariant
  import opened Frontier
  import opened FrontierTheorems
  import opened FrontierProgress
  import opened FrontierPause
  import opened FrontierStop

  /** What was green stays named: the guard never forgets its last green commit for none. */
  predicate GreenStays(s: State, s': State) {
    s.guard.green.Some? ==> s'.guard.green.Some?
  }

  lemma AdvanceGreen(cfg: Config, s: State, t: nat, r: Reply, env: Env)
    requires t in s.running && t in s.world.cards && Fits(s.running[t].at, r)
    ensures GreenStays(s, AdvanceFlow(cfg, s, t, r, env))
  {
    hide Resume, Absorb;
  }

  lemma CheckGreens(cfg: Config, s: State, r: Reply, env: CheckEnv)
    requires s.checker.Some? && CheckFits(s.checker.value.at, r)
    ensures GreenStays(s, AdvanceCheck(cfg, s, r, env))
  {
    hide ResumeCheck, AbsorbCheck;
  }

  lemma {:induction false} ReleaseGreen(cfg: Config, s: State, envOf: nat -> Env)
    requires Inv(cfg, s, None) && s.status == Looping
    ensures GreenStays(s, Release(cfg, s, envOf))
    decreases |s.waiting|
  {
    if !CanRelease(s) {
    } else {
      var t := s.waiting[0];
      ReleaseOneKeeps(cfg, s, envOf(t));
      AdvanceGreen(cfg, Popped(s), t, Go, envOf(t));
      hide Inv, AdvanceFlow, YieldFrame;
      ReleaseGreen(cfg, AdvanceFlow(cfg, Popped(s), t, Go, envOf(t)), envOf);
    }
  }

  lemma GiveBackGreen(cfg: Config, s: State, readable: nat -> bool)
    requires Inv(cfg, s, None)
    ensures GreenStays(s, GiveBack(cfg, s, readable))
  {
    WholeList(cfg, s);
    hide Inv, ParkEach;
    if s.guard.broken || s.limited {
      ParkEachOnly(cfg, s, s.waiting, readable);
    }
  }

  lemma CheckDueGreen(cfg: Config, s: State, input: Input)
    requires Inv(cfg, s, None) && s.status == Looping
    ensures GreenStays(s, CheckIfDue(cfg, s, input))
  {
    hide Inv, AdvanceCheck;
    if CheckDue(s) {
      CheckGreens(cfg, CheckStarted(s), Go, input.checkStart);
    }
  }

  lemma BeforeGreen(cfg: Config, s: State, input: Input)
    requires Inv(cfg, s, None) && s.status == Looping && !Poll(s, input.stop).immediate
    ensures GreenStays(s, BeforeDispatch(cfg, s, input))
  {
    hide Inv, Release, GiveBack, CheckIfDue;
    PollKeeps(cfg, s, input.stop);
    var polled := Poll(s, input.stop);
    ReleaseGreen(cfg, polled, input.releaseEnv);
    var rel := Release(cfg, polled, input.releaseEnv);
    GiveBackGreen(cfg, rel, input.parkReadable);
    CheckDueGreen(cfg, GiveBack(cfg, rel, input.parkReadable), input);
  }

  lemma FillGreen(cfg: Config, s: State, envOf: nat -> Env)
    requires Inv(cfg, s, None) && s.status == Looping
    ensures FillSlots(cfg, s, envOf).guard == s.guard
  {
    hide Inv, FillSlots, Ready, Take, NumbersIn;
    FillSlotsOnly(cfg, s, envOf);
  }

  lemma DeliverGreen(cfg: Config, s: State, input: Input)
    requires Inv(cfg, s, None) && s.status == Looping
    ensures GreenStays(s, Deliver(cfg, s, input))
  {
    hide Inv, Deliver, Deliverable, Acted, Fits, CheckFits, IsLimited;
    if input.event.Some? && Deliverable(s, input.event.value) && !input.late {
      var e := input.event.value;
      CanAct(cfg, s, e);
      DeliverActs(cfg, s, input);
      ActedGreen(cfg, Taken(s, e), e, input.parkReadable);
    } else {
      IdleGreen(cfg, s, input);
    }
  }

  lemma IdleGreen(cfg: Config, s: State, input: Input)
    requires input.event.None? || !Deliverable(s, input.event.value) || input.late
    ensures Deliver(cfg, s, input).guard == s.guard
  {
    hide Deliverable, AdvanceFlow, AdvanceCheck, ParkFlow, ParkCheck, IsLimited;
  }

  lemma ActedGreen(cfg: Config, s: State, e: Event, readable: nat -> bool)
    requires e.number == CHECKER ==> s.checker.Some? && CheckFits(s.checker.value.at, e.reply)
    requires e.number != CHECKER ==>
      e.number in s.running && e.number in s.world.cards && Fits(s.running[e.number].at, e.reply)
    ensures GreenStays(s, Acted(cfg, s, e, readable))
  {
    hide AdvanceFlow, AdvanceCheck, Fits, CheckFits, ParkCard, Without;
    if !s.limited && e.number == CHECKER {
      CheckGreens(cfg, s, e.reply, e.checkEnv);
    } else if !s.limited {
      AdvanceGreen(cfg, s, e.number, e.reply, e.env);
    }
  }

  /** Whatever was dispatched, the guard has named a green commit. */
  predicate StartedGreen(s: State) {
    s.dispatches != multiset{} ==> s.guard.green.Some?
  }

  lemma SettledGreen(cfg: Config, s: State)
    requires Inv(cfg, s, None) && s.Settled()
    ensures s.guard.green.Some?
  {
    hide WaitingOk, RunningOk, JobsOk, CountsOk, CardsOk;
  }

  lemma PrepareStarted(cfg: Config, s: State, input: Input)
    requires Inv(cfg, s, None) && s.status == Looping && StartedGreen(s)
    ensures StartedGreen(Prepare(cfg, s, input))
  {
    hide Inv, Release, GiveBack, CheckIfDue, FillSlots, BeforeDispatch;
    PollKeeps(cfg, s, input.stop);
    if Poll(s, input.stop).immediate {
    } else {
      var x := BeforeDispatch(cfg, s, input);
      BeforeGreen(cfg, s, input);
      BeforeStarts(cfg, s, input);
      FillGreen(cfg, x, input.startEnv);
      PreparedBy(cfg, s, input);
      if CanDispatch(cfg, x) {
        SettledGreen(cfg, x);
      } else {
        NoFill(cfg, x, input.startEnv);
      }
    }
  }

  lemma NoFill(cfg: Config, s: State, envOf: nat -> Env)
    requires Inv(cfg, s, None) && s.status == Looping && !CanDispatch(cfg, s)
    ensures FillSlots(cfg, s, envOf) == s
  {
    hide Inv, DispatchAll, Ready;
  }

  lemma PassStarted(cfg: Config, s: State, input: Input)
    requires Inv(cfg, s, None) && s.status == Looping && StartedGreen(s)
    ensures StartedGreen(Pass(cfg, s, input))
  {
    hide Inv, Prepare, Deliver;
    PrepareStarted(cfg, s, input);
    var r := Prepare(cfg, s, input);
    if r.status == Looping && !(|r.running| == 0 && r.checker.None?) {
      DeliverGreen(cfg, r, input);
      DeliverStarts(cfg, r, input);
    }
  }

  lemma {:induction false} RunStarted(cfg: Config, s: State, inputs: seq<Input>)
    requires Inv(cfg, s, None) && s.status == Looping && StartedGreen(s)
    ensures StartedGreen(Run(cfg, s, inputs))
    decreases |inputs|
  {
    hide Inv, InvEnd, Pass, StartedGreen;
    if inputs == [] {
    } else {
      PassStarted(cfg, s, inputs[0]);
      var s' := Pass(cfg, s, inputs[0]);
      if s'.status == Looping {
        RunStarted(cfg, s', inputs[1..]);
      }
    }
  }

  lemma {:induction false} NeverGreen(h: seq<Mark>, baseline: Option<Commit>)
    requires forall m | m in h :: !m.TurnedGreen?
    ensures GreenOf(h, baseline) == baseline
  {
    if h == [] {
    } else {
      NeverGreen(h[..|h| - 1], baseline);
    }
  }

  /** In every run, before a check first turns the branch green, a ticket is dispatched or a merge lands only
      if git could read both branches and the integration branch's tip is in the base branch. */
  lemma NothingBeforeGreen(cfg: Config, w: World, inputs: seq<Input>)
    requires WorldOk(cfg, w)
    requires forall m | m in RunOf(cfg, w, inputs).world.history :: !m.TurnedGreen?
    requires RunOf(cfg, w, inputs).dispatches != multiset{} || RunOf(cfg, w, inputs).world.history != []
    ensures cfg.start.tip.Some? && cfg.start.base.Some? && cfg.start.ancestor == Some(true)
  {
    hide InvEnd, WorldOk, GreenOk, CardsOk, Orderly;
    var s := RunOf(cfg, w, inputs);
    RunBegun(cfg, w, inputs);
    EndIsGreen(cfg, s);
    hide RunOf;
    NeverGreen(s.world.history, cfg.Baseline());
    NamedGreen(cfg, s);
  }

  lemma RunBegun(cfg: Config, w: World, inputs: seq<Input>)
    requires WorldOk(cfg, w)
    ensures StartedGreen(RunOf(cfg, w, inputs))
  {
    BeginOk(cfg, w);
    BeginsLooping(cfg, w);
    NothingBegun(cfg, w);
    hide Inv, InvEnd, Run, Begin, StartedGreen;
    RunStarted(cfg, Begin(cfg, w), inputs);
  }

  lemma NothingBegun(cfg: Config, w: World)
    ensures StartedGreen(Begin(cfg, w))
  {
  }

  lemma NamedGreen(cfg: Config, s: State)
    requires GreenOk(cfg, s) && StartedGreen(s) && GreenOf(s.world.history, cfg.Baseline()) == cfg.Baseline()
    requires s.dispatches != multiset{} || s.world.history != []
    requires forall m | m in s.world.history :: !m.TurnedGreen?
    ensures cfg.Baseline().Some?
  {
    var h := s.world.history;
    if h != [] {
      OrderlyAt(h, cfg.Baseline(), 0);
      assert h[0] in h && h[..0] == [];
    }
  }
}

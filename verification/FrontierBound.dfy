/** How many jobs a run can end in: a potential that every finished job uses up. */
module FrontierBound {
  import opened Wrappers
  import opened Board
  import opened TicketFlow
  import opened TicketFlowProofs
  import opened IntegrationCheck
  import opened Sorting
  import opened Scheduler
  import opened SchedulerInvariant
  import opened SchedulerActions
  import opened Frontier

  /** The most jobs one ticket flow, and one integration check, can run. */
  function FlowJobs(cfg: Config): nat {
    6 * cfg.maxRounds + 3
  }

  function CheckJobs(cfg: Config): nat {
    2 * cfg.maxRounds + 1
  }

  /** What a ticket may still cost: its flow's jobs, and the check its merge makes due. */
  function Cost(cfg: Config, s: State, t: nat): nat {
    if t in s.running then
      (if s.running[t].rounds <= cfg.maxRounds && s.running[t].mergeRounds <= cfg.maxRounds
       then Fuel(s.running[t], cfg.maxRounds) else 0) + CheckJobs(cfg)
    else if t in s.dispatched then 0
    else FlowJobs(cfg) + CheckJobs(cfg)
  }

  function Total(cfg: Config, s: State, tickets: seq<nat>): nat {
    if tickets == [] then 0 else Cost(cfg, s, tickets[0]) + Total(cfg, s, tickets[1..])
  }

  /** What the check that runs, or is due, may still cost. */
  function CheckCost(cfg: Config, s: State): nat {
    if s.checker.Some? then CheckFuel(s.checker.value, cfg.maxRounds)
    else if s.guard.needsCheck then CheckJobs(cfg) else 0
  }

  function Potential(cfg: Config, s: State, tickets: seq<nat>): nat {
    Total(cfg, s, tickets) + CheckCost(cfg, s)
  }

  lemma {:induction false} TotalSame(cfg: Config, s: State, s': State, tickets: seq<nat>)
    requires forall u | u in tickets :: Cost(cfg, s', u) == Cost(cfg, s, u)
    ensures Total(cfg, s', tickets) == Total(cfg, s, tickets)
  {
    if tickets == [] {
    } else {
      assert forall u | u in tickets[1..] :: u in tickets;
      TotalSame(cfg, s, s', tickets[1..]);
    }
  }

  /** Changing one ticket's cost changes the total by as much. */
  lemma {:induction false} TotalMoves(cfg: Config, s: State, s': State, tickets: seq<nat>, t: nat)
    requires NoRepeats(tickets) && t in tickets
    requires forall u | u in tickets && u != t :: Cost(cfg, s', u) == Cost(cfg, s, u)
    ensures Total(cfg, s', tickets) - Total(cfg, s, tickets) == Cost(cfg, s', t) - Cost(cfg, s, t)
  {
    var rest := tickets[1..];
    assert tickets == [tickets[0]] + rest;
    assert forall j | 0 <= j < |rest| :: rest[j] == tickets[1 + j];
    if tickets[0] == t {
      assert t !in rest;
      TotalSame(cfg, s, s', rest);
    } else {
      TotalMoves(cfg, s, s', rest, t);
    }
  }

  /** Outside ticket `t` nothing a cost reads has changed. */
  predicate OnlyTouches(s: State, t: nat, s': State) {
    s'.running - {t} == s.running - {t} && s'.dispatched - {t} == s.dispatched - {t}
  }

  lemma CostElsewhere(cfg: Config, s: State, t: nat, s': State, u: nat)
    requires OnlyTouches(s, t, s') && u != t
    ensures Cost(cfg, s', u) == Cost(cfg, s, u)
  {
    hide Fuel;
    assert u in s.dispatched <==> u in s.dispatched - {t};
    assert u in s'.dispatched <==> u in s'.dispatched - {t};
    assert u in s.running <==> u in s.running - {t};
    assert u in s'.running <==> u in s'.running - {t};
    if u in s.running {
      assert s.running[u] == (s.running - {t})[u] == (s'.running - {t})[u] == s'.running[u];
    }
  }

  lemma TouchMoves(cfg: Config, s: State, t: nat, s': State, tickets: seq<nat>)
    requires OnlyTouches(s, t, s') && NoRepeats(tickets) && t in tickets
    ensures Total(cfg, s', tickets) - Total(cfg, s, tickets) == Cost(cfg, s', t) - Cost(cfg, s, t)
  {
    hide OnlyTouches, Cost;
    forall u | u in tickets && u != t
      ensures Cost(cfg, s', u) == Cost(cfg, s, u)
    {
      CostElsewhere(cfg, s, t, s', u);
    }
    TotalMoves(cfg, s, s', tickets, t);
  }

  /** A step that spends `spent` jobs and pays for them out of the potential. */
  predicate Pays(cfg: Config, s: State, s': State, tickets: seq<nat>, spent: nat) {
    Potential(cfg, s', tickets) + spent <= Potential(cfg, s, tickets)
  }

  /** The cost of ticket `t`, and of the checks, around a resumption of its flow. */
  lemma YieldCost(cfg: Config, s: State, t: nat, r: Reply, env: Env)
    requires t in s.running && t in s.world.cards && t in s.dispatched
    requires FlowOk(s.running[t], cfg.maxRounds) && Fits(s.running[t].at, r)
    requires Resume(s.running[t], r, cfg.maxRounds, env).Step?
    ensures
      var s' := AdvanceFlow(cfg, s, t, r, env);
      && OnlyTouches(s, t, s')
      && Cost(cfg, s', t) + CheckCost(cfg, s') + (if AtJob(s.running[t].at) then 1 else 0)
         <= Cost(cfg, s, t) + CheckCost(cfg, s)
  {
    ResumeFlowOk(s.running[t], r, cfg.maxRounds, env);
    hide Resume, Absorb, Fuel, FlowOk;
    var step := Resume(s.running[t], r, cfg.maxRounds, env);
    StepCost(cfg, s, t, step);
  }

  lemma StepCost(cfg: Config, s: State, t: nat, step: Step)
    requires t in s.running && t in s.world.cards && t in s.dispatched && step.Step?
    requires s.running[t].rounds <= cfg.maxRounds && s.running[t].mergeRounds <= cfg.maxRounds
    requires step.flow.rounds <= cfg.maxRounds && step.flow.mergeRounds <= cfg.maxRounds
    ensures
      var s' := Yielded(s, t, step);
      && OnlyTouches(s, t, s')
      && Cost(cfg, s', t) + CheckCost(cfg, s') + Fuel(s.running[t], cfg.maxRounds)
         <= Cost(cfg, s, t) + CheckCost(cfg, s) + Fuel(step.flow, cfg.maxRounds)
  {
    if step.flow.at.Ended? {
      EndCost(cfg, s, t, step);
    } else {
      MoveCost(cfg, s, t, step);
    }
    hide Yielded, Fuel, Cost, CheckCost;
  }

  lemma EndCost(cfg: Config, s: State, t: nat, step: Step)
    requires t in s.running && t in s.world.cards && t in s.dispatched && step.Step? && step.flow.at.Ended?
    requires s.running[t].rounds <= cfg.maxRounds && s.running[t].mergeRounds <= cfg.maxRounds
    requires step.flow.rounds <= cfg.maxRounds && step.flow.mergeRounds <= cfg.maxRounds
    ensures
      var s' := Yielded(s, t, step);
      && OnlyTouches(s, t, s')
      && Cost(cfg, s', t) + CheckCost(cfg, s') + Fuel(s.running[t], cfg.maxRounds)
         <= Cost(cfg, s, t) + CheckCost(cfg, s) + Fuel(step.flow, cfg.maxRounds)
  {
    hide Absorb;
    assert Fuel(step.flow, cfg.maxRounds) == 0;
    hide Fuel;
  }

  lemma MoveCost(cfg: Config, s: State, t: nat, step: Step)
    requires t in s.running && t in s.world.cards && t in s.dispatched && step.Step? && !step.flow.at.Ended?
    requires s.running[t].rounds <= cfg.maxRounds && s.running[t].mergeRounds <= cfg.maxRounds
    requires step.flow.rounds <= cfg.maxRounds && step.flow.mergeRounds <= cfg.maxRounds
    ensures
      var s' := Yielded(s, t, step);
      && OnlyTouches(s, t, s')
      && Cost(cfg, s', t) + CheckCost(cfg, s') + Fuel(s.running[t], cfg.maxRounds)
         <= Cost(cfg, s, t) + CheckCost(cfg, s) + Fuel(step.flow, cfg.maxRounds)
  {
    hide Absorb, Fuel;
  }

  lemma AdvancePays(cfg: Config, s: State, t: nat, r: Reply, env: Env, tickets: seq<nat>)
    requires t in s.running && t in s.world.cards && t in s.dispatched && t in tickets && NoRepeats(tickets)
    requires FlowOk(s.running[t], cfg.maxRounds) && Fits(s.running[t].at, r)
    requires Resume(s.running[t], r, cfg.maxRounds, env).Step?
    ensures Pays(cfg, s, AdvanceFlow(cfg, s, t, r, env), tickets, if AtJob(s.running[t].at) then 1 else 0)
  {
    hide Resume, FlowOk, Cost, CheckCost, OnlyTouches, AdvanceFlow, Fits;
    YieldCost(cfg, s, t, r, env);
    TouchMoves(cfg, s, t, AdvanceFlow(cfg, s, t, r, env), tickets);
  }

  // Every stage of a pass pays for itself.

  predicate Covers(s: State, tickets: seq<nat>) {
    NoRepeats(tickets) && forall t | t in s.world.cards :: t in tickets
  }

  /** A flow of the invariant, ready to be resumed. */
  lemma PlacedFlow(cfg: Config, s: State, hand: Option<nat>, t: nat, tickets: seq<nat>)
    requires Inv(cfg, s, hand) && t in s.running && Covers(s, tickets)
    ensures t in s.world.cards && t in s.dispatched && t in tickets && FlowOk(s.running[t], cfg.maxRounds)
    ensures t != CHECKER
    ensures CardOk(s.running[t], s.world.cards[t])
  {
    assert FlowPlaced(cfg, s, hand, t);
  }

  lemma SameCosts(cfg: Config, s: State, s': State, tickets: seq<nat>)
    requires s'.running == s.running && s'.dispatched == s.dispatched
    ensures Total(cfg, s', tickets) == Total(cfg, s, tickets)
  {
    TotalSame(cfg, s, s', tickets);
  }

  lemma {:induction false} ReleasePays(cfg: Config, s: State, envOf: nat -> Env, tickets: seq<nat>)
    requires Inv(cfg, s, None) && s.status == Looping && Covers(s, tickets)
    ensures
      var r := Release(cfg, s, envOf);
      Pays(cfg, s, r, tickets, 0) && Covers(r, tickets) && r.limited == s.limited && r.jobs == s.jobs
    decreases |s.waiting|
  {
    if !CanRelease(s) {
    } else {
      var t := s.waiting[0];
      ReleaseOneKeeps(cfg, s, envOf(t));
      PopKeeps(cfg, s);
      var p := Popped(s);
      var s' := AdvanceFlow(cfg, p, t, Go, envOf(t));
      SameCosts(cfg, s, p, tickets);
      assert CheckCost(cfg, p) == CheckCost(cfg, s);
      hide Inv, AdvanceFlow, CheckCost, FlowOk, CardOk;
      PlacedFlow(cfg, p, Some(t), t, tickets);
      GoNeverCrashes(p.running[t], cfg.maxRounds, envOf(t));
      AdvancePays(cfg, p, t, Go, envOf(t), tickets);
      ReleasePays(cfg, s', envOf, tickets);
    }
  }

  lemma {:induction false} ParkEachPays(cfg: Config, s: State, list: seq<nat>, readable: nat -> bool, tickets: seq<nat>)
    requires Inv(cfg, s, None) && ParkList(s, list) && Covers(s, tickets)
    ensures
      var r := ParkEach(cfg, s, list, readable);
      Pays(cfg, s, r, tickets, 0) && Covers(r, tickets) && r.limited == s.limited && r.jobs == s.jobs
    decreases |list|
  {
    if list == [] {
    } else {
      var t := list[0];
      var s' := ParkFlow(s, t, readable(t));
      ParkOneKeeps(cfg, s, list, readable(t));
      ParkWaitingPays(cfg, s, t, readable(t), tickets);
      hide Inv, ParkFlow;
      ParkEachPays(cfg, s', list[1..], readable, tickets);
    }
  }

  /** A waiting ticket has an open PR: parked, it stays in review and is not dispatched again. */
  lemma ParkWaitingPays(cfg: Config, s: State, t: nat, readable: bool, tickets: seq<nat>)
    requires Inv(cfg, s, None) && t in s.waiting && Covers(s, tickets)
    ensures t in s.running && t in s.world.cards
    ensures
      var s' := ParkFlow(s, t, readable);
      && Pays(cfg, s, s', tickets, 0) && Covers(s', tickets) && s'.dispatched == s.dispatched
      && s'.limited == s.limited && s'.jobs == s.jobs
  {
    WaiterIsOpen(cfg, s, t);
    PlacedFlow(cfg, s, None, t, tickets);
    hide Inv, ParkCard, Without, Fuel, FlowOk, CardOk;
    TouchMoves(cfg, s, t, ParkFlow(s, t, readable), tickets);
  }

  lemma WaiterIsOpen(cfg: Config, s: State, t: nat)
    requires Inv(cfg, s, None) && t in s.waiting
    ensures t in s.running && t in s.world.cards && s.world.cards[t].pr == Open
  {
    hide JobsOk, CountsOk, GreenOk, NoRepeats;
    assert FlowPlaced(cfg, s, None, t) && CardOk(s.running[t], s.world.cards[t]);
  }

  lemma CheckIfDuePays(cfg: Config, s: State, input: Input, tickets: seq<nat>)
    requires Inv(cfg, s, None) && s.status == Looping && Covers(s, tickets)
    ensures
      var r := CheckIfDue(cfg, s, input);
      Pays(cfg, s, r, tickets, 0) && Covers(r, tickets) && r.limited == s.limited && r.jobs == s.jobs
  {
    if CheckDue(s) {
      var r := StartCheck(cfg, s, input.tipReadable, input.checkStart);
      if input.tipReadable {
        CheckBurns(NewCheck(s.world.tip), Go, cfg.maxRounds, input.checkStart, s.world.tip);
        hide Inv;
        CheckMovedCost(cfg, CheckStarted(s), Go, input.checkStart);
        SameCosts(cfg, s, r, tickets);
      } else {
        SameCosts(cfg, s, r, tickets);
      }
    }
  }

  lemma CheckMovedCost(cfg: Config, s: State, r: Reply, env: CheckEnv)
    requires s.checker.Some? && CheckFits(s.checker.value.at, r) && !s.guard.needsCheck
    requires ResumeCheck(s.checker.value, r, cfg.maxRounds, env, s.world.tip).CheckStep?
    ensures
      var s' := AdvanceCheck(cfg, s, r, env);
      && CheckCost(cfg, s') + (if CheckAtJob(s.checker.value.at) then 1 else 0) <= CheckCost(cfg, s)
      && s'.running == s.running && s'.dispatched == s.dispatched && s'.world.cards == s.world.cards
      && s'.limited == s.limited && s'.jobs == s.jobs && s'.status == s.status
  {
    CheckBurns(s.checker.value, r, cfg.maxRounds, env, s.world.tip);
    hide ResumeCheck, CheckFuel, CheckFits;
    var step := ResumeCheck(s.checker.value, r, cfg.maxRounds, env, s.world.tip);
    CheckStepCost(cfg, s, step);
    CheckStepFrame(s, step);
  }

  lemma CheckStepCost(cfg: Config, s: State, step: CheckStep)
    requires s.checker.Some? && step.CheckStep? && !s.guard.needsCheck
    ensures
      var s' := CheckYielded(s, step);
      CheckCost(cfg, s') <= CheckFuel(step.check, cfg.maxRounds)
  {
    hide AbsorbCheck, CheckFuel;
  }

  lemma CheckStepFrame(s: State, step: CheckStep)
    requires step.CheckStep?
    ensures
      var s' := CheckYielded(s, step);
      && s'.running == s.running && s'.dispatched == s.dispatched && s'.world.cards == s.world.cards
      && s'.limited == s.limited && s'.jobs == s.jobs && s'.status == s.status
  {
    hide AbsorbCheck;
  }

  lemma ClaimPays(cfg: Config, s: State, p: Pick, tickets: seq<nat>)
    requires p.number in s.world.cards && p.number !in s.dispatched && p.number !in s.running && Covers(s, tickets)
    ensures Pays(cfg, s, Claimed(s, p), tickets, 0) && Covers(Claimed(s, p), tickets)
  {
    var t := p.number;
    var c := Claimed(s, p);
    assert c.running - {t} == s.running - {t} && c.dispatched - {t} == s.dispatched - {t};
    TouchMoves(cfg, s, t, c, tickets);
  }

  lemma DispatchPays(cfg: Config, s: State, p: Pick, env: Env, tickets: seq<nat>)
    requires Inv(cfg, s, None) && s.status == Looping && PickOk(cfg, s, p) && |s.running| < cfg.parallel
    requires Covers(s, tickets)
    ensures
      var r := Dispatch(cfg, s, p, env);
      Pays(cfg, s, r, tickets, 0) && Covers(r, tickets) && r.limited == s.limited && r.jobs == s.jobs
  {
    assert RunningOk(cfg, s, None) && p.number !in s.dispatched;
    hide Inv, AdvanceFlow, CardOk, FlowOk, YieldFrame, Dispatch, Claimed, RunningOk;
    NotRunning(cfg, s, p.number);
    PickHasCard(cfg, s, p);
    ClaimKeeps(cfg, s, p);
    ClaimFacts(s, p);
    ClaimPays(cfg, s, p, tickets);
    DispatchIsAdvance(cfg, s, p, env);
    var c := Claimed(s, p);
    AdvanceKeeps(cfg, c, p.number, Go, env);
    PlacedFlow(cfg, c, Some(p.number), p.number, tickets);
    GoNeverCrashes(c.running[p.number], cfg.maxRounds, env);
    AdvancePays(cfg, c, p.number, Go, env, tickets);
    FrameKeeps(s, p, AdvanceFlow(cfg, c, p.number, Go, env));
  }

  lemma FrameKeeps(s: State, p: Pick, s': State)
    requires p.number in s.world.cards && YieldFrame(Claimed(s, p), p.number, s')
    ensures s'.limited == s.limited && s'.jobs == s.jobs && s'.world.cards.Keys == s.world.cards.Keys
  {
  }

  lemma {:induction false} DispatchAllPays(cfg: Config, s: State, picks: seq<Pick>, envOf: nat -> Env,
                                            tickets: seq<nat>)
    requires Inv(cfg, s, None) && s.status == Looping && PicksOk(cfg, s, picks) && Covers(s, tickets)
    ensures
      var r := DispatchAll(cfg, s, picks, envOf);
      Pays(cfg, s, r, tickets, 0) && Covers(r, tickets) && r.limited == s.limited && r.jobs == s.jobs
    decreases |picks|
  {
    if picks == [] {
    } else {
      assert PickOk(cfg, s, picks[0]);
      hide Inv, Dispatch, PickOk;
      var env := envOf(picks[0].number);
      DispatchKeeps(cfg, s, picks, env);
      DispatchPays(cfg, s, picks[0], env, tickets);
      DispatchAllPays(cfg, Dispatch(cfg, s, picks[0], env), picks[1..], envOf, tickets);
    }
  }

  /** Everything up to the dispatches spends no job. */
  /** Flags and status cost nothing. */
  lemma FlagsPay(cfg: Config, s: State, s': State, tickets: seq<nat>)
    requires s' == s.(draining := s'.draining, immediate := s'.immediate, status := s'.status)
    ensures Potential(cfg, s', tickets) == Potential(cfg, s, tickets) && (Covers(s, tickets) ==> Covers(s', tickets))
  {
    hide Total;
    SameCosts(cfg, s, s', tickets);
  }

  lemma PreparePays(cfg: Config, s: State, input: Input, tickets: seq<nat>)
    requires Inv(cfg, s, None) && s.status == Looping && Covers(s, tickets)
    ensures
      var r := Prepare(cfg, s, input);
      Pays(cfg, s, r, tickets, 0) && Covers(r, tickets) && r.limited == s.limited && r.jobs == s.jobs
  {
    hide Inv, Release, GiveBack, CheckIfDue, FillSlots, Potential, Covers;
    PollKeeps(cfg, s, input.stop);
    var polled := Poll(s, input.stop);
    if polled.immediate {
      FlagsPay(cfg, s, polled.(status := Returned), tickets);
    } else {
      FlagsPay(cfg, s, polled, tickets);
      var released := Release(cfg, polled, input.releaseEnv);
      ReleasePays(cfg, polled, input.releaseEnv, tickets);
      GiveBackPays(cfg, released, input.parkReadable, tickets);
      var given := GiveBack(cfg, released, input.parkReadable);
      CheckIfDuePays(cfg, given, input, tickets);
      FillSlotsPays(cfg, CheckIfDue(cfg, given, input), input.startEnv, tickets);
    }
  }

  lemma GiveBackPays(cfg: Config, s: State, readable: nat -> bool, tickets: seq<nat>)
    requires Inv(cfg, s, None) && Covers(s, tickets)
    ensures
      var r := GiveBack(cfg, s, readable);
      Pays(cfg, s, r, tickets, 0) && Covers(r, tickets) && r.limited == s.limited && r.jobs == s.jobs
  {
    if s.guard.broken || s.limited {
      hide ParkEach;
      ParkEachPays(cfg, s, s.waiting, readable, tickets);
    }
  }

  lemma FillSlotsPays(cfg: Config, s: State, envOf: nat -> Env, tickets: seq<nat>)
    requires Inv(cfg, s, None) && s.status == Looping && Covers(s, tickets)
    ensures
      var r := FillSlots(cfg, s, envOf);
      Pays(cfg, s, r, tickets, 0) && Covers(r, tickets) && r.limited == s.limited && r.jobs == s.jobs
  {
    hide Inv, Ready, DispatchAll, Potential, Covers, PicksOk, Take, CanDispatch, Pays;
    if CanDispatch(cfg, s) {
      ReadyPicksOk(cfg, s);
      DispatchAllPays(cfg, s, Take(Ready(cfg, s), cfg.parallel - |s.running|), envOf, tickets);
    } else {
      NothingPays(cfg, s, tickets);
    }
  }

  lemma NothingPays(cfg: Config, s: State, tickets: seq<nat>)
    ensures Pays(cfg, s, s, tickets, 0)
  {
  }

  /** A pass whose finished job, if any, hit no usage limit. */
  predicate Unlimited(input: Input) {
    input.event.Some? ==> !IsLimited(input.event.value.reply)
  }

  /** What is left of a run is not more than before, the jobs that ended in between counted. */
  predicate Paid(cfg: Config, s: State, r: State, tickets: seq<nat>) {
    && r.jobs - s.jobs <= Potential(cfg, s, tickets)
    && (r.status == Looping ==>
          && !r.limited && Covers(r, tickets)
          && Potential(cfg, r, tickets) + r.jobs <= Potential(cfg, s, tickets) + s.jobs)
  }

  lemma SameIsPaid(cfg: Config, s: State, r: State, tickets: seq<nat>)
    requires r == s.(immediate := r.immediate, status := r.status) && Covers(s, tickets) && !s.limited
    ensures Paid(cfg, s, r, tickets)
  {
    hide Total;
    SameCosts(cfg, s, r, tickets);
  }

  lemma TakenCosts(cfg: Config, s: State, e: Event, tickets: seq<nat>)
    requires Covers(s, tickets)
    ensures Covers(Taken(s, e), tickets) && Potential(cfg, Taken(s, e), tickets) == Potential(cfg, s, tickets)
    ensures Taken(s, e).jobs == s.jobs + 1 && Taken(s, e).status == s.status
    ensures !s.limited && !IsLimited(e.reply) ==> !Taken(s, e).limited
  {
    hide Total, Cost, IsLimited;
    SameCosts(cfg, s, Taken(s, e), tickets);
  }

  /** One unit of what is left pays for the job that was taken. */
  lemma JobPaid(cfg: Config, s: State, taken: State, r: State, tickets: seq<nat>)
    requires Potential(cfg, taken, tickets) == Potential(cfg, s, tickets) >= 1 && taken.jobs == s.jobs + 1
    requires r.jobs == taken.jobs && r.limited == taken.limited == false
    requires r.status == Looping ==> Covers(r, tickets) && Pays(cfg, taken, r, tickets, 1)
    ensures Paid(cfg, s, r, tickets)
  {
    hide Total, CheckCost, Covers;
  }

  lemma DeliverPays(cfg: Config, s: State, input: Input, tickets: seq<nat>)
    requires Inv(cfg, s, None) && s.status == Looping && Covers(s, tickets) && !s.limited && Unlimited(input)
    ensures Paid(cfg, s, Deliver(cfg, s, input), tickets)
  {
    hide Inv, Deliver, Deliverable, Covers, Potential, Paid, IsLimited, Fits, CheckFits, Pays, AdvanceFlow,
         AdvanceCheck;
    if input.event.Some? && Deliverable(s, input.event.value) && !input.late {
      var e := input.event.value;
      TakeKeeps(cfg, s, e);
      CanAct(cfg, s, e);
      DeliverActs(cfg, s, input);
      TakenCosts(cfg, s, e, tickets);
      if e.number == CHECKER {
        CheckAtItsJob(cfg, s);
        CheckEventPays(cfg, Taken(s, e), e, tickets);
      } else {
        FlowEventPays(cfg, Taken(s, e), e, tickets);
      }
      JobPaid(cfg, s, Taken(s, e), Deliver(cfg, s, input), tickets);
    } else {
      DeliverIdles(cfg, s, input);
      SameIsPaid(cfg, s, Deliver(cfg, s, input), tickets);
    }
  }

  lemma DeliverIdles(cfg: Config, s: State, input: Input)
    requires input.event.None? || !Deliverable(s, input.event.value) || input.late
    ensures
      var r := Deliver(cfg, s, input);
      r == s.(immediate := r.immediate, status := r.status)
  {
    hide Deliverable, AdvanceFlow, AdvanceCheck, ParkFlow, ParkCheck, IsLimited;
  }

  lemma CheckAtItsJob(cfg: Config, s: State)
    requires Inv(cfg, s, None) && s.checker.Some?
    ensures CheckAtJob(s.checker.value.at)
  {
    hide WaitingOk, JobsOk, CountsOk, CardsOk, GreenOk;
  }

  lemma FlowEventPays(cfg: Config, s: State, e: Event, tickets: seq<nat>)
    requires Inv(cfg, s, Some(e.number)) && e.number != CHECKER && Covers(s, tickets) && s.status == Looping
    requires Fits(s.running[e.number].at, e.reply) && !s.running[e.number].at.AtGreen?
    requires !s.running[e.number].at.Created?
    ensures e.number in s.world.cards
    ensures
      var r := AdvanceFlow(cfg, s, e.number, e.reply, e.env);
      && Potential(cfg, s, tickets) >= 1 && r.jobs == s.jobs && r.limited == s.limited
      && (r.status == Looping ==> Covers(r, tickets) && Pays(cfg, s, r, tickets, 1))
  {
    var t := e.number;
    PlacedFlow(cfg, s, Some(t), t, tickets);
    AdvanceKeeps(cfg, s, t, e.reply, e.env);
    AtLeast(cfg, s, t, tickets);
    if Resume(s.running[t], e.reply, cfg.maxRounds, e.env).Step? {
      AdvancePays(cfg, s, t, e.reply, e.env, tickets);
    }
    hide Inv, Resume, FlowOk, CardOk, Total;
  }

  lemma {:induction false} AtLeast(cfg: Config, s: State, t: nat, tickets: seq<nat>)
    requires t in s.running && t in tickets
    ensures Total(cfg, s, tickets) >= 1
  {
    if tickets[0] == t {
    } else {
      AtLeast(cfg, s, t, tickets[1..]);
    }
  }

  lemma CheckEventPays(cfg: Config, s: State, e: Event, tickets: seq<nat>)
    requires Inv(cfg, s, Some(CHECKER)) && Covers(s, tickets) && s.status == Looping
    requires CheckFits(s.checker.value.at, e.reply) && CheckAtJob(s.checker.value.at)
    ensures
      var r := AdvanceCheck(cfg, s, e.reply, e.checkEnv);
      && Potential(cfg, s, tickets) >= 1 && r.jobs == s.jobs && r.limited == s.limited
      && (r.status == Looping ==> Covers(r, tickets) && Pays(cfg, s, r, tickets, 1))
  {
    assert !s.guard.needsCheck;
    hide Inv;
    assert CheckCost(cfg, s) >= 1;
    if ResumeCheck(s.checker.value, e.reply, cfg.maxRounds, e.checkEnv, s.world.tip).CheckStep? {
      CheckMovedCost(cfg, s, e.reply, e.checkEnv);
      SameCosts(cfg, s, AdvanceCheck(cfg, s, e.reply, e.checkEnv), tickets);
    }
  }

  lemma PassPays(cfg: Config, s: State, input: Input, tickets: seq<nat>)
    requires Inv(cfg, s, None) && s.status == Looping && Covers(s, tickets) && !s.limited && Unlimited(input)
    ensures
      var r := Pass(cfg, s, input);
      && r.jobs - s.jobs <= Potential(cfg, s, tickets)
      && (r.status == Looping ==>
            && !r.limited && Covers(r, tickets)
            && Potential(cfg, r, tickets) + r.jobs <= Potential(cfg, s, tickets) + s.jobs)
  {
    hide Inv, Prepare, Deliver, Potential, Covers;
    PreparePays(cfg, s, input, tickets);
    var ready := Prepare(cfg, s, input);
    if ready.status == Looping && !(|ready.running| == 0 && ready.checker.None?) {
      DeliverPays(cfg, ready, input, tickets);
    }
  }

  lemma {:induction false} RunPays(cfg: Config, s: State, inputs: seq<Input>, tickets: seq<nat>)
    requires Inv(cfg, s, None) && s.status == Looping && Covers(s, tickets) && !s.limited
    requires forall input | input in inputs :: Unlimited(input)
    ensures Run(cfg, s, inputs).jobs - s.jobs <= Potential(cfg, s, tickets)
    decreases |inputs|
  {
    if inputs == [] {
    } else {
      hide Inv, Pass, Potential;
      PassPays(cfg, s, inputs[0], tickets);
      var r := Pass(cfg, s, inputs[0]);
      if r.status == Looping {
        RunPays(cfg, r, inputs[1..], tickets);
      }
    }
  }

  lemma {:induction false} FreshTotal(cfg: Config, s: State, tickets: seq<nat>)
    requires s.running == map[] && s.dispatched == {}
    ensures Total(cfg, s, tickets) == |tickets| * (FlowJobs(cfg) + CheckJobs(cfg))
  {
    if tickets != [] {
      FreshTotal(cfg, s, tickets[1..]);
    }
  }

  /** With no usage limit, T tickets and R fix rounds, a whole run ends at most
      T(6R+3) + (T+1)(2R+1) jobs, whatever they answer and in whatever order they end. */
  lemma JobsAreBounded(cfg: Config, s: State, inputs: seq<Input>, tickets: seq<nat>)
    requires Inv(cfg, s, None) && s.status == Looping && Covers(s, tickets) && !s.limited
    requires s.running == map[] && s.dispatched == {} && s.checker.None?
    requires forall input | input in inputs :: Unlimited(input)
    ensures Run(cfg, s, inputs).jobs - s.jobs <=
      |tickets| * (6 * cfg.maxRounds + 3) + (|tickets| + 1) * (2 * cfg.maxRounds + 1)
  {
    hide Inv, Run, Total;
    RunPays(cfg, s, inputs, tickets);
    FreshTotal(cfg, s, tickets);
    OneCheckMore(|tickets|, 6 * cfg.maxRounds + 3, 2 * cfg.maxRounds + 1);
  }

  lemma OneCheckMore(t: nat, a: nat, b: nat)
    ensures t * (a + b) + b == t * a + (t + 1) * b
  {
  }
}

/** The loop of the frontier scheduler: what one pass does, and every run of passes. */
module Frontier {
  import opened Wrappers
  import opened TicketFlow
  import opened TicketFlowProofs
  import opened IntegrationCheck
  import opened Sorting
  import opened Scheduler
  import opened SchedulerInvariant
  import opened SchedulerActions

  predicate CanRelease(s: State) {
    s.waiting != [] && s.Settled() && !s.limited && !s.immediate
  }

  function Popped(s: State): State
    requires s.waiting != []
  {
    s.(waiting := s.waiting[1..])
  }

  lemma PopWaiting(cfg: Config, s: State)
    requires s.waiting != [] && s.waiting[0] != CHECKER && WaitingOk(s, None) && JobsOk(s, None) && CountsOk(s)
    ensures
      var s', t := Popped(s), s.waiting[0];
      && WaitingOk(s', Some(t)) && JobsOk(s', Some(t)) && CountsOk(s') && t !in s'.waiting
      && forall u :: u in s'.waiting <==> u in s.waiting && u != t
  {
    var s', t := Popped(s), s.waiting[0];
    assert s.waiting == [t] + s'.waiting;
    assert forall j | 0 <= j < |s'.waiting| :: s'.waiting[j] == s.waiting[1 + j];
    assert t !in s'.waiting && NoRepeats(s'.waiting);
    forall n: nat
      ensures s'.outstanding[n] == Expected(s', Some(t), n)
    {
      assert s.outstanding[n] == Expected(s, None, n);
    }
  }

  lemma PopRunning(cfg: Config, s: State)
    requires s.waiting != [] && RunningOk(cfg, s, None)
    requires forall u :: u in Popped(s).waiting <==> u in s.waiting && u != s.waiting[0]
    ensures RunningOk(cfg, Popped(s), Some(s.waiting[0]))
  {
    hide FlowOk;
    var s', t := Popped(s), s.waiting[0];
    forall u | u in s'.running
      ensures FlowPlaced(cfg, s', Some(t), u)
    {
      assert FlowPlaced(cfg, s, None, u);
    }
  }

  /** Taking the first flow out of `waiting` puts it in the conductor's hand. */
  lemma PopKeeps(cfg: Config, s: State)
    requires Inv(cfg, s, None) && s.waiting != []
    ensures Inv(cfg, Popped(s), Some(s.waiting[0])) && s.waiting[0] != CHECKER
    ensures s.waiting[0] in s.running && s.running[s.waiting[0]].at.AtGreen?
  {
    var t := s.waiting[0];
    assert t in s.waiting && FlowPlaced(cfg, s, None, t);
    PopWaiting(cfg, s);
    PopRunning(cfg, s);
    CardsSame(cfg, s, Popped(s));
    BranchSameKeeps(cfg, s, Popped(s));
    hide WaitingOk, RunningOk, JobsOk, CountsOk, CardsOk, GreenOk;
  }

  lemma ReleaseOneKeeps(cfg: Config, s: State, env: Env)
    requires Inv(cfg, s, None) && CanRelease(s) && s.status == Looping
    ensures
      var t := s.waiting[0];
      && t in s.running && t in s.world.cards && s.running[t].at.AtGreen?
      && var s' := AdvanceFlow(cfg, Popped(s), t, Go, env);
         && Inv(cfg, s', None) && s'.status == Looping && s'.waiting == s.waiting[1..]
         && YieldFrame(Popped(s), t, s') && s'.running.Keys <= s.running.Keys
         && s'.world.cards - {t} == s.world.cards - {t}
  {
    PopKeeps(cfg, s);
    hide Inv, AdvanceFlow;
    AdvanceKeeps(cfg, Popped(s), s.waiting[0], Go, env);
  }

  /** Releases a prefix of `waiting`: it stops at the first seen merge, since that unsettles the guard. */
  function Release(cfg: Config, s: State, envOf: nat -> Env): (r: State)
    requires Inv(cfg, s, None) && s.status == Looping
    ensures Inv(cfg, r, None) && r.status == Looping && !CanRelease(r)
    decreases |s.waiting|
  {
    if !CanRelease(s) then s
    else
      var t := s.waiting[0];
      ReleaseOneKeeps(cfg, s, envOf(t));
      Release(cfg, AdvanceFlow(cfg, Popped(s), t, Go, envOf(t)), envOf)
  }

  /** A list of waiting tickets to give back, each once. */
  predicate ParkList(s: State, list: seq<nat>) {
    NoRepeats(list) && forall t | t in list :: t in s.waiting
  }

  lemma ParkOneKeeps(cfg: Config, s: State, list: seq<nat>, readable: bool)
    requires Inv(cfg, s, None) && ParkList(s, list) && list != []
    ensures list[0] in s.running && list[0] in s.world.cards
    ensures
      var s' := ParkFlow(s, list[0], readable);
      && Inv(cfg, s', None) && s'.status == s.status && ParkList(s', list[1..])
      && forall u :: u in s'.waiting <==> u in s.waiting && u != list[0]
  {
    hide Inv, ParkFlow, ParkList;
    FirstParkable(cfg, s, list);
    ParkFlowKeeps(cfg, s, None, list[0], readable);
    ParkRest(s, list, readable);
  }

  lemma FirstParkable(cfg: Config, s: State, list: seq<nat>)
    requires Inv(cfg, s, None) && ParkList(s, list) && list != []
    ensures Parkable(s, None, list[0]) && NoRepeats(s.waiting)
  {
    hide JobsOk, CountsOk, GreenOk, FlowOk, CardOk, NoRepeats;
    assert list[0] in list;
    assert FlowPlaced(cfg, s, None, list[0]);
  }

  lemma ParkRest(s: State, list: seq<nat>, readable: bool)
    requires ParkList(s, list) && list != [] && Parkable(s, None, list[0]) && NoRepeats(s.waiting)
    ensures
      var s' := ParkFlow(s, list[0], readable);
      && s'.status == s.status && ParkList(s', list[1..])
      && forall u :: u in s'.waiting <==> u in s.waiting && u != list[0]
  {
    WithoutKeeps(s.waiting, list[0]);
    hide Without, ParkCard, Requeues;
    assert forall j | 0 <= j < |list[1..]| :: list[1..][j] == list[1 + j];
  }

  /** Give the listed waiting tickets back. */
  function ParkEach(cfg: Config, s: State, list: seq<nat>, readable: nat -> bool): (r: State)
    requires Inv(cfg, s, None) && ParkList(s, list)
    ensures Inv(cfg, r, None) && r.status == s.status
    decreases |list|
  {
    if list == [] then s
    else
      ParkOneKeeps(cfg, s, list, readable(list[0]));
      ParkEach(cfg, ParkFlow(s, list[0], readable(list[0])), list[1..], readable)
  }

  function GiveBack(cfg: Config, s: State, readable: nat -> bool): (r: State)
    requires Inv(cfg, s, None)
    ensures Inv(cfg, r, None) && r.status == s.status
  {
    if s.guard.broken || s.limited then ParkEach(cfg, s, s.waiting, readable) else s
  }

  predicate CheckDue(s: State) {
    s.guard.needsCheck && s.checker.None? && !s.limited && !s.guard.broken
  }

  function CheckStarted(s: State): State {
    s.(guard := s.guard.(needsCheck := false), checker := Some(NewCheck(s.world.tip)))
  }

  lemma StartKeeps(cfg: Config, s: State)
    requires Inv(cfg, s, None) && CheckDue(s)
    ensures Inv(cfg, CheckStarted(s), Some(CHECKER))
  {
    StartPlaces(cfg, s);
    StartGreen(cfg, s);
    CardsSame(cfg, s, CheckStarted(s));
    hide WaitingOk, RunningOk, JobsOk, CountsOk, CardsOk, GreenOk;
  }

  lemma StartPlaces(cfg: Config, s: State)
    requires CheckDue(s)
    requires WaitingOk(s, None) && RunningOk(cfg, s, None) && JobsOk(s, None) && CountsOk(s)
    ensures
      var s' := CheckStarted(s);
      WaitingOk(s', Some(CHECKER)) && RunningOk(cfg, s', Some(CHECKER)) && JobsOk(s', Some(CHECKER)) && CountsOk(s')
  {
    var s' := CheckStarted(s);
    hide FlowOk;
    forall u | u in s'.running
      ensures FlowPlaced(cfg, s', Some(CHECKER), u) && u != CHECKER
    {
      assert FlowPlaced(cfg, s, None, u);
    }
    forall n: nat
      ensures s'.outstanding[n] == Expected(s', Some(CHECKER), n)
    {
      assert s.outstanding[n] == Expected(s, None, n);
    }
  }

  lemma StartGreen(cfg: Config, s: State)
    requires GreenOk(cfg, s) && CheckDue(s)
    ensures GreenOk(cfg, CheckStarted(s))
  {
    hide Orderly, GreenOf, SeenSince, UnseenSince, Fresh;
  }

  lemma AdvanceCheckKeeps(cfg: Config, s: State, r: Reply, env: CheckEnv)
    requires Inv(cfg, s, Some(CHECKER)) && CheckFits(s.checker.value.at, r) && s.status != Crashed
    ensures
      var s' := AdvanceCheck(cfg, s, r, env);
      && Inv(cfg, s', HandAfter(s', CHECKER)) && (r.Go? ==> s'.status == s.status)
  {
    var c := s.checker.value;
    assert c.sha == s.world.tip;
    ResumeCheckStepOk(c, r, cfg.maxRounds, env, s.world.tip);
    var step := ResumeCheck(c, r, cfg.maxRounds, env, s.world.tip);
    CheckKeeps(cfg, s, step);
    CheckCases(s, step);
    hide Inv, CheckStepOk;
    assert r.Go? ==> step.CheckStep?;
  }

  lemma StartCheckKeeps(cfg: Config, s: State, tipReadable: bool, env: CheckEnv)
    requires Inv(cfg, s, None) && CheckDue(s) && s.status == Looping
    ensures
      var s' := StartCheck(cfg, s, tipReadable, env);
      Inv(cfg, s', None) && s'.status == Looping
  {
    if tipReadable {
      StartKeeps(cfg, s);
      hide Inv, AdvanceCheck;
      AdvanceCheckKeeps(cfg, CheckStarted(s), Go, env);
    } else {
      var s' := StartCheck(cfg, s, tipReadable, env);
      CardsSame(cfg, s, s');
      assert s' == s.(guard := s.guard.(broken := true), draining := true);
      UnreadablePlaces(cfg, s);
      RedTurned(cfg, s, s.world.tip, s.world);
      assert s.(checker := None, world := s.world) == s;
      hide WaitingOk, RunningOk, JobsOk, CountsOk, CardsOk, GreenOk;
    }
  }

  function CheckIfDue(cfg: Config, s: State, input: Input): (r: State)
    requires Inv(cfg, s, None) && s.status == Looping
    ensures Inv(cfg, r, None) && r.status == Looping
  {
    if CheckDue(s) then
      StartCheckKeeps(cfg, s, input.tipReadable, input.checkStart);
      StartCheck(cfg, s, input.tipReadable, input.checkStart)
    else s
  }

  lemma UnreadablePlaces(cfg: Config, s: State)
    requires WaitingOk(s, None) && RunningOk(cfg, s, None) && JobsOk(s, None) && CountsOk(s)
    ensures
      var s' := s.(guard := s.guard.(broken := true), draining := true);
      WaitingOk(s', None) && RunningOk(cfg, s', None) && JobsOk(s', None) && CountsOk(s')
  {
    var s' := s.(guard := s.guard.(broken := true), draining := true);
    hide FlowOk;
    forall u | u in s'.running
      ensures FlowPlaced(cfg, s', None, u)
    {
      assert FlowPlaced(cfg, s, None, u);
    }
    forall n: nat
      ensures s'.outstanding[n] == Expected(s', None, n)
    {
      assert s.outstanding[n] == Expected(s, None, n);
    }
  }

  lemma SubsetSize(a: set<nat>, b: set<nat>)
    requires a <= b
    ensures |a| <= |b|
  {
    if a != b {
      assert b == a + (b - a);
    }
  }

  lemma LaterPick(cfg: Config, s: State, p: Pick, q: Pick, s': State)
    requires PickOk(cfg, s, q) && q.number != p.number
    requires s'.dispatched == s.dispatched + {p.number} && s'.world.cards - {p.number} == s.world.cards - {p.number}
    ensures PickOk(cfg, s', q)
  {
    assert q.number in s.world.cards - {p.number};
    assert (s'.world.cards - {p.number})[q.number] == s.world.cards[q.number];
  }

  /** After one dispatch the others may still be dispatched. */
  lemma LaterPicks(cfg: Config, s: State, picks: seq<Pick>, s': State)
    requires PicksOk(cfg, s, picks) && picks != []
    requires s'.dispatched == s.dispatched + {picks[0].number}
    requires s'.world.cards - {picks[0].number} == s.world.cards - {picks[0].number}
    requires s'.running.Keys <= s.running.Keys + {picks[0].number}
    ensures PicksOk(cfg, s', picks[1..])
  {
    SubsetSize(s'.running.Keys, s.running.Keys + {picks[0].number});
    assert |s'.running| == |s'.running.Keys| && |s.running| == |s.running.Keys|;
    hide PickOk;
    forall q | q in picks[1..]
      ensures PickOk(cfg, s', q)
    {
      LaterPick(cfg, s, picks[0], q, s');
    }
  }

  lemma DispatchOneKeeps(cfg: Config, s: State, p: Pick, env: Env)
    requires Inv(cfg, s, None) && s.status == Looping && PickOk(cfg, s, p) && |s.running| < cfg.parallel
    ensures
      var s' := Dispatch(cfg, s, p, env);
      && Inv(cfg, s', None) && s'.status == Looping
      && s'.dispatched == s.dispatched + {p.number} && s'.world.cards - {p.number} == s.world.cards - {p.number}
      && s'.running.Keys <= s.running.Keys + {p.number}
  {
    hide Inv, AdvanceFlow, PickOk, CardOk, YieldFrame, Dispatch, Claimed;
    PickHasCard(cfg, s, p);
    ClaimKeeps(cfg, s, p);
    ClaimFacts(s, p);
    DispatchIsAdvance(cfg, s, p, env);
    var c := Claimed(s, p);
    AdvanceKeeps(cfg, c, p.number, Go, env);
    FrameDispatched(c, p.number, AdvanceFlow(cfg, c, p.number, Go, env));
  }

  lemma PickHasCard(cfg: Config, s: State, p: Pick)
    requires PickOk(cfg, s, p)
    ensures p.number in s.world.cards && p.number != CHECKER
  {
  }

  lemma ClaimFacts(s: State, p: Pick)
    requires p.number in s.world.cards
    ensures
      var c := Claimed(s, p);
      && p.number in c.running && c.running[p.number].at.Created? && c.status == s.status
      && c.running.Keys == s.running.Keys + {p.number}
      && c.dispatched == s.dispatched + {p.number} && c.world == s.world
  {
  }

  lemma DispatchIsAdvance(cfg: Config, s: State, p: Pick, env: Env)
    requires p.number in s.world.cards
    ensures Dispatch(cfg, s, p, env) == AdvanceFlow(cfg, Claimed(s, p), p.number, Go, env)
  {
  }

  lemma FrameDispatched(s: State, t: nat, s': State)
    requires YieldFrame(s, t, s')
    ensures s'.dispatched == s.dispatched
  {
  }

  lemma DispatchKeeps(cfg: Config, s: State, picks: seq<Pick>, env: Env)
    requires Inv(cfg, s, None) && s.status == Looping && picks != [] && PicksOk(cfg, s, picks)
    ensures picks[0].number in s.world.cards
    ensures
      var s' := Dispatch(cfg, s, picks[0], env);
      Inv(cfg, s', None) && s'.status == Looping && PicksOk(cfg, s', picks[1..])
  {
    assert PickOk(cfg, s, picks[0]);
    hide Inv, PicksOk, Dispatch;
    assert |s.running| < cfg.parallel by {
      RoomForPick(cfg, s, picks);
    }
    DispatchOneKeeps(cfg, s, picks[0], env);
    LaterPicks(cfg, s, picks, Dispatch(cfg, s, picks[0], env));
  }

  lemma RoomForPick(cfg: Config, s: State, picks: seq<Pick>)
    requires PicksOk(cfg, s, picks) && picks != []
    ensures |s.running| < cfg.parallel
  {
  }

  /** Dispatch the listed tickets; each is claimed and runs to its first job. */
  function DispatchAll(cfg: Config, s: State, picks: seq<Pick>, envOf: nat -> Env): (r: State)
    requires Inv(cfg, s, None) && s.status == Looping && PicksOk(cfg, s, picks)
    ensures Inv(cfg, r, None) && r.status == Looping
    decreases |picks|
  {
    if picks == [] then s
    else
      DispatchKeeps(cfg, s, picks, envOf(picks[0].number));
      DispatchAll(cfg, Dispatch(cfg, s, picks[0], envOf(picks[0].number)), picks[1..], envOf)
  }

  function Take<T>(xs: seq<T>, n: nat): seq<T> {
    if |xs| <= n then xs else xs[..n]
  }

  lemma ReadyPicksOk(cfg: Config, s: State)
    requires Inv(cfg, s, None)
    ensures |s.running| <= cfg.parallel && PicksOk(cfg, s, Take(Ready(cfg, s), cfg.parallel - |s.running|))
  {
    ReadyOk(cfg, s);
    hide Ready, PickOk;
  }

  function FillSlots(cfg: Config, s: State, envOf: nat -> Env): (r: State)
    requires Inv(cfg, s, None) && s.status == Looping
    ensures Inv(cfg, r, None) && r.status == Looping
  {
    if CanDispatch(cfg, s) then
      ReadyPicksOk(cfg, s);
      DispatchAll(cfg, s, Take(Ready(cfg, s), cfg.parallel - |s.running|), envOf)
    else s
  }

  lemma {:induction false} PollKeeps(cfg: Config, s: State, stop: StopRequest)
    requires Inv(cfg, s, None)
    ensures Inv(cfg, Poll(s, stop), None)
  {
    FlagsKeep(cfg, s, Poll(s, stop));
  }

  /** Flags, status and the limit are no part of the invariant, except that a broken branch drains. */
  lemma FlagsKeep(cfg: Config, s: State, s': State)
    requires Inv(cfg, s, None) && (s.draining ==> s'.draining)
    requires s' == s.(draining := s'.draining, immediate := s'.immediate, limited := s'.limited, status := s'.status)
    ensures Inv(cfg, s', None)
  {
    FlagsPlaces(cfg, s, s');
    CardsSame(cfg, s, s');
    BranchSameKeeps(cfg, s, s');
    hide WaitingOk, RunningOk, JobsOk, CountsOk, CardsOk, GreenOk;
  }

  lemma FlagsPlaces(cfg: Config, s: State, s': State)
    requires WaitingOk(s, None) && RunningOk(cfg, s, None) && JobsOk(s, None) && CountsOk(s)
    requires s' == s.(draining := s'.draining, immediate := s'.immediate, limited := s'.limited, status := s'.status)
    ensures WaitingOk(s', None) && RunningOk(cfg, s', None) && JobsOk(s', None) && CountsOk(s')
  {
    hide FlowOk;
    forall u | u in s'.running
      ensures FlowPlaced(cfg, s', None, u)
    {
      assert FlowPlaced(cfg, s, None, u);
    }
    forall n: nat
      ensures s'.outstanding[n] == Expected(s', None, n)
    {
      assert s.outstanding[n] == Expected(s, None, n);
    }
  }

  lemma IdleKeeps(cfg: Config, s: State, input: Input)
    requires Inv(cfg, s, None)
    ensures Inv(cfg, Idle(cfg, s, input), None)
  {
    FlagsKeep(cfg, s, Idle(cfg, s, input));
  }

  /** The job of a finished event taken off the queue: its flow is in the conductor's hand. */
  function Taken(s: State, e: Event): State {
    s.(outstanding := s.outstanding - multiset{e.number}, jobs := s.jobs + 1,
       limited := s.limited || IsLimited(e.reply))
  }

  lemma TakePlaces(cfg: Config, s: State, e: Event)
    requires Deliverable(s, e)
    requires WaitingOk(s, None) && RunningOk(cfg, s, None) && JobsOk(s, None) && CountsOk(s)
    ensures
      var s', hand := Taken(s, e), Some(e.number);
      && WaitingOk(s', hand) && RunningOk(cfg, s', hand) && JobsOk(s', hand) && CountsOk(s')
      && (e.number != CHECKER ==> e.number in s.running && e.number !in s.waiting && !s.running[e.number].at.AtGreen?
                                  && !s.running[e.number].at.Created?)
  {
    var s' := Taken(s, e);
    hide FlowOk, IsLimited, Fits, CheckFits;
    assert s.outstanding[e.number] == Expected(s, None, e.number);
    forall u | u in s'.running
      ensures FlowPlaced(cfg, s', Some(e.number), u)
    {
      assert FlowPlaced(cfg, s, None, u);
    }
    forall n: nat
      ensures s'.outstanding[n] == Expected(s', Some(e.number), n)
    {
      assert s.outstanding[n] == Expected(s, None, n);
    }
  }

  lemma TakeKeeps(cfg: Config, s: State, e: Event)
    requires Inv(cfg, s, None) && Deliverable(s, e)
    ensures Inv(cfg, Taken(s, e), Some(e.number))
    ensures e.number != CHECKER ==>
      e.number in s.running && !s.running[e.number].at.AtGreen? && !s.running[e.number].at.Created?
  {
    TakePlaces(cfg, s, e);
    CardsSame(cfg, s, Taken(s, e));
    BranchSameKeeps(cfg, s, Taken(s, e));
    hide WaitingOk, RunningOk, JobsOk, CountsOk, CardsOk, GreenOk;
  }

  /** What a run may end in: a normal state, or a crash with one flow in hand. */
  ghost predicate InvEnd(cfg: Config, s: State) {
    Inv(cfg, s, None) || (s.status == Crashed && exists n :: Inv(cfg, s, Some(n)))
  }

  /** A finished job of which nothing is acted on: none is there, or it comes after an immediate stop. */
  lemma IdleDeliverKeeps(cfg: Config, s: State, input: Input)
    requires Inv(cfg, s, None)
    requires input.event.None? || !Deliverable(s, input.event.value) || input.late
    ensures Inv(cfg, Deliver(cfg, s, input), None)
  {
    hide Inv, Deliverable, AdvanceFlow, AdvanceCheck, ParkFlow, ParkCheck, IsLimited;
    FlagsKeep(cfg, s, Deliver(cfg, s, input));
  }

  /** What is done with a job that was taken from the queue. */
  function Acted(cfg: Config, taken: State, e: Event, readable: nat -> bool): State
    requires e.number == CHECKER ==> taken.checker.Some? && CheckFits(taken.checker.value.at, e.reply)
    requires e.number != CHECKER ==>
      e.number in taken.running && e.number in taken.world.cards && Fits(taken.running[e.number].at, e.reply)
  {
    if taken.limited then
      if e.number == CHECKER then ParkCheck(taken) else ParkFlow(taken, e.number, readable(e.number))
    else if e.number == CHECKER then AdvanceCheck(cfg, taken, e.reply, e.checkEnv)
    else AdvanceFlow(cfg, taken, e.number, e.reply, e.env)
  }

  lemma CanAct(cfg: Config, s: State, e: Event)
    requires Deliverable(s, e)
    ensures e.number == CHECKER ==> s.checker.Some? && CheckFits(s.checker.value.at, e.reply)
    ensures e.number != CHECKER ==>
      e.number in s.running && e.number in s.world.cards && Fits(s.running[e.number].at, e.reply)
  {
    hide Fits, CheckFits;
  }

  lemma DeliverActs(cfg: Config, s: State, input: Input)
    requires input.event.Some? && Deliverable(s, input.event.value) && !input.late
    ensures Deliver(cfg, s, input) == Acted(cfg, Taken(s, input.event.value), input.event.value, input.parkReadable)
  {
    hide ParkFlow, ParkCheck, AdvanceCheck, AdvanceFlow, IsLimited, Fits, CheckFits;
  }

  lemma ActedCheckKeeps(cfg: Config, s: State, e: Event, readable: nat -> bool)
    requires Inv(cfg, s, Some(CHECKER)) && s.status == Looping && e.number == CHECKER
    requires s.checker.Some? && CheckFits(s.checker.value.at, e.reply)
    ensures
      var s' := Acted(cfg, s, e, readable);
      Inv(cfg, s', HandAfter(s', CHECKER)) || Inv(cfg, s', None)
  {
    hide Inv, AdvanceCheck, ParkCheck, CheckFits;
    if s.limited {
      ParkCheckKeeps(cfg, s);
    } else {
      AdvanceCheckKeeps(cfg, s, e.reply, e.checkEnv);
    }
  }

  lemma ActedFlowKeeps(cfg: Config, s: State, e: Event, readable: nat -> bool)
    requires Inv(cfg, s, Some(e.number)) && s.status == Looping && e.number != CHECKER
    requires e.number in s.running && e.number in s.world.cards && Fits(s.running[e.number].at, e.reply)
    requires !s.running[e.number].at.AtGreen? && !s.running[e.number].at.Created?
    ensures
      var s' := Acted(cfg, s, e, readable);
      Inv(cfg, s', HandAfter(s', e.number)) || Inv(cfg, s', None)
  {
    hide Inv, AdvanceFlow, ParkFlow, Fits, YieldFrame;
    if s.limited {
      ParkFlowKeeps(cfg, s, Some(e.number), e.number, readable(e.number));
    } else {
      AdvanceKeeps(cfg, s, e.number, e.reply, e.env);
    }
  }

  /** A state that is over only by a crash keeps the invariant, with the crashed flow in hand. */
  lemma EndsWell(cfg: Config, s: State, n: nat)
    requires Inv(cfg, s, HandAfter(s, n)) || Inv(cfg, s, None)
    ensures InvEnd(cfg, s) && (s.status == Looping ==> Inv(cfg, s, None))
  {
    hide Inv;
  }

  lemma DeliverKeeps(cfg: Config, s: State, input: Input)
    requires Inv(cfg, s, None) && s.status == Looping
    ensures
      var s' := Deliver(cfg, s, input);
      InvEnd(cfg, s') && (s'.status == Looping ==> Inv(cfg, s', None))
  {
    hide Inv, InvEnd, Deliver, Deliverable, Acted, Fits, CheckFits, IsLimited;
    if input.event.Some? && Deliverable(s, input.event.value) && !input.late {
      var e := input.event.value;
      TakeKeeps(cfg, s, e);
      CanAct(cfg, s, e);
      DeliverActs(cfg, s, input);
      if e.number == CHECKER {
        ActedCheckKeeps(cfg, Taken(s, e), e, input.parkReadable);
      } else {
        ActedFlowKeeps(cfg, Taken(s, e), e, input.parkReadable);
      }
      EndsWell(cfg, Deliver(cfg, s, input), e.number);
    } else {
      IdleDeliverKeeps(cfg, s, input);
      EndsWell(cfg, Deliver(cfg, s, input), CHECKER);
    }
  }

  // One pass, stage by stage.

  /** Up to the dispatches: poll for a stop, release, give back, check, dispatch. */
  function Prepare(cfg: Config, s: State, input: Input): (r: State)
    requires Inv(cfg, s, None) && s.status == Looping
    ensures Inv(cfg, r, None)
  {
    hide Inv, Release, GiveBack, CheckIfDue, FillSlots;
    PollKeeps(cfg, s, input.stop);
    var polled := Poll(s, input.stop);
    if polled.immediate then
      FlagsKeep(cfg, polled, polled.(status := Returned));
      polled.(status := Returned)
    else
      var released := Release(cfg, polled, input.releaseEnv);
      var given := GiveBack(cfg, released, input.parkReadable);
      FillSlots(cfg, CheckIfDue(cfg, given, input), input.startEnv)
  }

  function Pass(cfg: Config, s: State, input: Input): (r: State)
    requires Inv(cfg, s, None) && s.status == Looping
    ensures InvEnd(cfg, r) && (r.status == Looping ==> Inv(cfg, r, None))
  {
    var ready := Prepare(cfg, s, input);
    if ready.status != Looping then ready
    else if |ready.running| == 0 && ready.checker.None? then
      IdleKeeps(cfg, ready, input);
      Idle(cfg, ready, input)
    else
      DeliverKeeps(cfg, ready, input);
      Deliver(cfg, ready, input)
  }

  /** A run: pass after pass, until the loop returns or the inputs end. */
  function Run(cfg: Config, s: State, inputs: seq<Input>): (r: State)
    requires Inv(cfg, s, None) && s.status == Looping
    ensures InvEnd(cfg, r) && (r.status == Looping ==> Inv(cfg, r, None))
    decreases |inputs|
  {
    if inputs == [] then s
    else
      var s' := Pass(cfg, s, inputs[0]);
      if s'.status == Looping then Run(cfg, s', inputs[1..]) else s'
  }
}

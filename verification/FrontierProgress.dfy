/** The frontier never waits for a job that will not come, and what a pause and a return mean. */
module FrontierProgress {
  import opened Wrappers
  import opened Board
  import opened TicketFlow
  import opened TicketFlowProofs
  import opened IntegrationCheck
  import opened Scheduler
  import opened SchedulerInvariant
  import opened SchedulerActions
  import opened Frontier

  // What the stages of a pass leave alone.

  predicate SameMode(s: State, s': State) {
    && s'.checker == s.checker && s'.limited == s.limited && s'.draining == s.draining
    && s'.immediate == s.immediate && s'.jobs == s.jobs && s'.guard.broken == s.guard.broken
  }

  lemma AdvanceMode(cfg: Config, s: State, t: nat, r: Reply, env: Env)
    requires t in s.running && t in s.world.cards && Fits(s.running[t].at, r)
    ensures SameMode(s, AdvanceFlow(cfg, s, t, r, env))
  {
    hide Resume, Yielded;
    var step := Resume(s.running[t], r, cfg.maxRounds, env);
    YieldCases(s, t, step);
    YieldUnbroken(s, t, step);
  }

  lemma YieldUnbroken(s: State, t: nat, step: Step)
    requires t in s.world.cards
    ensures Yielded(s, t, step).guard.broken == s.guard.broken
  {
    hide Absorb;
  }

  lemma {:induction false} ReleaseMode(cfg: Config, s: State, envOf: nat -> Env)
    requires Inv(cfg, s, None) && s.status == Looping
    ensures SameMode(s, Release(cfg, s, envOf))
    decreases |s.waiting|
  {
    if !CanRelease(s) {
    } else {
      var t := s.waiting[0];
      ReleaseOneKeeps(cfg, s, envOf(t));
      PopKeeps(cfg, s);
      AdvanceMode(cfg, Popped(s), t, Go, envOf(t));
      hide Inv, AdvanceFlow;
      ReleaseMode(cfg, AdvanceFlow(cfg, Popped(s), t, Go, envOf(t)), envOf);
    }
  }

  lemma ParkMode(s: State, t: nat, readable: bool)
    requires t in s.running && t in s.world.cards
    ensures SameMode(s, ParkFlow(s, t, readable))
  {
    hide Without, ParkCard;
  }

  lemma {:induction false} ParkEachEmpties(cfg: Config, s: State, list: seq<nat>, readable: nat -> bool)
    requires Inv(cfg, s, None) && ParkList(s, list)
    ensures
      var r := ParkEach(cfg, s, list, readable);
      (forall u :: u in r.waiting <==> u in s.waiting && u !in list) && SameMode(s, r)
    decreases |list|
  {
    hide Inv, ParkFlow, ParkList;
    if list == [] {
    } else {
      ParkOneKeeps(cfg, s, list, readable(list[0]));
      var s' := ParkFlow(s, list[0], readable(list[0]));
      ParkMode(s, list[0], readable(list[0]));
      assert list == [list[0]] + list[1..];
      ParkEachEmpties(cfg, s', list[1..], readable);
    }
  }

  /** A flow's first step ends it or reaches a job: it neither merges nor waits. */
  lemma StartReachesJob(f: Flow, maxRounds: nat, env: Env)
    requires f.at.Created?
    ensures
      var step := Resume(f, Go, maxRounds, env);
      step.Step? && (AtJob(step.flow.at) || step.flow.at == Ended(StatusSystemic)) && NoMerge(step.effects)
  {
    IntegratedOnlyByMerge(f, Go, maxRounds, env);
  }

  lemma StartLeavesQueue(f: Flow, maxRounds: nat, env: Env, card: Card)
    requires f.at.Created? && FlowOk(f, maxRounds) && CardOk(f, card)
    ensures
      var step := Resume(f, Go, maxRounds, env);
      step.Step? && Started(ApplyAll(card, step.effects))
  {
    ResumeCard(f, Go, maxRounds, env, card);
    StartReachesJob(f, maxRounds, env);
    hide ApplyAll;
    var after := ApplyAll(card, Resume(f, Go, maxRounds, env).effects);
    assert Integrated in after.labels ==> Integrated in after.labels * STATES;
    assert Queued in after.labels ==> Queued in after.labels * STATES;
  }

  /** A ticket just dispatched is no longer queued, and not integrated. */
  predicate Started(card: Card) {
    Queued !in card.labels && Integrated !in card.labels
  }

  /** Only the tickets listed in `among` may have changed between `s` and `s'`, by a dispatch. */
  predicate OnlyDispatched(s: State, s': State, among: set<nat>) {
    && SameMode(s, s') && s'.guard == s.guard && s'.waiting == s.waiting && s'.world.tip == s.world.tip
    && s'.world.history == s.world.history
    && s'.dispatched == s.dispatched + among
    && s'.running - among == s.running - among
    && s'.world.cards - among == s.world.cards - among && s'.world.cards.Keys == s.world.cards.Keys
    && (forall t | t in among && t in s'.world.cards :: Started(s'.world.cards[t]))
  }

  lemma DispatchOnly(cfg: Config, s: State, p: Pick, env: Env)
    requires Inv(cfg, s, None) && s.status == Looping && PickOk(cfg, s, p) && |s.running| < cfg.parallel
    ensures OnlyDispatched(s, Dispatch(cfg, s, p, env), {p.number})
  {
    hide Inv, Resume, PickOk, Absorb, NoMerge, Claimed, Dispatch, AdvanceFlow, Yielded, OnlyDispatched, Fresh, CardOk,
         Started;
    PickHasCard(cfg, s, p);
    WorldFresh(cfg, s);
    PickLeavesQueue(cfg, s, p, env);
    ClaimFacts(s, p);
    DispatchIsAdvance(cfg, s, p, env);
    var c := Claimed(s, p);
    StartReachesJob(c.running[p.number], cfg.maxRounds, env);
    var step := Resume(c.running[p.number], Go, cfg.maxRounds, env);
    AbsorbCards(c.world, p.number, step.effects);
    AbsorbNoMerge(c.world, p.number, step.effects);
    ClaimYields(s, p, step);
    AdvanceIsYield(cfg, c, p.number, Go, env);
  }

  lemma PickLeavesQueue(cfg: Config, s: State, p: Pick, env: Env)
    requires PickOk(cfg, s, p)
    ensures
      var step := Resume(Claimed(s, p).running[p.number], Go, cfg.maxRounds, env);
      step.Step? && Started(ApplyAll(s.world.cards[p.number], step.effects))
  {
    StartLeavesQueue(NewFlow(p.resume, s.world.cards[p.number].pr), cfg.maxRounds, env, s.world.cards[p.number]);
  }

  lemma WorldFresh(cfg: Config, s: State)
    requires Inv(cfg, s, None)
    ensures Fresh(s.world)
  {
  }

  lemma ClaimYields(s: State, p: Pick, step: Step)
    requires p.number in s.world.cards && step.Step? && (AtJob(step.flow.at) || step.flow.at == Ended(StatusSystemic))
    requires
      var w := Absorb(s.world, p.number, step.effects);
      w.tip == s.world.tip && w.history == s.world.history && w.cards - {p.number} == s.world.cards - {p.number}
      && (p.number in w.cards ==> Started(w.cards[p.number]))
    ensures OnlyDispatched(s, Yielded(Claimed(s, p), p.number, step), {p.number})
  {
    hide Absorb;
    var s' := Yielded(Claimed(s, p), p.number, step);
    assert s'.running - {p.number} == s.running - {p.number};
  }

  function NumbersIn(picks: seq<Pick>): set<nat> {
    set p | p in picks :: p.number
  }

  lemma OnlyDispatchedTwice(s: State, a: State, b: State, t: nat, more: set<nat>)
    requires OnlyDispatched(s, a, {t}) && OnlyDispatched(a, b, more)
    ensures OnlyDispatched(s, b, {t} + more)
  {
    assert b.running - ({t} + more) == (b.running - more) - {t} == (a.running - more) - {t}
        == (a.running - {t}) - more == s.running - ({t} + more);
    assert b.world.cards - ({t} + more) == (b.world.cards - more) - {t} == (a.world.cards - more) - {t}
        == (a.world.cards - {t}) - more == s.world.cards - ({t} + more);
    if t !in more && t in b.world.cards {
      assert t in b.world.cards - more && t in a.world.cards - more;
      assert b.world.cards[t] == (b.world.cards - more)[t] == (a.world.cards - more)[t] == a.world.cards[t];
    }
  }

  lemma {:induction false} DispatchAllOnly(cfg: Config, s: State, picks: seq<Pick>, envOf: nat -> Env)
    requires Inv(cfg, s, None) && s.status == Looping && PicksOk(cfg, s, picks)
    ensures OnlyDispatched(s, DispatchAll(cfg, s, picks, envOf), NumbersIn(picks))
    decreases |picks|
  {
    hide Inv, Dispatch, PickOk, OnlyDispatched, PicksOk, NumbersIn;
    if picks != [] {
      FirstPick(cfg, s, picks);
      var env := envOf(picks[0].number);
      RoomForPick(cfg, s, picks);
      DispatchKeeps(cfg, s, picks, env);
      DispatchOnly(cfg, s, picks[0], env);
      var s' := Dispatch(cfg, s, picks[0], env);
      DispatchAllOnly(cfg, s', picks[1..], envOf);
      OnlyDispatchedTwice(s, s', DispatchAll(cfg, s, picks, envOf), picks[0].number, NumbersIn(picks[1..]));
      NumbersSplit(picks);
    } else {
      NothingDispatched(s);
    }
  }

  lemma FirstPick(cfg: Config, s: State, picks: seq<Pick>)
    requires PicksOk(cfg, s, picks) && picks != []
    ensures PickOk(cfg, s, picks[0])
  {
  }

  lemma NothingDispatched(s: State)
    ensures OnlyDispatched(s, s, NumbersIn([]))
  {
  }

  lemma NumbersSplit(picks: seq<Pick>)
    requires picks != []
    ensures NumbersIn(picks) == {picks[0].number} + NumbersIn(picks[1..])
  {
    assert picks == [picks[0]] + picks[1..];
  }

  lemma FillSlotsOnly(cfg: Config, s: State, envOf: nat -> Env)
    requires Inv(cfg, s, None) && s.status == Looping
    ensures
      var r := FillSlots(cfg, s, envOf);
      && (CanDispatch(cfg, s) ==>
            OnlyDispatched(s, r, NumbersIn(Take(Ready(cfg, s), cfg.parallel - |s.running|))))
      && (!CanDispatch(cfg, s) ==> r == s)
  {
    hide Inv, Ready, PicksOk, DispatchAll, Take, OnlyDispatched, CanDispatch, NumbersIn;
    if CanDispatch(cfg, s) {
      ReadyPicksOk(cfg, s);
      DispatchAllOnly(cfg, s, Take(Ready(cfg, s), cfg.parallel - |s.running|), envOf);
    }
  }

  /** A check that is started is at its first job, or the branch is broken. */
  lemma CheckStarts(cfg: Config, s: State, input: Input)
    requires Inv(cfg, s, None) && s.status == Looping
    ensures
      var r := CheckIfDue(cfg, s, input);
      && r.running == s.running && r.waiting == s.waiting && r.dispatched == s.dispatched
      && r.limited == s.limited && r.immediate == s.immediate && r.jobs == s.jobs && r.world.cards == s.world.cards
      && (CheckDue(s) ==> r.checker.Some? || r.guard.broken) && (!CheckDue(s) ==> r == s)
  {
    hide Inv, AdvanceCheck, CheckDue;
    if CheckDue(s) {
      CheckStartsAt(cfg, s, input.checkStart);
    }
  }

  lemma CheckStartsAt(cfg: Config, s: State, env: CheckEnv)
    ensures
      var r := AdvanceCheck(cfg, CheckStarted(s), Go, env);
      && r.running == s.running && r.waiting == s.waiting && r.dispatched == s.dispatched
      && r.limited == s.limited && r.immediate == s.immediate && r.jobs == s.jobs && r.world.cards == s.world.cards
      && (r.checker.Some? || r.guard.broken)
  {
    hide CheckYielded, AbsorbCheck, Checked;
    var c := CheckStarted(s);
    FirstStep(c.checker.value, cfg.maxRounds, env, c.world.tip);
    YieldsFirst(c, ResumeCheck(c.checker.value, Go, cfg.maxRounds, env, c.world.tip));
  }

  lemma FirstStep(c: Check, maxRounds: nat, env: CheckEnv, tip: Commit)
    requires c.at.CheckCreated?
    ensures
      var step := ResumeCheck(c, Go, maxRounds, env, tip);
      step.CheckStep? && step.effects == [] && (step.check.at.CheckEnded? ==> step.check.at.result.CheckRed?)
  {
  }

  lemma YieldsFirst(s: State, step: CheckStep)
    requires step.CheckStep? && step.effects == [] && (step.check.at.CheckEnded? ==> step.check.at.result.CheckRed?)
    ensures
      var r := CheckYielded(s, step);
      && r.running == s.running && r.waiting == s.waiting && r.dispatched == s.dispatched
      && r.limited == s.limited && r.immediate == s.immediate && r.jobs == s.jobs && r.world.cards == s.world.cards
      && (r.checker.Some? || r.guard.broken)
  {
  }

  // No deadlock.

  /** No flow is at a job: all that run wait for a green branch. */
  predicate AllWait(s: State) {
    s.checker.None? && forall t | t in s.running :: t in s.waiting
  }

  lemma StillWaiting(cfg: Config, s: State, input: Input)
    requires Inv(cfg, s, None) && s.status == Looping
    requires
      var r := Prepare(cfg, s, input);
      r.status == Looping && AllWait(r) && r.running != map[]
    ensures Prepare(cfg, s, input).guard.broken && !s.guard.broken
  {
    hide Inv, Release, GiveBack, CheckIfDue, FillSlots;
    PollKeeps(cfg, s, input.stop);
    var polled := Poll(s, input.stop);
    var rel := Release(cfg, polled, input.releaseEnv);
    ReleaseMode(cfg, polled, input.releaseEnv);
    var given := GiveBack(cfg, rel, input.parkReadable);
    GivenBack(cfg, rel, input.parkReadable);
    var x := CheckIfDue(cfg, given, input);
    CheckStarts(cfg, given, input);
    FillMode(cfg, x, input.startEnv);
    var r := FillSlots(cfg, x, input.startEnv);
    var t :| t in r.running;
    assert t in r.waiting && t in x.waiting && t in given.waiting;
    assert given == rel && !rel.guard.broken && !rel.limited;
    assert !rel.Settled();
  }

  lemma HasMember(xs: seq<nat>)
    ensures xs == [] || exists u :: u in xs
  {
    if xs != [] {
      assert xs[0] in xs;
    }
  }

  lemma GivenBack(cfg: Config, s: State, readable: nat -> bool)
    requires Inv(cfg, s, None)
    ensures
      var r := GiveBack(cfg, s, readable);
      if s.guard.broken || s.limited then r.waiting == [] && SameMode(s, r) else r == s
  {
    if s.guard.broken || s.limited {
      assert ParkList(s, s.waiting);
      hide Inv, ParkEach;
      ParkEachEmpties(cfg, s, s.waiting, readable);
      var r := ParkEach(cfg, s, s.waiting, readable);
      HasMember(r.waiting);
    }
  }

  /** No deadlock. If a pass starts with no job outstanding, then at its end the loop is over, or a job
      is outstanding, or one has ended in the pass, or the usage limit has reset, or the pass found the
      branch broken (and a pass on a broken branch gives every waiting ticket back). */
  lemma NeverStuck(cfg: Config, s: State, input: Input)
    requires Inv(cfg, s, None) && s.status == Looping
    ensures
      var s' := Pass(cfg, s, input);
      || s'.status != Looping || s'.outstanding != multiset{} || s'.jobs > s.jobs
      || (s.limited && !s'.limited) || (s'.guard.broken && !s.guard.broken)
  {
    hide Prepare, Inv, Deliver;
    var r := Prepare(cfg, s, input);
    PrepareLimit(cfg, s, input);
    if r.status == Looping && r.outstanding == multiset{} && !(|r.running| == 0 && r.checker.None?) {
      NothingOutstanding(cfg, r);
      assert |r.running| == |r.running.Keys|;
      StillWaiting(cfg, s, input);
      DeliverNothing(cfg, r, input);
    } else if r.status == Looping && !(|r.running| == 0 && r.checker.None?) {
      DeliverSpends(cfg, r, input);
    }
  }

  lemma DeliverNothing(cfg: Config, s: State, input: Input)
    requires s.outstanding == multiset{}
    ensures Deliver(cfg, s, input) == s
  {
  }

  lemma NothingOutstanding(cfg: Config, s: State)
    requires Inv(cfg, s, None) && s.outstanding == multiset{}
    ensures AllWait(s)
  {
    assert s.outstanding[CHECKER] == Expected(s, None, CHECKER);
    forall t | t in s.running
      ensures t in s.waiting
    {
      assert s.outstanding[t] == Expected(s, None, t);
    }
  }

  lemma PrepareLimit(cfg: Config, s: State, input: Input)
    requires Inv(cfg, s, None) && s.status == Looping
    ensures
      var r := Prepare(cfg, s, input);
      r.limited == s.limited && r.jobs == s.jobs && (r.status == Looping ==> !r.immediate)
  {
    hide Inv, Release, GiveBack, CheckIfDue, FillSlots;
    PollKeeps(cfg, s, input.stop);
    var polled := Poll(s, input.stop);
    if !polled.immediate {
      StagesLimit(cfg, polled, input);
    }
  }

  lemma StagesLimit(cfg: Config, s: State, input: Input)
    requires Inv(cfg, s, None) && s.status == Looping
    ensures
      var given := GiveBack(cfg, Release(cfg, s, input.releaseEnv), input.parkReadable);
      var r := FillSlots(cfg, CheckIfDue(cfg, given, input), input.startEnv);
      r.limited == s.limited && r.jobs == s.jobs && r.immediate == s.immediate
  {
    hide Inv, Release, GiveBack, CheckIfDue, FillSlots, Ready, Take, NumbersIn, CheckDue, CanDispatch;
    var rel := Release(cfg, s, input.releaseEnv);
    ReleaseMode(cfg, s, input.releaseEnv);
    GivenBack(cfg, rel, input.parkReadable);
    var given := GiveBack(cfg, rel, input.parkReadable);
    CheckStarts(cfg, given, input);
    FillMode(cfg, CheckIfDue(cfg, given, input), input.startEnv);
  }

  lemma FillMode(cfg: Config, s: State, envOf: nat -> Env)
    requires Inv(cfg, s, None) && s.status == Looping
    ensures SameMode(s, FillSlots(cfg, s, envOf)) && FillSlots(cfg, s, envOf).waiting == s.waiting
  {
    hide Inv, Ready, Take, NumbersIn, FillSlots;
    FillSlotsOnly(cfg, s, envOf);
  }

  lemma DeliverSpends(cfg: Config, s: State, input: Input)
    requires Inv(cfg, s, None) && s.status == Looping
    ensures
      var s' := Deliver(cfg, s, input);
      s' == s || s'.status != Looping || s'.jobs > s.jobs
  {
    if input.event.Some? && Deliverable(s, input.event.value) && !input.late {
      var e := input.event.value;
      TakeKeeps(cfg, s, e);
      var taken := Taken(s, e);
      if !taken.limited && e.number != CHECKER {
        AdvanceMode(cfg, taken, e.number, e.reply, e.env);
      } else if !taken.limited {
        CheckSpends(cfg, taken, e);
      }
      hide Inv, AdvanceFlow, AdvanceCheck;
    }
  }

  lemma CheckSpends(cfg: Config, s: State, e: Event)
    requires s.checker.Some? && CheckFits(s.checker.value.at, e.reply)
    ensures AdvanceCheck(cfg, s, e.reply, e.checkEnv).jobs == s.jobs
  {
    hide ResumeCheck, AbsorbCheck;
  }
}

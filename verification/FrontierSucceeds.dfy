/** With good answers and no stop, the frontier integrates every ticket that does not wait on
    something beyond the run. */
module FrontierSucceeds {
  import opened Wrappers
  import opened Board
  import opened TicketFlow
  import opened TicketFlowProofs
  import opened FlowSucceeds
  import opened IntegrationCheck
  import opened Sorting
  import opened Graph
  import opened Scheduler
  import opened SchedulerInvariant
  import opened SchedulerActions
  import opened Frontier
  import opened FrontierTheorems
  import opened FrontierBound
  import opened FrontierTermination
  import opened FrontierProgress
  import opened FrontierPause
  import opened FrontierComplete
  import Markers

  /** A job that ends well: a session is done, a verify is green, a gate passes. */
  predicate GoodReply(r: Reply) {
    match r
    case Go => true
    case SessionEnded(_, _) => SaysDone(r)
    case VerifyEnded(ok) => ok
    case GateEnded(_, _) => SaysPass(r)
    case Raised(_) => false
  }

  /** No stop, and every job, git call and forge call of the pass goes well. */
  ghost predicate GoodInput(input: Input) {
    && input.stop == NoStop && !input.late && input.tipReadable && AllChecks(input.checkStart)
    && (forall t :: AllGoes(input.releaseEnv(t))) && (forall t :: AllGoes(input.startEnv(t)))
    && (input.event.Some? ==>
          GoodReply(input.event.value.reply) && AllGoes(input.event.value.env) && AllChecks(input.event.value.checkEnv))
  }

  lemma GoodIsUnlimited(r: Reply)
    requires GoodReply(r)
    ensures !IsLimited(r)
  {
    if r.GateEnded? {
      GatePassMeaning(r);
      LimitInsideAGate(r.first, r.second);
    }
  }

  lemma GoodStart(f: Flow, env: Env)
    requires f.at.Created? && AllGoes(env)
    ensures Start(f, env).Step? && !Start(f, env).flow.at.Ended?
  {
  }

  lemma GoodOpen(f: Flow, env: Env)
    requires AllGoes(env)
    ensures AfterVerify(f, env).Step? && !AfterVerify(f, env).flow.at.Ended?
  {
  }

  lemma GoodMerge(f: Flow, maxRounds: nat, env: Env)
    requires AllGoes(env)
    ensures AfterGreen(f, maxRounds, env).Step? && AfterGreen(f, maxRounds, env).flow.at == Ended(StatusIntegrated)
  {
  }

  /** A good answer never fails a flow: it goes on, or it ends integrated. */
  lemma GoodStep(f: Flow, r: Reply, maxRounds: nat, env: Env)
    requires Fits(f.at, r) && GoodReply(r) && AllGoes(env)
    ensures
      var step := Resume(f, r, maxRounds, env);
      step.Step? && (step.flow.at.Ended? ==> step.flow.at == Ended(StatusIntegrated))
  {
    hide Start, AfterVerify, AfterGreen, Markers.OutcomeOf, GateVerdict;
    if f.at.Created? {
      GoodStart(f, env);
    }
    GoodOpen(f, env);
    GoodMerge(f, maxRounds, env);
  }

  lemma GoodCheck(c: Check, r: Reply, maxRounds: nat, env: CheckEnv, tip: Commit)
    requires CheckFits(c.at, r) && GoodReply(r) && AllChecks(env)
    ensures
      var step := ResumeCheck(c, r, maxRounds, env, tip);
      step.CheckStep? && (step.check.at.CheckEnded? ==> step.check.at.result.CheckGreen?)
  {
    hide Markers.OutcomeOf;
  }

  /** A run that goes well: no stop, no limit, no broken branch; a ticket that was not dispatched is as it
      was, and one that was is running or integrated. */
  predicate GoodOk(w: World, s: State) {
    && !s.guard.broken && !s.Draining() && !s.limited && s.world.cards.Keys == w.cards.Keys
    && (forall t | t in w.cards && t !in s.dispatched :: s.world.cards[t] == w.cards[t])
    && (forall t | t in s.dispatched && t in w.cards :: t in s.running || In(s.world.cards[t], Integrated))
  }

  lemma AdvanceGood(cfg: Config, w: World, s: State, t: nat, r: Reply, env: Env)
    requires t in s.running && t in s.world.cards && t in s.dispatched && Fits(s.running[t].at, r)
    requires FlowOk(s.running[t], cfg.maxRounds) && CardOk(s.running[t], s.world.cards[t])
    requires GoodOk(w, s) && GoodReply(r) && AllGoes(env)
    ensures
      var s' := AdvanceFlow(cfg, s, t, r, env);
      GoodOk(w, s') && s'.status == s.status
  {
    hide Resume, FlowOk, Fits, Yielded, GoodReply, AllGoes, CardOk, GoodOk, AdvanceFlow, SameMode, In;
    var f, card := s.running[t], s.world.cards[t];
    var step := Resume(f, r, cfg.maxRounds, env);
    AdvanceIsYield(cfg, s, t, r, env);
    AdvanceMode(cfg, s, t, r, env);
    GoodStep(f, r, cfg.maxRounds, env);
    ResumeStepOk(cfg, f, r, env, card);
    AbsorbCards(s.world, t, step.effects);
    if step.flow.at.Ended? {
      EndsIntegrated(step.flow, ApplyAll(card, step.effects));
    }
    YieldTouches(s, t, step);
    YieldStatus(s, t, step);
    GoodYield(w, s, t, step, Yielded(s, t, step));
  }

  /** Only ticket `t` moved: it runs on, or it ended integrated. */
  lemma GoodYield(w: World, s: State, t: nat, step: Step, s': State)
    requires GoodOk(w, s) && SameMode(s, s') && t in s.dispatched && t in s.world.cards
    requires s'.dispatched == s.dispatched && s'.running - {t} == s.running - {t}
    requires step.Step? && s'.world.cards == s.world.cards[t := ApplyAll(s.world.cards[t], step.effects)]
    requires t in s'.running || In(ApplyAll(s.world.cards[t], step.effects), Integrated)
    ensures GoodOk(w, s')
  {
    hide ApplyAll, In;
    forall u | u in s'.dispatched && u in w.cards
      ensures u in s'.running || In(s'.world.cards[u], Integrated)
    {
      if u != t && u in s.running {
        assert u in s.running - {t};
      }
    }
  }

  lemma EndsIntegrated(g: Flow, card: Card)
    requires CardOk(g, card) && g.at == Ended(StatusIntegrated)
    ensures In(card, Integrated)
  {
  }

  lemma YieldStatus(s: State, t: nat, step: Step)
    requires t in s.world.cards && step.Step?
    ensures Yielded(s, t, step).status == s.status
    ensures !step.flow.at.Ended? ==> t in Yielded(s, t, step).running
  {
    hide Absorb;
  }

  // Stage by stage.

  lemma HandPlaced(cfg: Config, s: State, hand: Option<nat>, t: nat)
    requires Inv(cfg, s, hand) && t in s.running
    ensures t in s.world.cards && t in s.dispatched
    ensures FlowOk(s.running[t], cfg.maxRounds) && CardOk(s.running[t], s.world.cards[t])
  {
    assert FlowPlaced(cfg, s, hand, t);
  }

  lemma {:induction false} ReleaseGood(cfg: Config, w: World, s: State, envOf: nat -> Env)
    requires Inv(cfg, s, None) && s.status == Looping && GoodOk(w, s) && forall t :: AllGoes(envOf(t))
    ensures GoodOk(w, Release(cfg, s, envOf))
    decreases |s.waiting|
  {
    if !CanRelease(s) {
    } else {
      var t := s.waiting[0];
      ReleaseOneKeeps(cfg, s, envOf(t));
      PopKeeps(cfg, s);
      HandPlaced(cfg, Popped(s), Some(t), t);
      PoppedGood(w, s);
      hide Inv, AdvanceFlow, FlowOk, CardOk, GoodOk, AllGoes;
      AdvanceGood(cfg, w, Popped(s), t, Go, envOf(t));
      ReleaseGood(cfg, w, AdvanceFlow(cfg, Popped(s), t, Go, envOf(t)), envOf);
    }
  }

  lemma PoppedGood(w: World, s: State)
    requires s.waiting != [] && GoodOk(w, s)
    ensures GoodOk(w, Popped(s))
  {
  }

  lemma CheckYieldGood(w: World, s: State, step: CheckStep)
    requires GoodOk(w, s) && step.CheckStep?
    requires step.check.at.CheckEnded? ==> step.check.at.result.CheckGreen?
    ensures
      var s' := CheckYielded(s, step);
      GoodOk(w, s') && s'.status == s.status
  {
    hide AbsorbCheck, In;
  }

  lemma CheckDueGood(cfg: Config, w: World, s: State, input: Input)
    requires Inv(cfg, s, None) && s.status == Looping && GoodOk(w, s) && input.tipReadable
    requires AllChecks(input.checkStart)
    ensures GoodOk(w, CheckIfDue(cfg, s, input))
  {
    hide Inv, CheckYielded, ResumeCheck, AllChecks;
    if CheckDue(s) {
      var c := CheckStarted(s);
      GoodCheck(c.checker.value, Go, cfg.maxRounds, input.checkStart, c.world.tip);
      StartedGood(w, s);
      CheckYieldGood(w, c, ResumeCheck(c.checker.value, Go, cfg.maxRounds, input.checkStart, c.world.tip));
    }
    hide GoodOk;
  }

  lemma StartedGood(w: World, s: State)
    requires GoodOk(w, s)
    ensures GoodOk(w, CheckStarted(s))
  {
    hide In;
  }

  lemma DispatchGood(cfg: Config, w: World, s: State, p: Pick, env: Env)
    requires Inv(cfg, s, None) && s.status == Looping && PickOk(cfg, s, p) && |s.running| < cfg.parallel
    requires GoodOk(w, s) && AllGoes(env)
    ensures GoodOk(w, Dispatch(cfg, s, p, env))
  {
    PickHasCard(cfg, s, p);
    ClaimKeeps(cfg, s, p);
    ClaimFacts(s, p);
    ClaimedGood(w, s, p);
    DispatchIsAdvance(cfg, s, p, env);
    hide Inv, PickOk, Dispatch, AdvanceFlow, Claimed, GoodOk, AllGoes, FlowOk, CardOk;
    var c := Claimed(s, p);
    HandPlaced(cfg, c, Some(p.number), p.number);
    AdvanceGood(cfg, w, c, p.number, Go, env);
  }

  lemma ClaimedGood(w: World, s: State, p: Pick)
    requires p.number in s.world.cards && GoodOk(w, s)
    ensures GoodOk(w, Claimed(s, p))
  {
    hide In;
  }

  lemma {:induction false} DispatchAllGood(cfg: Config, w: World, s: State, picks: seq<Pick>, envOf: nat -> Env)
    requires Inv(cfg, s, None) && s.status == Looping && PicksOk(cfg, s, picks)
    requires GoodOk(w, s) && forall t :: AllGoes(envOf(t))
    ensures GoodOk(w, DispatchAll(cfg, s, picks, envOf))
    decreases |picks|
  {
    hide Inv, Dispatch, PicksOk, PickOk, GoodOk, AllGoes;
    if picks == [] {
    } else {
      var env := envOf(picks[0].number);
      FirstPick(cfg, s, picks);
      RoomForPick(cfg, s, picks);
      DispatchKeeps(cfg, s, picks, env);
      DispatchGood(cfg, w, s, picks[0], env);
      DispatchAllGood(cfg, w, Dispatch(cfg, s, picks[0], env), picks[1..], envOf);
    }
  }

  lemma FillGood(cfg: Config, w: World, s: State, envOf: nat -> Env)
    requires Inv(cfg, s, None) && s.status == Looping && GoodOk(w, s) && forall t :: AllGoes(envOf(t))
    ensures GoodOk(w, FillSlots(cfg, s, envOf))
  {
    hide Inv, Ready, PicksOk, DispatchAll, GoodOk, AllGoes, Take;
    if CanDispatch(cfg, s) {
      ReadyPicksOk(cfg, s);
      DispatchAllGood(cfg, w, s, Take(Ready(cfg, s), cfg.parallel - |s.running|), envOf);
    }
  }

  lemma NotGivenBack(cfg: Config, w: World, s: State, readable: nat -> bool)
    requires Inv(cfg, s, None) && GoodOk(w, s)
    ensures GiveBack(cfg, s, readable) == s
  {
    hide Inv;
  }

  lemma StillPolled(w: World, s: State)
    requires GoodOk(w, s)
    ensures Poll(s, NoStop) == s && !s.immediate
  {
  }

  lemma BeforeGood(cfg: Config, w: World, s: State, input: Input)
    requires Inv(cfg, s, None) && s.status == Looping && GoodOk(w, s) && GoodInput(input)
    ensures !Poll(s, input.stop).immediate
    ensures
      var x := BeforeDispatch(cfg, s, input);
      GoodOk(w, x) && Prepare(cfg, s, input) == FillSlots(cfg, x, input.startEnv)
  {
    StillPolled(w, s);
    hide Inv, Release, GiveBack, CheckIfDue, FillSlots, GoodOk, AllGoes, AllChecks, GoodReply;
    ReleaseGood(cfg, w, s, input.releaseEnv);
    var rel := Release(cfg, s, input.releaseEnv);
    NotGivenBack(cfg, w, rel, input.parkReadable);
    CheckDueGood(cfg, w, rel, input);
  }

  lemma DeliverGood(cfg: Config, w: World, s: State, input: Input)
    requires Inv(cfg, s, None) && s.status == Looping && GoodOk(w, s) && GoodInput(input)
    ensures
      var s' := Deliver(cfg, s, input);
      GoodOk(w, s') && s'.status == Looping
  {
    hide Inv, GoodOk, GoodReply, AllGoes, AllChecks, IsLimited, AdvanceFlow, AdvanceCheck, CheckFits, Fits;
    if input.event.Some? && Deliverable(s, input.event.value) {
      var e := input.event.value;
      GoodIsUnlimited(e.reply);
      TakeKeeps(cfg, s, e);
      TakenGood(w, s, e);
      if e.number == CHECKER {
        CheckEventGood(cfg, w, Taken(s, e), e);
      } else {
        HandPlaced(cfg, Taken(s, e), Some(e.number), e.number);
        hide FlowOk, CardOk;
        AdvanceGood(cfg, w, Taken(s, e), e.number, e.reply, e.env);
      }
    }
  }

  lemma TakenGood(w: World, s: State, e: Event)
    requires GoodOk(w, s) && !IsLimited(e.reply)
    ensures GoodOk(w, Taken(s, e)) && !Taken(s, e).limited
  {
    hide In, IsLimited;
  }

  lemma CheckEventGood(cfg: Config, w: World, s: State, e: Event)
    requires s.checker.Some? && CheckFits(s.checker.value.at, e.reply) && GoodOk(w, s)
    requires GoodReply(e.reply) && AllChecks(e.checkEnv)
    ensures
      var s' := AdvanceCheck(cfg, s, e.reply, e.checkEnv);
      GoodOk(w, s') && s'.status == s.status
  {
    hide ResumeCheck, CheckYielded, GoodOk, GoodReply, AllChecks;
    GoodCheck(s.checker.value, e.reply, cfg.maxRounds, e.checkEnv, s.world.tip);
    CheckYieldGood(w, s, ResumeCheck(s.checker.value, e.reply, cfg.maxRounds, e.checkEnv, s.world.tip));
  }

  lemma PassGood(cfg: Config, w: World, s: State, input: Input)
    requires Inv(cfg, s, None) && s.status == Looping && GoodOk(w, s) && GoodInput(input)
    ensures
      var s' := Pass(cfg, s, input);
      GoodOk(w, s') && s'.status in {Looping, Returned}
  {
    hide Inv, Prepare, Deliver, GoodOk, GoodInput, FillSlots, BeforeDispatch;
    BeforeGood(cfg, w, s, input);
    var r := Prepare(cfg, s, input);
    GoodEnvs(input);
    FillGood(cfg, w, BeforeDispatch(cfg, s, input), input.startEnv);
    if |r.running| == 0 && r.checker.None? {
      IdleGood(cfg, w, r, input);
    } else {
      DeliverGood(cfg, w, r, input);
    }
  }

  lemma GoodEnvs(input: Input)
    requires GoodInput(input)
    ensures forall t :: AllGoes(input.startEnv(t))
  {
    hide AllGoes;
  }

  lemma IdleGood(cfg: Config, w: World, s: State, input: Input)
    requires GoodOk(w, s)
    ensures GoodOk(w, Idle(cfg, s, input)) && Idle(cfg, s, input).status == Returned
  {
    hide In;
  }

  // The end of a good run.

  /** A good pass that ends the run dispatched nothing: what it had dispatched would be integrated, and a
      first step never is. So nothing is left ready. */
  lemma GoodReturn(cfg: Config, w: World, s: State, input: Input)
    requires Inv(cfg, s, None) && s.status == Looping && GoodOk(w, s) && GoodInput(input)
    requires Pass(cfg, s, input).status == Returned
    ensures Ready(cfg, Pass(cfg, s, input)) == [] && Pass(cfg, s, input).running == map[]
  {
    hide Inv, Pass, BeforeDispatch, Ready, FillSlots, OnlyDispatched, NumbersIn, Take, GoodOk, GoodInput;
    PassGood(cfg, w, s, input);
    NotDraining(w, Pass(cfg, s, input));
    SettledBefore(cfg, s, input);
    ReturnIsSettled(cfg, s, input);
    ReturnLeavesNoneReady(cfg, s, input);
    var x := BeforeDispatch(cfg, s, input);
    var r := FillSlots(cfg, x, input.startEnv);
    NothingWasReady(cfg, w, x, r, Pass(cfg, s, input));
    RoomForOne(cfg, s);
  }

  lemma NotDraining(w: World, s: State)
    requires GoodOk(w, s)
    ensures !s.Draining()
  {
  }

  lemma RoomForOne(cfg: Config, s: State)
    requires Inv(cfg, s, None)
    ensures cfg.parallel >= 1
  {
  }

  lemma NothingWasReady(cfg: Config, w: World, x: State, r: State, s': State)
    requires Inv(cfg, x, None) && GoodOk(w, s')
    requires OnlyDispatched(x, r, NumbersIn(Take(Ready(cfg, x), cfg.parallel)))
    requires s' == r.(status := Returned) && s'.running == map[]
    ensures Ready(cfg, x) == []
  {
    hide Ready, Inv, In, OnlyDispatched, GoodOk, NumbersIn, Take, Started;
    var among := NumbersIn(Take(Ready(cfg, x), cfg.parallel));
    RoomForOne(cfg, x);
    NotIntegratedYet(cfg, x, cfg.parallel);
    NoneAmong(w, x, r, s', among);
    FirstIsTaken(Ready(cfg, x), cfg.parallel);
  }

  lemma FirstIsTaken(ready: seq<Pick>, n: nat)
    requires n >= 1
    ensures ready != [] ==> NumbersIn(Take(ready, n)) != {}
  {
    if ready != [] {
      assert ready[0] in Take(ready, n);
      assert ready[0].number in NumbersIn(Take(ready, n));
    }
  }

  lemma NoneAmong(w: World, x: State, r: State, s': State, among: set<nat>)
    requires OnlyDispatched(x, r, among) && forall t | t in among :: t in x.world.cards
    requires GoodOk(w, s') && s' == r.(status := Returned) && s'.running == map[]
    ensures among == {}
  {
    forall t | t in among
      ensures t in w.cards && Started(s'.world.cards[t]) && In(s'.world.cards[t], Integrated)
    {
    }
    if t :| t in among {
      StateIn(s'.world.cards[t], Integrated);
    }
  }

  lemma {:induction false} RunGood(cfg: Config, w: World, s: State, inputs: seq<Input>)
    requires Inv(cfg, s, None) && s.status == Looping && GoodOk(w, s)
    requires forall input | input in inputs :: GoodInput(input)
    ensures
      var s' := Run(cfg, s, inputs);
      && GoodOk(w, s') && s'.status in {Looping, Returned}
      && (s'.status == Returned ==> Ready(cfg, s') == [] && s'.running == map[])
    decreases |inputs|
  {
    hide Inv, InvEnd, Pass, GoodOk, GoodInput, Ready;
    if inputs != [] {
      PassGood(cfg, w, s, inputs[0]);
      var s' := Pass(cfg, s, inputs[0]);
      if s'.status == Looping {
        RunGood(cfg, w, s', inputs[1..]);
      } else {
        GoodReturn(cfg, w, s, inputs[0]);
      }
    }
  }

  lemma BeginGood(cfg: Config, w: World)
    ensures GoodOk(w, Begin(cfg, w))
  {
  }

  /** The run may work on the ticket: it is queued, left in review with an open PR, or integrated before. */
  predicate Tracked(cfg: Config, w: World, h: Head) {
    && h.number in w.cards
    && (h.number in cfg.resumes || In(w.cards[h.number], Queued) || In(w.cards[h.number], Integrated))
  }

  /** A blocker the run cannot resolve, as the board was at its start: an open issue outside the PRD, or an
      open ticket the run does not work on. */
  predicate StuckFromStart(cfg: Config, w: World, b: Blocker) {
    (b.open && forall j | 0 <= j < |cfg.heads| :: !HasKey(cfg.heads[j], b.KeyOf())) ||
    (exists j | 0 <= j < |cfg.heads| ::
       HasKey(cfg.heads[j], b.KeyOf()) && cfg.heads[j].open && !Tracked(cfg, w, cfg.heads[j]))
  }

  /** At the end of a good run a tracked ticket is integrated, or still queued. */
  lemma TrackedEnds(cfg: Config, w: World, s: State, h: Head)
    requires GoodOk(w, s) && s.running == map[] && Ready(cfg, s) == [] && Tracked(cfg, w, h)
    ensures h.number in s.world.cards
    ensures
      var card := s.world.cards[h.number];
      In(card, Integrated) || (h.number !in s.dispatched && In(card, Queued))
  {
    hide Ready;
    ReadyMeaning(cfg, s, Pick(h.number, true));
  }

  lemma StateIn(card: Card, l: Label)
    requires In(card, l)
    ensures l in card.labels
  {
    assert l in card.labels * STATES;
  }

  lemma StuckAtEnd(cfg: Config, w: World, s: State, b: Blocker)
    requires ConfigOk(cfg) && GoodOk(w, s) && s.running == map[] && Ready(cfg, s) == []
    requires IsStuck(b, Issues(cfg, s.world))
    ensures StuckFromStart(cfg, w, b)
  {
    hide Ready, Issues, GoodOk, ConfigOk, In, Tracked;
    if j :| 0 <= j < |cfg.heads| && HasKey(cfg.heads[j], b.KeyOf()) {
      LookupHead(cfg, s.world, b.KeyOf(), j);
      var h := cfg.heads[j];
      if Tracked(cfg, w, h) {
        TrackedEnds(cfg, w, s, h);
        if In(s.world.cards[h.number], Integrated) {
          StateIn(s.world.cards[h.number], Integrated);
        } else {
          StateIn(s.world.cards[h.number], Queued);
        }
        assert false;
      }
    } else {
      LookupNone(cfg, s.world, b.KeyOf());
    }
  }

  lemma GoodInputs(inputs: seq<Input>)
    requires forall input | input in inputs :: GoodInput(input)
    ensures forall input | input in inputs :: Unlimited(input)
  {
    forall input | input in inputs
      ensures Unlimited(input)
    {
      if input.event.Some? {
        GoodIsUnlimited(input.event.value.reply);
      }
    }
  }

  /** A good run returns, with nothing running and nothing ready. */
  lemma GoodRunReturns(cfg: Config, w: World, inputs: seq<Input>, tickets: seq<nat>)
    requires WorldOk(cfg, w) && NoRepeats(tickets) && forall t | t in w.cards :: t in tickets
    requires (forall input | input in inputs :: GoodInput(input)) && RunAnswers(cfg, w, inputs)
    requires |inputs| >= |tickets| * (6 * cfg.maxRounds + 3) + (|tickets| + 1) * (2 * cfg.maxRounds + 1) + 2
    ensures
      var s := RunOf(cfg, w, inputs);
      s.status == Returned && GoodOk(w, s) && s.running == map[] && Ready(cfg, s) == []
  {
    BeginOk(cfg, w);
    BeginsLooping(cfg, w);
    BeginGood(cfg, w);
    GoodInputs(inputs);
    hide Inv, InvEnd, Run, Begin, GoodOk, GoodInput, Ready, WorldOk, Unlimited, RunAnswers;
    FrontierEnds(cfg, w, inputs, tickets);
    RunGood(cfg, w, Begin(cfg, w), inputs);
  }

  /** What the frontier is for. With every job answered well, no stop and no limit, the run returns within
      the bound, and every tracked open ticket ends integrated with its PR merged, unless it waits, through
      open queued tickets, on a blocker that was beyond the run from its start. */
  lemma GoodRunIntegrates(cfg: Config, w: World, inputs: seq<Input>, tickets: seq<nat>, h: Head)
    returns (chain: seq<nat>, b: Blocker)
    requires WorldOk(cfg, w) && NoRepeats(tickets) && forall t | t in w.cards :: t in tickets
    requires (forall input | input in inputs :: GoodInput(input)) && RunAnswers(cfg, w, inputs)
    requires |inputs| >= |tickets| * (6 * cfg.maxRounds + 3) + (|tickets| + 1) * (2 * cfg.maxRounds + 1) + 2
    requires Acyclic(EdgesOf(Issues(cfg, w), cfg.blockers))
    requires h in cfg.heads && h.open && Tracked(cfg, w, h)
    ensures
      var s := RunOf(cfg, w, inputs);
      && s.status == Returned && h.number in s.world.cards
      && var card := s.world.cards[h.number];
         if In(card, Integrated) then card.pr == Merged
         else
           && In(card, Queued) && StuckFromStart(cfg, w, b)
           && WaitsOn(Issues(cfg, s.world), cfg.blockers, chain, b) && chain[0] == h.number
  {
    hide InvEnd, GoodOk, GoodInput, Ready, Acyclic, EdgesOf, WaitsOn, IsStuck, StuckFromStart, RunAnswers, Tracked;
    GoodRunReturns(cfg, w, inputs, tickets);
    var s := RunOf(cfg, w, inputs);
    TrackedEnds(cfg, w, s, h);
    LabelsFit(cfg, w, inputs, h.number);
    hide RunOf;
    var card := s.world.cards[h.number];
    if In(card, Integrated) {
      StateIn(card, Integrated);
      chain, b := [], Blocker("", 0, false);
    } else {
      StateIn(card, Queued);
      var i :| 0 <= i < |cfg.heads| && cfg.heads[i] == h;
      var t := IssueOf(h, s.world);
      assert Issues(cfg, s.world)[i] == t;
      chain, b := LeftQueuedIsStuck(cfg, w, inputs, t);
      StuckAtEnd(cfg, w, s, b);
    }
  }

  /** Where every open ticket is tracked and every open blocker is a ticket, all of them end integrated. */
  lemma GoodRunIntegratesAll(cfg: Config, w: World, inputs: seq<Input>, tickets: seq<nat>)
    requires WorldOk(cfg, w) && NoRepeats(tickets) && forall t | t in w.cards :: t in tickets
    requires (forall input | input in inputs :: GoodInput(input)) && RunAnswers(cfg, w, inputs)
    requires |inputs| >= |tickets| * (6 * cfg.maxRounds + 3) + (|tickets| + 1) * (2 * cfg.maxRounds + 1) + 2
    requires Acyclic(EdgesOf(Issues(cfg, w), cfg.blockers))
    requires forall h | h in cfg.heads && h.open :: Tracked(cfg, w, h)
    requires forall n: nat, b | b in BlockersOf(cfg.blockers, n) && b.open ::
      exists j | 0 <= j < |cfg.heads| :: HasKey(cfg.heads[j], b.KeyOf())
    ensures
      var s := RunOf(cfg, w, inputs);
      && s.status == Returned
      && forall h | h in cfg.heads && h.open ::
           h.number in s.world.cards && In(s.world.cards[h.number], Integrated) && s.world.cards[h.number].pr == Merged
  {
    hide InvEnd, RunOf, GoodInput, RunAnswers, Acyclic, EdgesOf, Tracked, In, Issues, WorldOk, NoRepeats, BlockersOf;
    var s := RunOf(cfg, w, inputs);
    GoodRunReturns(cfg, w, inputs, tickets);
    forall h | h in cfg.heads && h.open
      ensures h.number in s.world.cards && In(s.world.cards[h.number], Integrated)
      ensures s.world.cards[h.number].pr == Merged
    {
      var chain, b := GoodRunIntegrates(cfg, w, inputs, tickets, h);
    }
  }
}

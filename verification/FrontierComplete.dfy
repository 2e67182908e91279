/** A normal end of the frontier leaves a queued ticket only behind something the run cannot resolve. */
module FrontierComplete {
  import opened Wrappers
  import opened Board
  import opened TicketFlow
  import opened TicketFlowProofs
  import opened IntegrationCheck
  import opened Graph
  import opened Scheduler
  import opened SchedulerInvariant
  import opened SchedulerActions
  import opened Frontier
  import opened FrontierTheorems
  import opened FrontierProgress
  import opened FrontierPause

  /** A ticket that was dispatched, and not given back to the queue, is not queued. */
  predicate DispatchedOk(s: State) {
    forall t | t in s.dispatched && t in s.world.cards :: Queued !in s.world.cards[t].labels
  }

  /** The same, but for the flow in hand. */
  predicate OthersOk(s: State, t: nat) {
    forall u | u in s.dispatched && u in s.world.cards && u != t :: Queued !in s.world.cards[u].labels
  }

  lemma NotQueued(f: Flow, card: Card)
    requires CardOk(f, card) && !f.at.Created?
    ensures Queued !in card.labels
  {
    assert Queued in card.labels ==> Queued in card.labels * STATES;
  }

  lemma AdvanceDispatched(cfg: Config, s: State, t: nat, r: Reply, env: Env)
    requires t in s.running && t in s.world.cards && Fits(s.running[t].at, r)
    requires FlowOk(s.running[t], cfg.maxRounds) && CardOk(s.running[t], s.world.cards[t]) && OthersOk(s, t)
    ensures AdvanceFlow(cfg, s, t, r, env).status == s.status != Crashed ==>
      DispatchedOk(AdvanceFlow(cfg, s, t, r, env))
  {
    hide Resume, CardOk, FlowOk, Fits, Yielded;
    ResumeStepOk(cfg, s.running[t], r, env, s.world.cards[t]);
    var step := Resume(s.running[t], r, cfg.maxRounds, env);
    YieldWorld(s, t, step);
    if step.Step? {
      AbsorbCards(s.world, t, step.effects);
      NotQueued(step.flow, ApplyAll(s.world.cards[t], step.effects));
    }
  }

  lemma YieldWorld(s: State, t: nat, step: Step)
    requires t in s.world.cards
    ensures
      var s' := Yielded(s, t, step);
      && s'.dispatched == s.dispatched
      && (step.Crash? ==> s'.status == Crashed)
      && (step.Step? ==> s'.world == Absorb(s.world, t, step.effects))
  {
    hide Absorb;
    if step.Step? && step.flow.at.Ended? {
      assert Yielded(s, t, step).running == s.running - {t};
    }
  }

  lemma HeldFlow(cfg: Config, s: State, hand: Option<nat>, t: nat)
    requires Inv(cfg, s, hand) && t in s.running
    ensures t in s.world.cards && FlowOk(s.running[t], cfg.maxRounds) && CardOk(s.running[t], s.world.cards[t])
  {
    assert FlowPlaced(cfg, s, hand, t);
  }

  lemma {:induction false} ReleaseDispatched(cfg: Config, s: State, envOf: nat -> Env)
    requires Inv(cfg, s, None) && s.status == Looping && DispatchedOk(s)
    ensures DispatchedOk(Release(cfg, s, envOf))
    decreases |s.waiting|
  {
    if !CanRelease(s) {
    } else {
      var t := s.waiting[0];
      ReleaseOneKeeps(cfg, s, envOf(t));
      PopKeeps(cfg, s);
      HeldFlow(cfg, Popped(s), Some(t), t);
      hide Inv, AdvanceFlow, FlowOk, CardOk;
      AdvanceDispatched(cfg, Popped(s), t, Go, envOf(t));
      ReleaseDispatched(cfg, AdvanceFlow(cfg, Popped(s), t, Go, envOf(t)), envOf);
    }
  }

  lemma ParkDispatched(cfg: Config, s: State, t: nat, readable: bool)
    requires t in s.running && t in s.world.cards && CardOk(s.running[t], s.world.cards[t])
    requires !s.running[t].at.Created? && !s.running[t].at.Ended? && DispatchedOk(s)
    ensures DispatchedOk(ParkFlow(s, t, readable))
  {
    NotQueued(s.running[t], s.world.cards[t]);
    ParkCardOk(s.running[t], s.world.cards[t], readable);
    var card := ParkCard(s.world.cards[t], readable);
    assert In(card, InReview) && Queued in card.labels ==> Queued in card.labels * STATES;
    hide CardOk, ParkCard, Without;
  }

  lemma {:induction false} ParkEachDispatched(cfg: Config, s: State, list: seq<nat>, readable: nat -> bool)
    requires Inv(cfg, s, None) && ParkList(s, list) && DispatchedOk(s)
    ensures DispatchedOk(ParkEach(cfg, s, list, readable))
    decreases |list|
  {
    if list == [] {
    } else {
      ParkOneKeeps(cfg, s, list, readable(list[0]));
      WaitingFlow(cfg, s, list[0]);
      hide Inv, ParkFlow, ParkList, CardOk, DispatchedOk;
      ParkDispatched(cfg, s, list[0], readable(list[0]));
      ParkEachDispatched(cfg, ParkFlow(s, list[0], readable(list[0])), list[1..], readable);
    }
  }

  lemma WaitingFlow(cfg: Config, s: State, t: nat)
    requires Inv(cfg, s, None) && t in s.running
    ensures t in s.world.cards && CardOk(s.running[t], s.world.cards[t])
    ensures !s.running[t].at.Created? && !s.running[t].at.Ended?
  {
    assert FlowPlaced(cfg, s, None, t);
  }

  lemma GiveBackDispatched(cfg: Config, s: State, readable: nat -> bool)
    requires Inv(cfg, s, None) && DispatchedOk(s)
    ensures DispatchedOk(GiveBack(cfg, s, readable))
  {
    WholeList(cfg, s);
    hide Inv, ParkEach, DispatchedOk;
    if s.guard.broken || s.limited {
      ParkEachDispatched(cfg, s, s.waiting, readable);
    }
  }

  lemma FillDispatched(cfg: Config, s: State, envOf: nat -> Env)
    requires Inv(cfg, s, None) && s.status == Looping && DispatchedOk(s)
    ensures DispatchedOk(FillSlots(cfg, s, envOf))
  {
    hide Inv, FillSlots, Ready, Take, NumbersIn;
    FillSlotsOnly(cfg, s, envOf);
    if CanDispatch(cfg, s) {
      OnlyDispatchedKeeps(s, FillSlots(cfg, s, envOf), NumbersIn(Take(Ready(cfg, s), cfg.parallel - |s.running|)));
    }
  }

  lemma OnlyDispatchedKeeps(s: State, s': State, among: set<nat>)
    requires OnlyDispatched(s, s', among) && DispatchedOk(s)
    ensures DispatchedOk(s')
  {
    CardsElsewhere(s, s', among);
  }

  lemma PrepareDispatched(cfg: Config, s: State, input: Input)
    requires Inv(cfg, s, None) && s.status == Looping && DispatchedOk(s)
    ensures DispatchedOk(Prepare(cfg, s, input))
  {
    hide Inv, Release, GiveBack, CheckIfDue, FillSlots;
    PollKeeps(cfg, s, input.stop);
    var polled := Poll(s, input.stop);
    assert DispatchedOk(polled);
    if !polled.immediate {
      hide Poll, DispatchedOk;
      ReleaseDispatched(cfg, polled, input.releaseEnv);
      var rel := Release(cfg, polled, input.releaseEnv);
      GiveBackDispatched(cfg, rel, input.parkReadable);
      var given := GiveBack(cfg, rel, input.parkReadable);
      CheckStarts(cfg, given, input);
      var x := CheckIfDue(cfg, given, input);
      SameDispatched(given, x);
      FillDispatched(cfg, x, input.startEnv);
    }
  }

  lemma SameDispatched(s: State, s': State)
    requires DispatchedOk(s) && s'.dispatched == s.dispatched && s'.world.cards == s.world.cards
    ensures DispatchedOk(s')
  {
  }

  lemma DeliverDispatched(cfg: Config, s: State, input: Input)
    requires Inv(cfg, s, None) && s.status == Looping && DispatchedOk(s)
    ensures Deliver(cfg, s, input).status != Crashed ==> DispatchedOk(Deliver(cfg, s, input))
  {
    var s' := Deliver(cfg, s, input);
    hide Inv, AdvanceFlow, AdvanceCheck, ParkFlow, IsLimited;
    if input.event.Some? && Deliverable(s, input.event.value) && !input.late {
      var e := input.event.value;
      TakeKeeps(cfg, s, e);
      var taken := Taken(s, e);
      if e.number == CHECKER {
        if !taken.limited {
          CheckLeavesCards(cfg, taken, e.reply, e.checkEnv);
        }
        SameDispatched(s, s');
      } else {
        WaitingFlow(cfg, s, e.number);
        HeldFlow(cfg, s, None, e.number);
        hide DispatchedOk, CardOk, FlowOk;
        SameDispatched(s, taken);
        if taken.limited {
          ParkDispatched(cfg, taken, e.number, input.parkReadable(e.number));
        } else {
          OthersFine(taken, e.number);
          AdvanceDispatched(cfg, taken, e.number, e.reply, e.env);
          AdvanceStatus(cfg, taken, e.number, e.reply, e.env);
        }
      }
    } else {
      SameDispatched(s, s');
    }
  }

  lemma AdvanceStatus(cfg: Config, s: State, t: nat, r: Reply, env: Env)
    requires t in s.running && t in s.world.cards && Fits(s.running[t].at, r)
    ensures AdvanceFlow(cfg, s, t, r, env).status in {s.status, Crashed}
  {
    hide Resume, Absorb;
  }

  lemma OthersFine(s: State, t: nat)
    requires DispatchedOk(s)
    ensures OthersOk(s, t)
  {
  }

  lemma CheckLeavesCards(cfg: Config, s: State, r: Reply, env: CheckEnv)
    requires s.checker.Some? && CheckFits(s.checker.value.at, r)
    ensures
      var s' := AdvanceCheck(cfg, s, r, env);
      s'.dispatched == s.dispatched && s'.world.cards == s.world.cards
  {
    hide ResumeCheck, CheckYielded;
    CheckYieldsCards(s, ResumeCheck(s.checker.value, r, cfg.maxRounds, env, s.world.tip));
  }

  lemma CheckYieldsCards(s: State, step: CheckStep)
    ensures
      var s' := CheckYielded(s, step);
      s'.dispatched == s.dispatched && s'.world.cards == s.world.cards
  {
    hide AbsorbCheck, Checked;
    if step.CheckStep? && step.check.at.CheckEnded? {
      CheckedCards(s.(world := AbsorbCheck(s.world, step.effects), checker := None), step.check.at.result);
    }
  }

  lemma CheckedCards(s: State, result: CheckResult)
    ensures
      var s' := Checked(s, result);
      s'.dispatched == s.dispatched && s'.world.cards == s.world.cards
  {
  }

  lemma PassDispatched(cfg: Config, s: State, input: Input)
    requires Inv(cfg, s, None) && s.status == Looping && DispatchedOk(s)
    ensures Pass(cfg, s, input).status != Crashed ==> DispatchedOk(Pass(cfg, s, input))
  {
    hide Inv, Prepare, Deliver, DispatchedOk;
    PrepareDispatched(cfg, s, input);
    var r := Prepare(cfg, s, input);
    if r.status == Looping {
      if |r.running| == 0 && r.checker.None? {
        SameDispatched(r, Pass(cfg, s, input));
      } else {
        DeliverDispatched(cfg, r, input);
      }
    }
  }

  lemma {:induction false} RunDispatched(cfg: Config, s: State, inputs: seq<Input>)
    requires Inv(cfg, s, None) && s.status == Looping && DispatchedOk(s)
    ensures Run(cfg, s, inputs).status != Crashed ==> DispatchedOk(Run(cfg, s, inputs))
    decreases |inputs|
  {
    hide Inv, InvEnd, Pass, DispatchedOk;
    if inputs == [] {
    } else {
      PassDispatched(cfg, s, inputs[0]);
      var s' := Pass(cfg, s, inputs[0]);
      if s'.status == Looping {
        RunDispatched(cfg, s', inputs[1..]);
      }
    }
  }

  /** Where nothing is ready, nothing at all is dispatchable. */
  lemma NothingDispatchable(cfg: Config, s: State)
    requires DispatchedOk(s) && Ready(cfg, s) == []
    ensures Dispatchable(Issues(cfg, s.world), cfg.blockers) == []
  {
    var frontier := Dispatchable(Issues(cfg, s.world), cfg.blockers);
    hide Dispatchable, Ready, Issues;
    if frontier != [] {
      DispatchableIsReady(cfg, s, frontier[0]);
    }
  }

  lemma DispatchableIsReady(cfg: Config, s: State, t: Issue)
    requires DispatchedOk(s) && t in Dispatchable(Issues(cfg, s.world), cfg.blockers)
    ensures Pick(t.number, false) in Ready(cfg, s)
  {
    FrontierQueued(cfg, s.world, t);
    var frontier := Dispatchable(Issues(cfg, s.world), cfg.blockers);
    hide Dispatchable, PicksOf, Issues;
    var i :| 0 <= i < |frontier| && frontier[i] == t;
    assert IssueNumbers(frontier)[i] == t.number;
    assert Pick(t.number, false) in PicksOf(IssueNumbers(frontier), false, s.dispatched);
  }

  lemma FrontierQueued(cfg: Config, w: World, t: Issue)
    requires t in Dispatchable(Issues(cfg, w), cfg.blockers)
    ensures t.number in w.cards && Queued in w.cards[t.number].labels
  {
    var issues := Issues(cfg, w);
    DispatchableMeaning(issues, cfg.blockers);
    hide Dispatchable;
    assert t in issues;
    var i :| 0 <= i < |issues| && issues[i] == t;
    assert issues[i] == IssueOf(cfg.heads[i], w);
  }

  /** The blocker graph of the run does not change, because the sub-issues do not. */
  lemma SameEdges(cfg: Config, w: World, w': World)
    requires ConfigOk(cfg)
    ensures EdgesOf(Issues(cfg, w), cfg.blockers) == EdgesOf(Issues(cfg, w'), cfg.blockers)
  {
    var a, b := Issues(cfg, w), Issues(cfg, w');
    forall n
      ensures InPrd(a, BlockersOf(cfg.blockers, n)) == InPrd(b, BlockersOf(cfg.blockers, n))
    {
      SameInPrd(cfg, w, w', BlockersOf(cfg.blockers, n));
    }
    SameNumbers(cfg, w, w');
  }

  lemma SameNumbers(cfg: Config, w: World, w': World)
    ensures (set t | t in Issues(cfg, w) :: t.number) == (set t | t in Issues(cfg, w') :: t.number)
  {
    var a, b := Issues(cfg, w), Issues(cfg, w');
    forall t | t in a
      ensures exists u :: u in b && u.number == t.number
    {
      var i :| 0 <= i < |a| && a[i] == t;
      assert b[i] in b && b[i].number == t.number;
    }
    forall t | t in b
      ensures exists u :: u in a && u.number == t.number
    {
      var i :| 0 <= i < |b| && b[i] == t;
      assert a[i] in a && a[i].number == t.number;
    }
  }

  lemma {:induction false} SameInPrd(cfg: Config, w: World, w': World, bs: seq<Blocker>)
    requires ConfigOk(cfg)
    ensures InPrd(Issues(cfg, w), bs) == InPrd(Issues(cfg, w'), bs)
    decreases |bs|
  {
    hide Lookup, Issues;
    if bs == [] {
    } else {
      SameKey(cfg, w, w', bs[0].KeyOf());
      SameInPrd(cfg, w, w', bs[1..]);
    }
  }

  lemma SameKey(cfg: Config, w: World, w': World, k: Key)
    requires ConfigOk(cfg)
    ensures Lookup(Issues(cfg, w), k).Some? == Lookup(Issues(cfg, w'), k).Some?
  {
    hide Lookup, Issues;
    if j :| 0 <= j < |cfg.heads| && HasKey(cfg.heads[j], k) {
      LookupHead(cfg, w, k, j);
      LookupHead(cfg, w', k, j);
    } else {
      LookupNone(cfg, w, k);
      LookupNone(cfg, w', k);
    }
  }

  /** Completeness. A run on an acyclic board that ends with no stop, and with nothing ready, left an
      open ticket queued only if it waits, through open queued tickets, on an open issue outside the
      PRD or on an open ticket that is neither queued nor integrated. */
  lemma LeftQueuedIsStuck(cfg: Config, w: World, inputs: seq<Input>, t: Issue) returns (chain: seq<nat>, b: Blocker)
    requires WorldOk(cfg, w) && Acyclic(EdgesOf(Issues(cfg, w), cfg.blockers))
    requires RunOf(cfg, w, inputs).status == Returned && Ready(cfg, RunOf(cfg, w, inputs)) == []
    requires t in Issues(cfg, RunOf(cfg, w, inputs).world) && t.open && Queued in t.labels
    ensures
      var issues := Issues(cfg, RunOf(cfg, w, inputs).world);
      WaitsOn(issues, cfg.blockers, chain, b) && chain[0] == t.number && IsStuck(b, issues)
  {
    hide InvEnd, Acyclic, EdgesOf, Issues, Ready, Dispatchable, DispatchedOk, WaitsOn, IsStuck;
    var s := RunOf(cfg, w, inputs);
    RunKeepsDispatched(cfg, w, inputs);
    hide RunOf;
    NothingDispatchable(cfg, s);
    SameEdges(cfg, w, s.world);
    chain, b := Progress(Issues(cfg, s.world), cfg.blockers, t);
  }

  lemma RunKeepsDispatched(cfg: Config, w: World, inputs: seq<Input>)
    requires WorldOk(cfg, w)
    ensures RunOf(cfg, w, inputs).status != Crashed ==> DispatchedOk(RunOf(cfg, w, inputs))
  {
    BeginOk(cfg, w);
    BeginsLooping(cfg, w);
    hide Inv, InvEnd, Run, Begin;
    RunDispatched(cfg, Begin(cfg, w), inputs);
  }

  // The corner: tickets that all fail at their setup.

  lemma SetupFails(f: Flow, maxRounds: nat, env: Env)
    requires f.at.Created? && !env.addTreeOk
    ensures
      var step := Resume(f, Go, maxRounds, env);
      step.Step? && step.flow.at == Ended(StatusSystemic)
  {
  }

  lemma DispatchFails(cfg: Config, s: State, p: Pick, env: Env)
    requires p.number in s.world.cards && p.number !in s.running && !env.addTreeOk
    ensures Dispatch(cfg, s, p, env).running == s.running
  {
    ClaimFacts(s, p);
    DispatchIsAdvance(cfg, s, p, env);
    hide Dispatch, Resume, Absorb;
    var c := Claimed(s, p);
    SetupFails(c.running[p.number], cfg.maxRounds, env);
    assert c.running - {p.number} == s.running;
  }

  lemma {:induction false} DispatchAllFail(cfg: Config, s: State, picks: seq<Pick>, envOf: nat -> Env)
    requires Inv(cfg, s, None) && s.status == Looping && PicksOk(cfg, s, picks) && s.running == map[]
    requires forall t :: !envOf(t).addTreeOk
    ensures DispatchAll(cfg, s, picks, envOf).running == map[]
    decreases |picks|
  {
    hide Inv, Dispatch, PicksOk, PickOk;
    if picks == [] {
    } else {
      var env := envOf(picks[0].number);
      DispatchKeeps(cfg, s, picks, env);
      DispatchFails(cfg, s, picks[0], env);
      DispatchAllFail(cfg, Dispatch(cfg, s, picks[0], env), picks[1..], envOf);
    }
  }

  /** If every ticket dispatched in a pass fails at its setup and nothing else runs, the run ends there,
      however many more were ready. */
  lemma SetupFailuresEndTheRun(cfg: Config, s: State, input: Input)
    requires Inv(cfg, s, None) && s.status == Looping && !Poll(s, input.stop).immediate
    requires
      var x := BeforeDispatch(cfg, s, input);
      CanDispatch(cfg, x) && x.running == map[]
    requires forall t :: !input.startEnv(t).addTreeOk
    ensures Pass(cfg, s, input).status == Returned && !Pass(cfg, s, input).Draining()
    ensures |Ready(cfg, BeforeDispatch(cfg, s, input))| > cfg.parallel ==> Ready(cfg, Pass(cfg, s, input)) != []
  {
    hide Inv, Release, GiveBack, CheckIfDue, FillSlots, Deliver, Ready;
    PollKeeps(cfg, s, input.stop);
    var x := BeforeDispatch(cfg, s, input);
    FillFails(cfg, x, input.startEnv);
    var r := FillSlots(cfg, x, input.startEnv);
    assert Prepare(cfg, s, input) == r;
    assert |r.running| == 0;
    assert Pass(cfg, s, input) == r.(status := Returned);
    ReturnLeavesNoneReady(cfg, s, input);
  }

  lemma FillFails(cfg: Config, x: State, envOf: nat -> Env)
    requires Inv(cfg, x, None) && x.status == Looping && CanDispatch(cfg, x) && x.running == map[]
    requires forall t :: !envOf(t).addTreeOk
    ensures
      var r := FillSlots(cfg, x, envOf);
      r.running == map[] && r.checker.None? && !r.limited && !r.Draining() && r.status == Looping
  {
    hide Inv, Ready, Take, PicksOk, OnlyDispatched, NumbersIn, DispatchAll;
    ReadyPicksOk(cfg, x);
    var picks := Take(Ready(cfg, x), cfg.parallel - |x.running|);
    DispatchAllFail(cfg, x, picks, envOf);
    FillSlotsOnly(cfg, x, envOf);
    ModeBefore(x, FillSlots(cfg, x, envOf), NumbersIn(picks));
  }

  /** Such a run exists: two queued tickets, one slot, and a worktree that cannot be added. */
  lemma EarlyReturnExists(input: Input)
    requires input.stop == NoStop && forall t :: !input.startEnv(t).addTreeOk
    ensures
      var queued := Card({Queued}, NoPr);
      var cfg := Config(1, 0, false, [Head(1, "r", true), Head(2, "r", true)], map[], [], GREEN_AT_ZERO);
      var w := World(map[1 := queued, 2 := queued], 0, 1, {}, [], []);
      WorldOk(cfg, w) && RunOf(cfg, w, [input]).status == Returned && Ready(cfg, RunOf(cfg, w, [input])) != []
  {
    var queued := Card({Queued}, NoPr);
    var cfg := Config(1, 0, false, [Head(1, "r", true), Head(2, "r", true)], map[], [], GREEN_AT_ZERO);
    var w := World(map[1 := queued, 2 := queued], 0, 1, {}, [], []);
    QueuedIsLegit(queued);
    assert ConfigOk(cfg);
    assert WorldOk(cfg, w);
    var s := Begin(cfg, w);
    BeginOk(cfg, w);
    TwoReady(cfg, w, s);
    hide Inv, InvEnd, Ready, Pass;
    QuietStart(cfg, s, input);
    SetupFailuresEndTheRun(cfg, s, input);
    assert Run(cfg, s, [input]) == Pass(cfg, s, input);
  }

  lemma QueuedIsLegit(card: Card)
    requires card == Card({Queued}, NoPr)
    ensures Legit(card)
  {
    assert card.labels * STATES == {Queued};
  }

  lemma QuietStart(cfg: Config, s: State, input: Input)
    requires Inv(cfg, s, None) && s.status == Looping && input.stop == NoStop
    requires s.waiting == [] && s.Settled() && !s.limited && !s.Draining()
    ensures BeforeDispatch(cfg, s, input) == s
  {
    hide Inv;
  }

  lemma TwoReady(cfg: Config, w: World, s: State)
    requires s.world == w && s.dispatched == {} && cfg.blockers == map[]
    requires cfg.heads == [Head(1, "r", true), Head(2, "r", true)]
    requires 1 in w.cards && 2 in w.cards && Queued in w.cards[1].labels && Queued in w.cards[2].labels
    ensures |Ready(cfg, s)| > 1
  {
    var a, b := Pick(1, false), Pick(2, false);
    ReadyMeaning(cfg, s, a);
    ReadyMeaning(cfg, s, b);
    assert cfg.heads[0].number == 1 && cfg.heads[1].number == 2;
    assert IsReady(IssueOf(cfg.heads[0], w), Issues(cfg, w), cfg.blockers);
    assert IsReady(IssueOf(cfg.heads[1], w), Issues(cfg, w), cfg.blockers);
    hide Ready;
    var ready := Ready(cfg, s);
    var i :| 0 <= i < |ready| && ready[i] == a;
    var j :| 0 <= j < |ready| && ready[j] == b;
  }
}

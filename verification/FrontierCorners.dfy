/** A run that reaches the corner of the unseen merge: one resumed ticket, whose merge goes through without
    an answer, and whose pull request then cannot be read. */
module FrontierCorners {
  import opened Wrappers
  import opened Board
  import opened TicketFlow
  import opened FlowSucceeds
  import opened Graph
  import opened Scheduler
  import opened SchedulerInvariant
  import opened SchedulerActions
  import opened Frontier
  import opened FrontierTheorems
  import opened FrontierPause
  import opened FrontierComplete
  import opened FrontierSucceeds

  const ONE_TICKET := Config(1, 0, false, [Head(1, "r", true)], map[], [1], GREEN_AT_ZERO)
  const IN_REVIEW := World(map[1 := Card({InReview}, Open)], 0, 1, {}, [], [])

  lemma BoardIsFine()
    ensures WorldOk(ONE_TICKET, IN_REVIEW)
  {
    var card := Card({InReview}, Open);
    assert card.labels * STATES == {InReview};
    assert Legit(card);
  }

  /** The ticket's flow is the only one, at `at`; nothing else goes on. */
  predicate Alone(s: State, at: Point) {
    && s.status == Looping && s.running.Keys == {1} && s.running[1].at == at && s.running[1].hasPr
    && s.running[1].resumed && !s.running[1].gated
    && s.dispatched == {1} && s.world.cards.Keys == {1} && s.waiting == []
    && s.Settled() && !s.limited && !s.Draining()
  }

  // The first pass dispatches it.

  lemma ReadyAtFirst()
    ensures Ready(ONE_TICKET, Begin(ONE_TICKET, IN_REVIEW)) == [Pick(1, true)]
  {
    var s := Begin(ONE_TICKET, IN_REVIEW);
    var issues := Issues(ONE_TICKET, IN_REVIEW);
    assert issues == [IssueOf(ONE_TICKET.heads[0], IN_REVIEW)] && issues[1..] == [];
    assert !IsReady(issues[0], issues, ONE_TICKET.blockers);
    assert ReadyIn(issues, issues, ONE_TICKET.blockers) == [];
    assert Dispatchable(issues, ONE_TICKET.blockers) == [];
    assert PicksOf([1], true, {}) == [Pick(1, true)] + PicksOf([], true, {});
  }

  lemma Dispatches(env: Env)
    requires env.addTreeOk
    ensures
      var s := Begin(ONE_TICKET, IN_REVIEW);
      Alone(Dispatch(ONE_TICKET, s, Pick(1, true), env), AtVerify)
  {
  }

  lemma FirstPass(input: Input)
    requires input.stop == NoStop && input.startEnv(1).addTreeOk
    requires WorldOk(ONE_TICKET, IN_REVIEW)
    ensures
      var s := Begin(ONE_TICKET, IN_REVIEW);
      && s.status == Looping && Inv(ONE_TICKET, s, None)
      && Alone(Prepare(ONE_TICKET, s, input), AtVerify)
  {
    hide Inv, Ready, Dispatch, Alone, WorldOk, BeforeDispatch, FillSlots, CanDispatch, Prepare, Begin;
    var cfg, s := ONE_TICKET, Begin(ONE_TICKET, IN_REVIEW);
    BeginOk(cfg, IN_REVIEW);
    StartsIdle();
    ReadyAtFirst();
    Dispatches(input.startEnv(1));
    QuietStart(cfg, s, input);
    FillsWithOne(cfg, s, Pick(1, true), input.startEnv);
    PreparedBy(cfg, s, input);
  }

  lemma StartsIdle()
    ensures
      var s := Begin(ONE_TICKET, IN_REVIEW);
      && s.status == Looping && s.waiting == [] && s.Settled() && !s.limited && !s.Draining() && !s.immediate
      && CanDispatch(ONE_TICKET, s) && 1 in s.world.cards
  {
  }

  lemma FillsWithOne(cfg: Config, s: State, p: Pick, envOf: nat -> Env)
    requires Inv(cfg, s, None) && s.status == Looping && CanDispatch(cfg, s) && Ready(cfg, s) == [p]
    ensures p.number in s.world.cards && FillSlots(cfg, s, envOf) == Dispatch(cfg, s, p, envOf(p.number))
  {
    hide Inv, Ready, Dispatch, PicksOk;
    ReadyPicksOk(cfg, s);
    assert Take([p], cfg.parallel - |s.running|) == [p] && [p][1..] == [];
    DispatchKeeps(cfg, s, [p], envOf(p.number));
    assert DispatchAll(cfg, Dispatch(cfg, s, p, envOf(p.number)), [], envOf) == Dispatch(cfg, s, p, envOf(p.number));
  }

  // Its jobs end well.

  /** The pass ends job `r` of ticket 1, and nothing else happens in it. */
  predicate Ends(input: Input, r: Reply) {
    && input.stop == NoStop && !input.late && input.event.Some? && input.event.value.number == 1
    && input.event.value.reply == r && AllGoes(input.event.value.env)
  }

  lemma HasJob(cfg: Config, s: State)
    requires Inv(cfg, s, None) && 1 in s.running && s.waiting == []
    ensures 1 in s.outstanding
  {
    assert s.outstanding[1] == Expected(s, None, 1);
  }

  lemma DeliversJob(cfg: Config, s: State, input: Input, r: Reply)
    requires Inv(cfg, s, None) && 1 in s.running && Alone(s, s.running[1].at) && Ends(input, r)
    requires Fits(s.running[1].at, r) && !IsLimited(r)
    ensures
      var e := input.event.value;
      && 1 in s.world.cards && Deliver(cfg, s, input) == AdvanceFlow(cfg, Taken(s, e), 1, r, e.env)
      && Alone(Taken(s, e), s.running[1].at)
  {
    HasJob(cfg, s);
    hide Inv, AdvanceFlow, IsLimited, Fits;
  }

  lemma PassDelivers(cfg: Config, s: State, input: Input)
    requires Inv(cfg, s, None) && s.status == Looping
    requires Prepare(cfg, s, input).status == Looping && 1 in Prepare(cfg, s, input).running
    ensures Pass(cfg, s, input) == Deliver(cfg, Prepare(cfg, s, input), input)
  {
    hide Inv, Prepare, Deliver;
    assert |Prepare(cfg, s, input).running.Keys| > 0;
  }

  lemma AloneRuns(s: State, at: Point)
    requires Alone(s, at)
    ensures s.status == Looping && 1 in s.running && s.running[1].at == at
  {
  }

  /** A pass in which the verify ends green. */
  lemma VerifyPass(cfg: Config, p: State, input: Input)
    requires Inv(cfg, p, None) && Alone(p, AtVerify) && Ends(input, VerifyEnded(true))
    ensures
      var r := Deliver(cfg, p, input);
      Alone(r, AtGate) && r.status == Looping && Inv(cfg, r, None)
  {
    hide Inv, InvEnd, Deliver, AdvanceFlow, Alone;
    AloneRuns(p, AtVerify);
    DeliversJob(cfg, p, input, VerifyEnded(true));
    AloneRuns(Taken(p, input.event.value), AtVerify);
    Verifies(cfg, Taken(p, input.event.value), input.event.value.env);
    AloneRuns(Deliver(cfg, p, input), AtGate);
    DeliverKeeps(cfg, p, input);
  }

  /** The ticket waits for its merge, and may be released. */
  predicate AtMerge(s: State) {
    && s.status == Looping && CanRelease(s) && s.waiting == [1]
    && s.dispatched == {1} && s.world.cards.Keys == {1} && !s.draining
  }

  /** A pass in which the gate passes. */
  lemma GatePass(cfg: Config, p: State, input: Input, gate: Reply)
    requires Inv(cfg, p, None) && Alone(p, AtGate) && Ends(input, gate) && SaysPass(gate)
    ensures
      var r := Deliver(cfg, p, input);
      AtMerge(r) && r.status == Looping && Inv(cfg, r, None)
  {
    hide Inv, InvEnd, Deliver, AdvanceFlow, Alone, SaysPass, IsLimited, Fits, CanRelease;
    AloneRuns(p, AtGate);
    FitsGate(p.running[1].at, gate);
    GoodIsUnlimited(gate);
    DeliversJob(cfg, p, input, gate);
    AloneRuns(Taken(p, input.event.value), AtGate);
    Gates(cfg, Taken(p, input.event.value), gate, input.event.value.env);
    DeliverKeeps(cfg, p, input);
  }

  lemma FitsGate(at: Point, gate: Reply)
    requires at == AtGate && SaysPass(gate)
    ensures Fits(at, gate) && GoodReply(gate)
  {
  }

  lemma Verifies(cfg: Config, s: State, env: Env)
    requires 1 in s.running && Alone(s, AtVerify) && AllGoes(env)
    ensures
      var r := AdvanceFlow(cfg, s, 1, VerifyEnded(true), env);
      Alone(r, AtGate)
  {
    var f := s.running[1];
    var step := Resume(f, VerifyEnded(true), cfg.maxRounds, env);
    assert step == Step(f.(at := AtGate, headSha := f.head), [Verified(f.head), Pushed(f.head)]);
    AbsorbCards(s.world, 1, step.effects);
    hide Absorb, Resume;
  }

  lemma Gates(cfg: Config, s: State, gate: Reply, env: Env)
    requires 1 in s.running && Alone(s, AtGate) && SaysPass(gate)
    ensures
      AtMerge(AdvanceFlow(cfg, s, 1, gate, env))
  {
    var f := s.running[1];
    GateGreen(f, cfg.maxRounds, gate, env);
    hide Resume, SaysPass;
    var step := Resume(f, gate, cfg.maxRounds, env);
    AbsorbCards(s.world, 1, step.effects);
    hide Absorb;
  }

  lemma NoRoom(cfg: Config, s: State, input: Input)
    requires Inv(cfg, s, None) && s.status == Looping && input.stop == NoStop && cfg.parallel == 1
    requires 1 in s.running && Alone(s, s.running[1].at)
    ensures Prepare(cfg, s, input) == s
  {
    hide Inv;
    QuietStart(cfg, s, input);
    PreparedBy(cfg, s, input);
    assert |s.running| == |s.running.Keys| == 1;
  }

  // The merge goes through unseen.

  lemma NothingElseReady(cfg: Config, s: State)
    requires Inv(cfg, s, None) && s.world.cards.Keys == {1} && s.dispatched == {1}
    ensures Ready(cfg, s) == []
  {
    ReadyOk(cfg, s);
    hide Ready, CardsOk;
    if Ready(cfg, s) != [] {
      NotDispatched(cfg, s, Ready(cfg, s)[0]);
    }
  }

  lemma NotDispatched(cfg: Config, s: State, p: Pick)
    requires PickOk(cfg, s, p)
    ensures p.number in s.world.cards && p.number !in s.dispatched
  {
  }

  lemma ReleasesOnly(cfg: Config, s: State, input: Input)
    requires Inv(cfg, s, None) && s.status == Looping && AtMerge(s) && input.stop == NoStop
    requires
      var r := ReleasedOne(cfg, s, input.releaseEnv(1));
      r.Settled() && 1 !in r.running
    ensures Pass(cfg, s, input) == ReleasedOne(cfg, s, input.releaseEnv(1)).(status := Returned)
  {
    hide Inv, InvEnd, ReleasedOne, Release, Pass, BeforeDispatch, FillSlots, Prepare;
    var r := ReleasedOne(cfg, s, input.releaseEnv(1));
    ReleasedFacts(cfg, s, input.releaseEnv(1));
    RunsWithin(cfg, r);
    assert r.running == map[];
    OneRelease(cfg, s, input);
    PreparedBy(cfg, s, input);
    NothingElseReady(cfg, r);
    NothingFills(cfg, r, input.startEnv);
    IdleReturns(cfg, s, input, r);
  }

  lemma IdleReturns(cfg: Config, s: State, input: Input, r: State)
    requires Inv(cfg, s, None) && s.status == Looping && Prepare(cfg, s, input) == r && r.status == Looping
    requires r.running == map[] && r.checker.None? && !r.limited
    ensures Pass(cfg, s, input) == r.(status := Returned)
  {
    hide Inv, Prepare, Deliver;
    assert |r.running| == 0;
  }

  lemma NothingFills(cfg: Config, s: State, envOf: nat -> Env)
    requires Inv(cfg, s, None) && s.status == Looping && Ready(cfg, s) == []
    ensures FillSlots(cfg, s, envOf) == s
  {
    hide Inv, Ready, PicksOk;
    ReadyPicksOk(cfg, s);
  }

  /** The released flow was the only one that waited, and nothing is due. */
  lemma OneRelease(cfg: Config, s: State, input: Input)
    requires Inv(cfg, s, None) && s.status == Looping && AtMerge(s) && input.stop == NoStop
    requires ReleasedOne(cfg, s, input.releaseEnv(1)).Settled()
    ensures BeforeDispatch(cfg, s, input) == ReleasedOne(cfg, s, input.releaseEnv(1))
  {
    hide Inv, AdvanceFlow, YieldFrame, ReleasedOne;
    var r := ReleasedOne(cfg, s, input.releaseEnv(1));
    ReleasedFacts(cfg, s, input.releaseEnv(1));
    assert Release(cfg, r, input.releaseEnv) == r;
    ReleaseUnfolds(cfg, s, input.releaseEnv);
    hide Release;
    assert Poll(s, input.stop) == s;
  }

  lemma ReleaseUnfolds(cfg: Config, s: State, envOf: nat -> Env)
    requires Inv(cfg, s, None) && s.status == Looping && CanRelease(s)
    ensures
      var r := ReleasedOne(cfg, s, envOf(s.waiting[0]));
      Inv(cfg, r, None) && r.status == Looping && Release(cfg, s, envOf) == Release(cfg, r, envOf)
  {
    ReleaseOneKeeps(cfg, s, envOf(s.waiting[0]));
    hide Inv, AdvanceFlow, YieldFrame;
  }

  lemma ReleasedFacts(cfg: Config, s: State, env: Env)
    requires Inv(cfg, s, None) && s.status == Looping && AtMerge(s)
    ensures
      var r := ReleasedOne(cfg, s, env);
      && Inv(cfg, r, None) && r.status == Looping && r.waiting == [] && !r.limited && !r.Draining()
      && r.dispatched == {1} && r.world.cards.Keys == {1}
  {
    ReleaseOneKeeps(cfg, s, env);
    hide Inv, AdvanceFlow;
  }

  lemma RunsWithin(cfg: Config, s: State)
    requires Inv(cfg, s, None)
    ensures s.running.Keys <= s.world.cards.Keys
  {
    hide WaitingOk, JobsOk, GreenOk;
  }

  lemma EndedFlow(cfg: Config, s: State, env: Env)
    requires Inv(cfg, s, None) && s.status == Looping && CanRelease(s)
    requires env.merge == MergeReplyLost && !env.rereadOk
    ensures s.waiting[0] !in ReleasedOne(cfg, s, env).running
  {
    ReleaseOneKeeps(cfg, s, env);
    PopKeeps(cfg, s);
    var p, t := Popped(s), s.waiting[0];
    UnseenEffects(p.running[t], cfg.maxRounds, env);
    GreenFits(p.running[t]);
    hide Inv, Resume, Absorb;
    AdvanceIsYield(cfg, p, t, Go, env);
  }

  /** The corner is reached: the run returns, settled, on a commit that nobody verified; its ticket is merged
      and labelled as an infrastructure failure. */
  lemma UnseenMergeExists(a: Input, b: Input, c: Input, gate: Reply)
    requires a.startEnv(1).addTreeOk && Ends(a, VerifyEnded(true)) && Ends(b, gate) && SaysPass(gate)
    requires c.stop == NoStop && c.releaseEnv(1).merge == MergeReplyLost && !c.releaseEnv(1).rereadOk
    ensures WorldOk(ONE_TICKET, IN_REVIEW)
    ensures
      var r := RunOf(ONE_TICKET, IN_REVIEW, [a, b, c]);
      && r.status == Returned && r.Settled() && !OnGreen(ONE_TICKET, r) && r.world.tip !in r.world.verified
      && 1 in r.world.cards && r.world.cards[1].pr == Merged && In(r.world.cards[1], FailedSystemic)
  {
    BoardIsFine();
    var cfg, s := ONE_TICKET, Begin(ONE_TICKET, IN_REVIEW);
    hide Inv, InvEnd, Pass, WorldOk, Begin, SaysPass, Alone, AtMerge, Ends, OnGreen, In;
    PassA(a);
    var s1 := Pass(cfg, s, a);
    PassB(cfg, s1, b, gate);
    var s2 := Pass(cfg, s1, b);
    PassC(cfg, s2, c);
    var r := Pass(cfg, s2, c);
    assert [a, b, c][1..] == [b, c] && [b, c][1..] == [c];
    RunsThree(cfg, s, a, b, c);
  }

  lemma RunsThree(cfg: Config, s: State, a: Input, b: Input, c: Input)
    requires Inv(cfg, s, None) && s.status == Looping
    requires Pass(cfg, s, a).status == Looping && Pass(cfg, Pass(cfg, s, a), b).status == Looping
    ensures
      var r := Pass(cfg, Pass(cfg, Pass(cfg, s, a), b), c);
      r.status == Returned ==> Run(cfg, s, [a, b, c]) == r
  {
    hide Inv, InvEnd, Pass;
    assert [a, b, c][1..] == [b, c] && [b, c][1..] == [c];
    assert Run(cfg, s, [a, b, c]) == Run(cfg, Pass(cfg, s, a), [b, c]);
  }

  lemma PassA(a: Input)
    requires WorldOk(ONE_TICKET, IN_REVIEW) && a.startEnv(1).addTreeOk && Ends(a, VerifyEnded(true))
    ensures
      var s := Begin(ONE_TICKET, IN_REVIEW);
      && s.status == Looping && Inv(ONE_TICKET, s, None)
      && var r := Pass(ONE_TICKET, s, a);
         r.status == Looping && Inv(ONE_TICKET, r, None) && Alone(r, AtGate)
  {
    hide Inv, InvEnd, Begin, Prepare, WorldOk, Deliver, Pass, Alone;
    var cfg, s := ONE_TICKET, Begin(ONE_TICKET, IN_REVIEW);
    FirstPass(a);
    AloneRuns(Prepare(cfg, s, a), AtVerify);
    PassDelivers(cfg, s, a);
    VerifyPass(cfg, Prepare(cfg, s, a), a);
  }

  lemma PassB(cfg: Config, s: State, b: Input, gate: Reply)
    requires Inv(cfg, s, None) && Alone(s, AtGate) && s.status == Looping && cfg.parallel == 1
    requires Ends(b, gate) && SaysPass(gate)
    ensures
      var r := Pass(cfg, s, b);
      r.status == Looping && Inv(cfg, r, None) && AtMerge(r)
  {
    hide Inv, InvEnd, Prepare, Deliver, Pass, Alone, SaysPass;
    AloneRuns(s, AtGate);
    NoRoom(cfg, s, b);
    PassDelivers(cfg, s, b);
    GatePass(cfg, s, b, gate);
  }

  lemma PassC(cfg: Config, s: State, c: Input)
    requires Inv(cfg, s, None) && s.status == Looping && AtMerge(s)
    requires c.stop == NoStop && c.releaseEnv(1).merge == MergeReplyLost && !c.releaseEnv(1).rereadOk
    ensures
      var r := Pass(cfg, s, c);
      && r.status == Returned && r.Settled() && !OnGreen(cfg, r) && r.world.tip !in r.world.verified
      && 1 in r.world.cards && r.world.cards[1].pr == Merged && In(r.world.cards[1], FailedSystemic)
  {
    hide Inv, InvEnd, ReleasedOne, In, CanRelease, Pass;
    UnseenMergeGoesUnchecked(cfg, s, c.releaseEnv(1));
    EndedFlow(cfg, s, c.releaseEnv(1));
    ReleasesOnly(cfg, s, c);
  }
}

/** The conductor writes state labels only: every other label of a ticket is a human's, and stays. */
module FrontierLabels {
  import opened Wrappers
  import opened Board
  import opened TicketFlow
  import opened IntegrationCheck
  import opened Scheduler
  import opened SchedulerInvariant
  import opened SchedulerActions
  import opened Frontier
  import opened FrontierTheorems
  import opened FrontierProgress
  import opened FrontierPause
  import opened FrontierComplete
  import opened FrontierEngine
  import Reconcile
  import Markers

  predicate WritesStates(e: Effect) {
    e.Labelled? ==> e.add <= STATES && e.remove <= STATES
  }

  predicate OnlyStates(es: seq<Effect>) {
    forall e | e in es :: WritesStates(e)
  }

  predicate SameOthers(a: Card, b: Card) {
    b.labels - STATES == a.labels - STATES
  }

  predicate Untouched(a: map<nat, Card>, b: map<nat, Card>) {
    b.Keys == a.Keys && forall t | t in a :: SameOthers(a[t], b[t])
  }

  lemma ApplySame(card: Card, e: Effect)
    requires WritesStates(e)
    ensures SameOthers(card, Apply(card, e))
  {
  }

  lemma {:induction false} ApplyAllSame(card: Card, es: seq<Effect>)
    requires OnlyStates(es)
    ensures SameOthers(card, ApplyAll(card, es))
    decreases |es|
  {
    if es == [] {
    } else {
      ApplySame(card, es[0]);
      hide Apply;
      ApplyAllSame(Apply(card, es[0]), es[1..]);
    }
  }

  predicate StepStates(step: Step) {
    step.Step? ==> OnlyStates(step.effects)
  }

  lemma HaltStates(f: Flow, status: Status, push: bool, es: seq<Effect>)
    requires !status.StatusIntegrated? && OnlyStates(es)
    ensures StepStates(Halt(f, status, push, es))
  {
  }

  lemma JobStates(f: Flow, maxRounds: nat, env: Env)
    ensures StepStates(AfterVerify(f, env)) && StepStates(NeedsFix(f, maxRounds, env, []))
  {
  }

  lemma EndStates(f: Flow, maxRounds: nat, env: Env)
    ensures StepStates(AfterGreen(f, maxRounds, env)) && StepStates(Start(f, env))
  {
  }

  lemma SessionStates(f: Flow, g: Flow, r: Reply, env: Env, next: Step)
    requires r.SessionEnded? && StepStates(next)
    ensures StepStates(AfterSession(g, r.result, env, next))
  {
    hide Markers.OutcomeOf;
  }

  lemma ResumeStates(f: Flow, r: Reply, maxRounds: nat, env: Env)
    requires Fits(f.at, r)
    ensures StepStates(Resume(f, r, maxRounds, env))
  {
    hide Start, AfterVerify, NeedsFix, AfterGreen, AfterSession, Halt, GateVerdict;
    HaltStates(f, StatusSystemic, env.stopPushOk, []);
    HaltStates(f, StatusFailed, env.stopPushOk, []);
    JobStates(f, maxRounds, env);
    EndStates(f, maxRounds, env);
    JobStates(f.(gated := false), maxRounds, env);
    if r.SessionEnded? {
      var g := f.(head := r.head);
      HaltStates(g, StatusSystemic, env.stopPushOk, [Wrote(r.head)]);
      SessionStates(f, g, r, env, Step(g.(at := AtVerify), [Wrote(r.head)]));
      SessionStates(f, g, r, env,
        if !env.headOk then Halt(g, StatusSystemic, env.stopPushOk, [Wrote(r.head)])
        else Step(g.(at := AtVerify, mergeCommit := Some(r.head), gated := false), [Wrote(r.head)]));
    }
  }

  lemma AdvanceUntouched(cfg: Config, s: State, t: nat, r: Reply, env: Env)
    requires t in s.running && t in s.world.cards && Fits(s.running[t].at, r)
    ensures Untouched(s.world.cards, AdvanceFlow(cfg, s, t, r, env).world.cards)
  {
    hide Resume, Yielded, OnlyStates, ApplyAll, SameOthers, Fits;
    var step := Resume(s.running[t], r, cfg.maxRounds, env);
    ResumeStates(s.running[t], r, cfg.maxRounds, env);
    AdvanceIsYield(cfg, s, t, r, env);
    YieldTouches(s, t, step);
    Same(s.world.cards);
    if step.Step? {
      ApplyAllSame(s.world.cards[t], step.effects);
      AbsorbCards(s.world, t, step.effects);
    }
  }

  lemma Same(a: map<nat, Card>)
    ensures Untouched(a, a)
  {
  }

  lemma Then(a: map<nat, Card>, b: map<nat, Card>, c: map<nat, Card>)
    requires Untouched(a, b) && Untouched(b, c)
    ensures Untouched(a, c)
  {
  }

  lemma ParkSame(card: Card, readable: bool)
    ensures SameOthers(card, ParkCard(card, readable))
  {
  }

  lemma ParkedUntouched(s: State, s': State, readable: nat -> bool)
    requires OnlyParked(s, s', readable)
    ensures Untouched(s.world.cards, s'.world.cards)
  {
    forall t | t in s.world.cards
      ensures SameOthers(s.world.cards[t], s'.world.cards[t])
    {
      ParkSame(s.world.cards[t], readable(t));
    }
  }

  lemma {:induction false} ReleaseUntouched(cfg: Config, s: State, envOf: nat -> Env)
    requires Inv(cfg, s, None) && s.status == Looping
    ensures Untouched(s.world.cards, Release(cfg, s, envOf).world.cards)
    decreases |s.waiting|
  {
    if !CanRelease(s) {
      Same(s.world.cards);
    } else {
      var t := s.waiting[0];
      ReleaseOneKeeps(cfg, s, envOf(t));
      hide Inv, AdvanceFlow, YieldFrame, Untouched;
      AdvanceUntouched(cfg, Popped(s), t, Go, envOf(t));
      var s' := AdvanceFlow(cfg, Popped(s), t, Go, envOf(t));
      ReleaseUntouched(cfg, s', envOf);
      Then(s.world.cards, s'.world.cards, Release(cfg, s', envOf).world.cards);
    }
  }

  lemma GiveBackUntouched(cfg: Config, s: State, readable: nat -> bool)
    requires Inv(cfg, s, None)
    ensures Untouched(s.world.cards, GiveBack(cfg, s, readable).world.cards)
  {
    WholeList(cfg, s);
    Same(s.world.cards);
    hide Inv, ParkEach, OnlyParked, Untouched;
    if s.guard.broken || s.limited {
      ParkEachOnly(cfg, s, s.waiting, readable);
      ParkedUntouched(s, ParkEach(cfg, s, s.waiting, readable), readable);
    }
  }

  lemma {:induction false} DispatchUntouched(cfg: Config, s: State, picks: seq<Pick>, envOf: nat -> Env)
    requires Inv(cfg, s, None) && s.status == Looping && PicksOk(cfg, s, picks)
    ensures Untouched(s.world.cards, DispatchAll(cfg, s, picks, envOf).world.cards)
    decreases |picks|
  {
    hide Inv, Dispatch, PicksOk, PickOk, Untouched;
    if picks == [] {
      Same(s.world.cards);
    } else {
      var env := envOf(picks[0].number);
      FirstPick(cfg, s, picks);
      DispatchKeeps(cfg, s, picks, env);
      OneDispatch(cfg, s, picks[0], env);
      var s' := Dispatch(cfg, s, picks[0], env);
      DispatchUntouched(cfg, s', picks[1..], envOf);
      Then(s.world.cards, s'.world.cards, DispatchAll(cfg, s', picks[1..], envOf).world.cards);
    }
  }

  lemma OneDispatch(cfg: Config, s: State, p: Pick, env: Env)
    requires PickOk(cfg, s, p)
    ensures p.number in s.world.cards && Untouched(s.world.cards, Dispatch(cfg, s, p, env).world.cards)
  {
    PickHasCard(cfg, s, p);
    hide PickOk, Dispatch, AdvanceFlow, Untouched;
    ClaimFacts(s, p);
    DispatchIsAdvance(cfg, s, p, env);
    AdvanceUntouched(cfg, Claimed(s, p), p.number, Go, env);
  }

  lemma FillUntouched(cfg: Config, s: State, envOf: nat -> Env)
    requires Inv(cfg, s, None) && s.status == Looping
    ensures Untouched(s.world.cards, FillSlots(cfg, s, envOf).world.cards)
  {
    Same(s.world.cards);
    hide Inv, Ready, PicksOk, DispatchAll, Take, Untouched;
    if CanDispatch(cfg, s) {
      ReadyPicksOk(cfg, s);
      DispatchUntouched(cfg, s, Take(Ready(cfg, s), cfg.parallel - |s.running|), envOf);
    }
  }

  lemma PrepareUntouched(cfg: Config, s: State, input: Input)
    requires Inv(cfg, s, None) && s.status == Looping
    ensures Untouched(s.world.cards, Prepare(cfg, s, input).world.cards)
  {
    Same(s.world.cards);
    hide Inv, Release, GiveBack, CheckIfDue, FillSlots, Untouched;
    PollKeeps(cfg, s, input.stop);
    var polled := Poll(s, input.stop);
    if !polled.immediate {
      ReleaseUntouched(cfg, polled, input.releaseEnv);
      var rel := Release(cfg, polled, input.releaseEnv);
      GiveBackUntouched(cfg, rel, input.parkReadable);
      var given := GiveBack(cfg, rel, input.parkReadable);
      CheckStarts(cfg, given, input);
      var x := CheckIfDue(cfg, given, input);
      FillUntouched(cfg, x, input.startEnv);
      Then(s.world.cards, rel.world.cards, given.world.cards);
      Then(s.world.cards, given.world.cards, Prepare(cfg, s, input).world.cards);
    }
  }

  lemma ActedUntouched(cfg: Config, s: State, e: Event, readable: nat -> bool)
    requires e.number == CHECKER ==> s.checker.Some? && CheckFits(s.checker.value.at, e.reply)
    requires e.number != CHECKER ==>
      e.number in s.running && e.number in s.world.cards && Fits(s.running[e.number].at, e.reply)
    ensures Untouched(s.world.cards, Acted(cfg, s, e, readable).world.cards)
  {
    Same(s.world.cards);
    hide AdvanceFlow, AdvanceCheck, Fits, CheckFits, ParkFlow, Untouched, OnlyParked;
    if s.limited && e.number != CHECKER {
      ParkFlowOnly(s, e.number, readable);
      ParkedUntouched(s, ParkFlow(s, e.number, readable(e.number)), readable);
    } else if !s.limited && e.number == CHECKER {
      CheckLeavesCards(cfg, s, e.reply, e.checkEnv);
    } else if !s.limited {
      AdvanceUntouched(cfg, s, e.number, e.reply, e.env);
    }
  }

  lemma DeliverUntouched(cfg: Config, s: State, input: Input)
    ensures Untouched(s.world.cards, Deliver(cfg, s, input).world.cards)
  {
    Same(s.world.cards);
    hide Deliver, Deliverable, Acted, Fits, CheckFits, IsLimited, Untouched;
    if input.event.Some? && Deliverable(s, input.event.value) && !input.late {
      var e := input.event.value;
      CanAct(cfg, s, e);
      DeliverActs(cfg, s, input);
      ActedUntouched(cfg, Taken(s, e), e, input.parkReadable);
    } else {
      DeliverLeaves(cfg, s, input);
    }
  }

  lemma DeliverLeaves(cfg: Config, s: State, input: Input)
    requires input.event.None? || !Deliverable(s, input.event.value) || input.late
    ensures Deliver(cfg, s, input).world == s.world
  {
    hide Deliverable, AdvanceFlow, AdvanceCheck, ParkFlow, ParkCheck, IsLimited;
  }

  lemma PassUntouched(cfg: Config, s: State, input: Input)
    requires Inv(cfg, s, None) && s.status == Looping
    ensures Untouched(s.world.cards, Pass(cfg, s, input).world.cards)
  {
    hide Inv, Prepare, Deliver, Untouched;
    PrepareUntouched(cfg, s, input);
    var r := Prepare(cfg, s, input);
    if r.status == Looping && !(|r.running| == 0 && r.checker.None?) {
      DeliverUntouched(cfg, r, input);
      Then(s.world.cards, r.world.cards, Deliver(cfg, r, input).world.cards);
    }
  }

  lemma {:induction false} RunUntouched(cfg: Config, s: State, inputs: seq<Input>)
    requires Inv(cfg, s, None) && s.status == Looping
    ensures Untouched(s.world.cards, Run(cfg, s, inputs).world.cards)
    decreases |inputs|
  {
    hide Inv, InvEnd, Pass, Untouched;
    if inputs == [] {
      Same(s.world.cards);
    } else {
      PassUntouched(cfg, s, inputs[0]);
      var s' := Pass(cfg, s, inputs[0]);
      if s'.status == Looping {
        RunUntouched(cfg, s', inputs[1..]);
        Then(s.world.cards, s'.world.cards, Run(cfg, s', inputs[1..]).world.cards);
      }
    }
  }

  /** Whatever happens in a run, in the requeues after a stop, and in the reconciliation after that, no ticket
      appears or disappears and every label that is not a state label stays as it was. */
  lemma OtherLabelsStay(cfg: Config, w: World, inputs: seq<Input>, readable: nat -> bool, row: Reconcile.Row,
                        read: bool)
    requires WorldOk(cfg, w) && row.number in w.cards
    ensures
      var left := Abandon(RunOf(cfg, w, inputs), readable).world.cards;
      && left.Keys == w.cards.Keys
      && (row.card == left[row.number] ==> SameOthers(w.cards[row.number], Reconcile.Reconciled(row, read).card))
  {
    hide RunOf, InvEnd, Abandon, Untouched, SameOthers, Reconcile.Reconciled;
    var s := RunOf(cfg, w, inputs);
    WholeRunUntouched(cfg, w, inputs);
    AbandonUntouched(s, readable);
    var left := Abandon(s, readable).world.cards;
    Then(w.cards, s.world.cards, left);
    ReconciledSame(row, read);
    UntouchedOne(w.cards, left, row.number);
    SameTwice(w.cards[row.number], left[row.number], Reconcile.Reconciled(row, read).card);
  }

  lemma WholeRunUntouched(cfg: Config, w: World, inputs: seq<Input>)
    requires WorldOk(cfg, w)
    ensures Untouched(w.cards, RunOf(cfg, w, inputs).world.cards)
  {
    BeginOk(cfg, w);
    BeginsLooping(cfg, w);
    hide Inv, InvEnd, Run, Untouched;
    RunUntouched(cfg, Begin(cfg, w), inputs);
  }

  lemma AbandonUntouched(s: State, readable: nat -> bool)
    ensures Untouched(s.world.cards, Abandon(s, readable).world.cards)
  {
    hide SameOthers;
    var left := Abandon(s, readable).world.cards;
    forall t | t in s.world.cards
      ensures SameOthers(s.world.cards[t], left[t])
    {
      ParkSame(s.world.cards[t], readable(t));
      SameCard(s.world.cards[t]);
    }
  }

  lemma SameCard(card: Card)
    ensures SameOthers(card, card)
  {
  }

  lemma UntouchedOne(a: map<nat, Card>, b: map<nat, Card>, t: nat)
    requires Untouched(a, b) && t in a
    ensures b.Keys == a.Keys && SameOthers(a[t], b[t])
  {
  }

  lemma SameTwice(a: Card, b: Card, c: Card)
    ensures SameOthers(a, b) && SameOthers(b, c) ==> SameOthers(a, c)
  {
  }

  lemma ReconciledSame(row: Reconcile.Row, read: bool)
    ensures SameOthers(row.card, Reconcile.Reconciled(row, read).card)
  {
  }
}

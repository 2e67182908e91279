/** What a stop request stops, when anything starts at all, and in which order merges are attempted. */
module FrontierStop {
  import opened Wrappers
  import opened Board
  import opened TicketFlow
  import opened IntegrationCheck
  import opened Graph
  import opened Scheduler
  import opened SchedulerInvariant
  import opened Frontier
  import opened FrontierProgress
  import opened FrontierPause

  // Which tickets were dispatched, stage by stage.

  lemma AdvanceStarts(cfg: Config, s: State, t: nat, r: Reply, env: Env)
    requires t in s.running && t in s.world.cards && Fits(s.running[t].at, r)
    ensures AdvanceFlow(cfg, s, t, r, env).dispatches == s.dispatches
  {
    hide Resume, Absorb;
  }

  lemma {:induction false} ReleaseStarts(cfg: Config, s: State, envOf: nat -> Env)
    requires Inv(cfg, s, None) && s.status == Looping
    ensures Release(cfg, s, envOf).dispatches == s.dispatches
    decreases |s.waiting|
  {
    if !CanRelease(s) {
    } else {
      var t := s.waiting[0];
      ReleaseOneKeeps(cfg, s, envOf(t));
      PopKeeps(cfg, s);
      AdvanceStarts(cfg, Popped(s), t, Go, envOf(t));
      hide Inv, AdvanceFlow;
      ReleaseStarts(cfg, AdvanceFlow(cfg, Popped(s), t, Go, envOf(t)), envOf);
    }
  }

  lemma GiveBackStarts(cfg: Config, s: State, readable: nat -> bool)
    requires Inv(cfg, s, None)
    ensures GiveBack(cfg, s, readable).dispatches == s.dispatches
  {
    WholeList(cfg, s);
    hide Inv, ParkEach;
    if s.guard.broken || s.limited {
      ParkEachOnly(cfg, s, s.waiting, readable);
    }
  }

  lemma CheckStartsNone(cfg: Config, s: State, input: Input)
    requires Inv(cfg, s, None) && s.status == Looping
    ensures CheckIfDue(cfg, s, input).dispatches == s.dispatches
  {
    hide Inv, ResumeCheck, AbsorbCheck;
  }

  lemma DeliverStarts(cfg: Config, s: State, input: Input)
    requires Inv(cfg, s, None) && s.status == Looping
    ensures Deliver(cfg, s, input).dispatches == s.dispatches && (s.Draining() ==> Deliver(cfg, s, input).Draining())
  {
    hide Inv, Resume, ResumeCheck, Absorb, AbsorbCheck, ParkCard, Without, IsLimited;
  }

  lemma BeforeStarts(cfg: Config, s: State, input: Input)
    requires Inv(cfg, s, None) && s.status == Looping && !Poll(s, input.stop).immediate
    ensures BeforeDispatch(cfg, s, input).dispatches == s.dispatches
    ensures Poll(s, input.stop).draining ==> BeforeDispatch(cfg, s, input).draining
  {
    hide Inv, Release, GiveBack, CheckIfDue;
    PollKeeps(cfg, s, input.stop);
    var polled := Poll(s, input.stop);
    ReleaseStarts(cfg, polled, input.releaseEnv);
    ReleaseMode(cfg, polled, input.releaseEnv);
    var rel := Release(cfg, polled, input.releaseEnv);
    GiveBackStarts(cfg, rel, input.parkReadable);
    GivenBack(cfg, rel, input.parkReadable);
    var given := GiveBack(cfg, rel, input.parkReadable);
    CheckStartsNone(cfg, given, input);
    CheckDrains(cfg, given, input);
  }

  lemma CheckDrains(cfg: Config, s: State, input: Input)
    requires Inv(cfg, s, None) && s.status == Looping
    ensures s.draining ==> CheckIfDue(cfg, s, input).draining
  {
    hide Inv, ResumeCheck, AbsorbCheck;
  }

  /** A pass dispatches only on a settled branch, with no stop requested, no limit in force and a slot
      free; and then exactly the first of what is ready, as many as there are slots. */
  lemma DispatchNeedsGreen(cfg: Config, s: State, input: Input)
    requires Inv(cfg, s, None) && s.status == Looping
    requires Pass(cfg, s, input).dispatches != s.dispatches
    ensures !Poll(s, input.stop).immediate
    ensures
      var x := BeforeDispatch(cfg, s, input);
      && x.Settled() && !x.limited && !x.Draining() && |x.running| < cfg.parallel
      && FillSlots(cfg, x, input.startEnv).dispatched ==
           x.dispatched + NumbersIn(Take(Ready(cfg, x), cfg.parallel - |x.running|))
  {
    hide Inv, FillSlots, Deliver, OnlyDispatched, Ready, Take, NumbersIn, BeforeDispatch, Prepare;
    if Poll(s, input.stop).immediate {
      StoppedAtTheHead(cfg, s, input);
    }
    PreparedBy(cfg, s, input);
    var x := BeforeDispatch(cfg, s, input);
    BeforeStarts(cfg, s, input);
    FillSlotsOnly(cfg, x, input.startEnv);
    var r := FillSlots(cfg, x, input.startEnv);
    if r.status == Looping {
      DeliverStarts(cfg, r, input);
    }
    if CanDispatch(cfg, x) {
      AddsToDispatched(x, r, NumbersIn(Take(Ready(cfg, x), cfg.parallel - |x.running|)));
    }
  }

  /** Conversely a pass that may dispatch does: exactly if, right before, the branch is settled, no stop was
      requested, no limit is in force and a slot is free, and something is ready. */
  lemma DispatchExactly(cfg: Config, s: State, input: Input)
    requires Inv(cfg, s, None) && s.status == Looping && !Poll(s, input.stop).immediate
    ensures
      var x := BeforeDispatch(cfg, s, input);
      var free := x.Settled() && !x.limited && !x.Draining() && |x.running| < cfg.parallel;
      var ready := Ready(cfg, x);
      var n := if |ready| <= cfg.parallel - |x.running| then |ready| else cfg.parallel - |x.running|;
      Prepare(cfg, s, input).dispatched ==
        x.dispatched + (if free then set i | 0 <= i < n :: ready[i].number else {})
  {
    hide Inv, FillSlots, OnlyDispatched, Ready, BeforeDispatch, Prepare, NumbersIn, Take;
    var x := BeforeDispatch(cfg, s, input);
    PreparedBy(cfg, s, input);
    FillSlotsOnly(cfg, x, input.startEnv);
    if CanDispatch(cfg, x) {
      AddsToDispatched(x, FillSlots(cfg, x, input.startEnv),
                       NumbersIn(Take(Ready(cfg, x), cfg.parallel - |x.running|)));
      FirstNumbers(Ready(cfg, x), cfg.parallel - |x.running|);
    }
  }

  /** No ticket is started before its blockers are done. */
  lemma BlockersComeFirst(cfg: Config, s: State, input: Input, t: nat, b: Blocker)
    requires Inv(cfg, s, None) && s.status == Looping && !Poll(s, input.stop).immediate
    requires t in Prepare(cfg, s, input).dispatched && t !in BeforeDispatch(cfg, s, input).dispatched
    requires t !in cfg.resumes && b in BlockersOf(cfg.blockers, t)
    ensures
      var w := BeforeDispatch(cfg, s, input).world;
      if exists j :: 0 <= j < |cfg.heads| && HasKey(cfg.heads[j], b.KeyOf()) then
        exists j :: 0 <= j < |cfg.heads| && HasKey(cfg.heads[j], b.KeyOf()) && DoneHead(cfg.heads[j], w)
      else !b.open
  {
    hide Inv, Ready, BeforeDispatch, Prepare, IsReady, Issues;
    DispatchExactly(cfg, s, input);
    var x := BeforeDispatch(cfg, s, input);
    var i :| 0 <= i < |Ready(cfg, x)| && Ready(cfg, x)[i].number == t;
    var p := Ready(cfg, x)[i];
    assert p in Ready(cfg, x);
    ReadyMeaning(cfg, x, p);
    var k :| 0 <= k < |cfg.heads| && cfg.heads[k].number == t
             && IsReady(IssueOf(cfg.heads[k], x.world), Issues(cfg, x.world), cfg.blockers);
    ReadyBlocker(IssueOf(cfg.heads[k], x.world), Issues(cfg, x.world), cfg.blockers, b);
    hide BlockersOf;
    SatisfiedIsDone(cfg, x, b);
  }

  /** The sub-issue is closed, or integrated with its PR merged. */
  predicate DoneHead(h: Head, w: World) {
    !h.open || (h.number in w.cards && In(w.cards[h.number], Integrated) && w.cards[h.number].pr == Merged)
  }

  lemma ReadyBlocker(t: Issue, tickets: seq<Issue>, blockers: Blockers, b: Blocker)
    requires IsReady(t, tickets, blockers) && b in BlockersOf(blockers, t.number)
    ensures
      match Lookup(tickets, b.KeyOf())
      case Some(x) => Integrated in x.labels || !x.open
      case None => !b.open
  {
  }

  lemma SatisfiedIsDone(cfg: Config, x: State, b: Blocker)
    requires Inv(cfg, x, None)
    requires
      match Lookup(Issues(cfg, x.world), b.KeyOf())
      case Some(t) => Integrated in t.labels || !t.open
      case None => !b.open
    ensures
      if exists j :: 0 <= j < |cfg.heads| && HasKey(cfg.heads[j], b.KeyOf()) then
        exists j :: 0 <= j < |cfg.heads| && HasKey(cfg.heads[j], b.KeyOf()) && DoneHead(cfg.heads[j], x.world)
      else !b.open
  {
    if j :| 0 <= j < |cfg.heads| && HasKey(cfg.heads[j], b.KeyOf()) {
      LookupHead(cfg, x.world, b.KeyOf(), j);
      var h := cfg.heads[j];
      if h.open {
        LegitIntegrated(x.world.cards[h.number]);
      }
      assert DoneHead(h, x.world);
    } else {
      LookupNone(cfg, x.world, b.KeyOf());
    }
  }

  lemma LegitIntegrated(card: Card)
    requires (Legit(card) || Untracked(card)) && Integrated in card.labels
    ensures In(card, Integrated) && card.pr == Merged
  {
    assert Integrated in card.labels * STATES;
  }

  lemma FirstNumbers(ready: seq<Pick>, room: nat)
    ensures
      var n := if |ready| <= room then |ready| else room;
      NumbersIn(Take(ready, room)) == set i | 0 <= i < n :: ready[i].number
  {
    var n := if |ready| <= room then |ready| else room;
    var taken := Take(ready, room);
    assert |taken| == n && forall i | 0 <= i < n :: taken[i] == ready[i];
    forall t | t in NumbersIn(taken)
      ensures exists i :: 0 <= i < n && ready[i].number == t
    {
      var p :| p in taken && p.number == t;
      var i :| 0 <= i < |taken| && taken[i] == p;
    }
    forall i | 0 <= i < n
      ensures ready[i].number in NumbersIn(taken)
    {
      assert taken[i] in taken;
    }
  }

  lemma AddsToDispatched(x: State, r: State, among: set<nat>)
    requires OnlyDispatched(x, r, among)
    ensures r.dispatched == x.dispatched + among
  {
  }

  /** A drain is for good and dispatches nothing: in a pass that finds a stop requested, and in every
      later one. What is in flight may still finish. */
  lemma DrainedPass(cfg: Config, s: State, input: Input)
    requires Inv(cfg, s, None) && s.status == Looping && Poll(s, input.stop).Draining()
    ensures Pass(cfg, s, input).dispatches == s.dispatches && Pass(cfg, s, input).Draining()
  {
    hide Inv, Release, GiveBack, CheckIfDue, FillSlots, Deliver, Ready, Take, NumbersIn;
    PollKeeps(cfg, s, input.stop);
    if !Poll(s, input.stop).immediate {
      var x := BeforeDispatch(cfg, s, input);
      BeforeStarts(cfg, s, input);
      FillSlotsOnly(cfg, x, input.startEnv);
      assert Prepare(cfg, s, input) == x;
      DeliverStarts(cfg, x, input);
    }
  }

  lemma {:induction false} DrainIsFinal(cfg: Config, s: State, inputs: seq<Input>)
    requires Inv(cfg, s, None) && s.status == Looping && s.Draining()
    ensures Run(cfg, s, inputs).dispatches == s.dispatches && Run(cfg, s, inputs).Draining()
    decreases |inputs|
  {
    hide Inv, InvEnd, Pass;
    if inputs == [] {
    } else {
      DrainedPass(cfg, s, inputs[0]);
      var s' := Pass(cfg, s, inputs[0]);
      if s'.status == Looping {
        DrainIsFinal(cfg, s', inputs[1..]);
      }
    }
  }

  /** Found at the head of a pass, an immediate stop ends the loop with everything as it was. */
  lemma StoppedAtTheHead(cfg: Config, s: State, input: Input)
    requires Inv(cfg, s, None) && s.status == Looping && Poll(s, input.stop).immediate
    ensures Pass(cfg, s, input) == Poll(s, input.stop).(status := Returned)
  {
    hide Inv, Release, GiveBack, CheckIfDue, FillSlots, Deliver, Idle;
  }

  /** Found as a job's answer arrives, it drops the answer. */
  lemma StoppedAtTheAnswer(cfg: Config, s: State, input: Input)
    requires input.late && input.event.Some? && Deliverable(s, input.event.value)
    ensures Deliver(cfg, s, input) == s.(immediate := true, status := Returned)
  {
    hide Deliverable;
  }

  /** Nothing but a late answer brings an immediate stop to the end of a pass. */
  lemma DeliverStops(cfg: Config, s: State, input: Input)
    requires Inv(cfg, s, None) && s.status == Looping && !s.immediate && Deliver(cfg, s, input).immediate
    ensures input.late && input.event.Some? && Deliverable(s, input.event.value)
  {
    hide Inv, Deliver, Deliverable, Acted, Fits, CheckFits, IsLimited;
    if input.event.Some? && Deliverable(s, input.event.value) && !input.late {
      var e := input.event.value;
      CanAct(cfg, s, e);
      DeliverActs(cfg, s, input);
      ActedGoesOn(cfg, Taken(s, e), e, input.parkReadable);
      assert false;
    } else if !input.late || input.event.None? || !Deliverable(s, input.event.value) {
      DeliverWaits(cfg, s, input);
    }
  }

  lemma DeliverWaits(cfg: Config, s: State, input: Input)
    requires input.event.None? || !Deliverable(s, input.event.value)
    ensures Deliver(cfg, s, input) == s
  {
    hide Deliverable;
  }

  lemma ActedGoesOn(cfg: Config, s: State, e: Event, readable: nat -> bool)
    requires e.number == CHECKER ==> s.checker.Some? && CheckFits(s.checker.value.at, e.reply)
    requires e.number != CHECKER ==>
      e.number in s.running && e.number in s.world.cards && Fits(s.running[e.number].at, e.reply)
    requires !s.immediate
    ensures !Acted(cfg, s, e, readable).immediate
  {
    hide AdvanceFlow, Fits, CheckFits, ParkCard, Without, ResumeCheck, AbsorbCheck;
    if !s.limited && e.number != CHECKER {
      AdvanceMode(cfg, s, e.number, e.reply, e.env);
    }
  }

  /** An immediate stop acts on nothing more. The pass that finds it is the run's last, whatever inputs
      would follow: found at the head it leaves every flow, card, commit and outstanding job as it was;
      found as an answer arrives, everything is as it was before that answer. */
  lemma StopEndsTheRun(cfg: Config, s: State, inputs: seq<Input>)
    requires Inv(cfg, s, None) && s.status == Looping && inputs != []
    requires Pass(cfg, s, inputs[0]).immediate
    ensures
      var r, input := Run(cfg, s, inputs), inputs[0];
      && r.status == Returned && r == Pass(cfg, s, input)
      && r == (if Poll(s, input.stop).immediate then Poll(s, input.stop)
               else Prepare(cfg, s, input).(immediate := true)).(status := Returned)
  {
    hide Inv, InvEnd, Prepare, Deliver, Deliverable;
    var input := inputs[0];
    if Poll(s, input.stop).immediate {
      StoppedAtTheHead(cfg, s, input);
    } else {
      PrepareLimit(cfg, s, input);
      PrepareGoesOn(cfg, s, input);
      var r := Prepare(cfg, s, input);
      if !(|r.running| == 0 && r.checker.None?) {
        DeliverStops(cfg, r, input);
        StoppedAtTheAnswer(cfg, r, input);
      }
    }
  }

  /** A request to stop at once, found at the head of a pass, ends the run there; a request to drain is kept and
      nothing is dispatched any more. */
  lemma RequestsCount(cfg: Config, s: State, inputs: seq<Input>)
    requires Inv(cfg, s, None) && s.status == Looping && inputs != []
    ensures inputs[0].stop == ImmediateRequest ==>
      Run(cfg, s, inputs) == s.(immediate := true, status := Returned)
    ensures inputs[0].stop == DrainRequest ==>
      Run(cfg, s, inputs).dispatches == s.dispatches && Run(cfg, s, inputs).Draining()
    ensures inputs[0].stop == NoStop ==> Poll(s, inputs[0].stop) == s
  {
    hide Inv, InvEnd, Pass;
    match inputs[0].stop
    case NoStop =>
    case ImmediateRequest => StoppedAtTheHead(cfg, s, inputs[0]);
    case DrainRequest =>
      DrainedPass(cfg, s, inputs[0]);
      if Pass(cfg, s, inputs[0]).status == Looping {
        DrainIsFinal(cfg, Pass(cfg, s, inputs[0]), inputs[1..]);
      }
  }

  /** However the loop returns, short of an immediate stop: no check runs, and unless a limit is in force the
      branch is known to be good or broken, also at the end of a drain. */
  lemma ReturnKnowsTheBranch(cfg: Config, s: State, input: Input)
    requires Inv(cfg, s, None) && s.status == Looping
    requires Pass(cfg, s, input).status == Returned && !Pass(cfg, s, input).immediate
    ensures
      var r := Pass(cfg, s, input);
      r.running == map[] && r.checker.None? && (r.limited || r.guard.Settled() || r.guard.broken)
  {
    hide Inv, Prepare, Deliver;
    PrepareLimit(cfg, s, input);
    if Poll(s, input.stop).immediate {
      StoppedAtTheHead(cfg, s, input);
    } else {
      PrepareGoesOn(cfg, s, input);
      var r := Prepare(cfg, s, input);
      if |r.running| == 0 && r.checker.None? {
        assert |r.running.Keys| == 0;
        CheckedIfDue(cfg, s, input);
      } else {
        DeliverReturnsStopped(cfg, r, input);
      }
    }
  }

  lemma DeliverReturnsStopped(cfg: Config, s: State, input: Input)
    requires Inv(cfg, s, None) && s.status == Looping
    ensures Deliver(cfg, s, input).status == Returned ==> Deliver(cfg, s, input).immediate
  {
    hide Inv, Resume, ResumeCheck, Absorb, AbsorbCheck, ParkCard, Without, IsLimited;
  }

  lemma CheckedIfDue(cfg: Config, s: State, input: Input)
    requires Inv(cfg, s, None) && s.status == Looping && !Poll(s, input.stop).immediate
    ensures
      var r := Prepare(cfg, s, input);
      r.checker.None? && !r.limited && !r.guard.broken ==> r.guard.Settled()
  {
    hide Inv, FillSlots, BeforeDispatch, Prepare, Ready, Take, NumbersIn;
    PreparedBy(cfg, s, input);
    CheckedBefore(cfg, s, input);
    FillSlotsOnly(cfg, BeforeDispatch(cfg, s, input), input.startEnv);
  }

  lemma PrepareGoesOn(cfg: Config, s: State, input: Input)
    requires Inv(cfg, s, None) && s.status == Looping && !Poll(s, input.stop).immediate
    ensures Prepare(cfg, s, input).status == Looping
  {
    hide Inv, Release, GiveBack, CheckIfDue, FillSlots;
    PollKeeps(cfg, s, input.stop);
  }

  // Order.

  /** Everything resumed comes before everything new. */
  lemma ResumedFirst(cfg: Config, s: State, i: nat, j: nat)
    requires i < j < |Ready(cfg, s)| && Ready(cfg, s)[j].resume
    ensures Ready(cfg, s)[i].resume
  {
    var a := PicksOf(cfg.resumes, true, s.dispatched);
    var b := PicksOf(IssueNumbers(Dispatchable(Issues(cfg, s.world), cfg.blockers)), false, s.dispatched);
    hide PicksOf, Dispatchable;
    forall k | 0 <= k < |b|
      ensures !b[k].resume
    {
      assert b[k] in b;
    }
    assert j < |a|;
    assert a[i] in a;
  }

  /** Merges are attempted in the order the flows came to wait: the first `k` of them, the rest waits on. */
  lemma {:induction false} ReleasesInTurn(cfg: Config, s: State, envOf: nat -> Env) returns (k: nat)
    requires Inv(cfg, s, None) && s.status == Looping
    ensures k <= |s.waiting| && Release(cfg, s, envOf).waiting == s.waiting[k..]
    decreases |s.waiting|
  {
    NothingReleased(cfg, s, envOf);
    hide Inv, Release, CanRelease;
    k := 0;
    if !CanRelease(s) {
    } else {
      var s' := ReleaseSteps(cfg, s, envOf);
      k := ReleasesInTurn(cfg, s', envOf);
      TailOfRest(s.waiting, k);
      k := k + 1;
    }
  }

  lemma NothingReleased(cfg: Config, s: State, envOf: nat -> Env)
    requires Inv(cfg, s, None) && s.status == Looping
    ensures !CanRelease(s) ==> Release(cfg, s, envOf) == s
  {
    hide Inv, AdvanceFlow;
  }

  lemma ReleaseSteps(cfg: Config, s: State, envOf: nat -> Env) returns (s': State)
    requires Inv(cfg, s, None) && CanRelease(s) && s.status == Looping
    ensures Inv(cfg, s', None) && s'.status == Looping && s.waiting != [] && s'.waiting == s.waiting[1..]
    ensures Release(cfg, s, envOf) == Release(cfg, s', envOf)
  {
    hide Inv, AdvanceFlow, YieldFrame;
    ReleaseOneKeeps(cfg, s, envOf(s.waiting[0]));
    s' := AdvanceFlow(cfg, Popped(s), s.waiting[0], Go, envOf(s.waiting[0]));
  }

  lemma TailOfRest(xs: seq<nat>, k: nat)
    requires k + 1 <= |xs|
    ensures xs[1..][k..] == xs[k + 1..]
  {
  }

  /** And a flow that comes to wait goes to the end. */
  lemma WaitsAtTheEnd(cfg: Config, s: State, t: nat, r: Reply, env: Env)
    requires t in s.running && t in s.world.cards && Fits(s.running[t].at, r)
    ensures
      var s' := AdvanceFlow(cfg, s, t, r, env);
      s'.waiting == s.waiting || (s'.waiting == s.waiting + [t] && t in s'.running && s'.running[t].at == AtGreen)
  {
    hide Resume, Absorb;
  }
}

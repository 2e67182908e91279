/** Every merge of a run was cleared: the pin of one flow, lifted to the frontier. */
module FrontierMerges {
  import opened Wrappers
  import opened Board
  import opened TicketFlow
  import opened TicketFlowProofs
  import opened FlowEnds
  import opened IntegrationCheck
  import opened Scheduler
  import opened SchedulerInvariant
  import opened SchedulerActions
  import opened Frontier
  import opened FrontierTheorems
  import opened FrontierPause

  /** What ticket `t`'s flows did, in order. */
  function OfTicket(log: seq<Entry>, t: nat): seq<Effect> {
    if log == [] then []
    else OfTicket(log[..|log| - 1], t) + if log[|log| - 1].ticket == t then [log[|log| - 1].effect] else []
  }

  function Entries(t: nat, es: seq<Effect>): (r: seq<Entry>)
    ensures |r| == |es| && forall i | 0 <= i < |r| :: r[i] == Entry(t, es[i])
  {
    seq(|es|, i requires 0 <= i < |es| => Entry(t, es[i]))
  }

  lemma OfTicketNext(log: seq<Entry>, e: Entry, u: nat)
    ensures OfTicket(log + [e], u) == OfTicket(log, u) + if e.ticket == u then [e.effect] else []
  {
    assert (log + [e])[..|log|] == log;
  }

  lemma {:induction false} OfTicketEntries(log: seq<Entry>, t: nat, es: seq<Effect>, u: nat)
    ensures OfTicket(log + Entries(t, es), u) == OfTicket(log, u) + if u == t then es else []
    decreases |es|
  {
    hide OfTicket;
    if es == [] {
      assert log + Entries(t, es) == log && OfTicket(log, u) + [] == OfTicket(log, u);
    } else {
      var before, last := es[..|es| - 1], Entry(t, es[|es| - 1]);
      OfTicketEntries(log, t, before, u);
      OfTicketNext(log + Entries(t, before), last, u);
      assert log + Entries(t, es) == log + Entries(t, before) + [last];
      assert es == before + [last.effect];
    }
  }

  lemma Absorb1Log(w: World, t: nat, e: Effect)
    requires t in w.cards
    ensures t in Absorb1(w, t, e).cards && Absorb1(w, t, e).log == w.log + [Entry(t, e)]
  {
    hide Apply;
  }

  lemma {:induction false} AbsorbLog(w: World, t: nat, es: seq<Effect>)
    requires t in w.cards
    ensures Absorb(w, t, es).log == w.log + Entries(t, es)
    decreases |es|
  {
    hide Absorb1;
    if es == [] {
      assert w.log + Entries(t, es) == w.log;
    } else {
      Absorb1Log(w, t, es[0]);
      AbsorbLog(Absorb1(w, t, es[0]), t, es[1..]);
      assert w.log + [Entry(t, es[0])] + Entries(t, es[1..]) == w.log + Entries(t, es);
    }
  }

  /** A merge call in the log names the commit its ticket was cleared for at that point. */
  predicate PinAt(log: seq<Entry>, k: nat) {
    k < |log| && log[k].effect.MergeCalled? ==>
      Standings(OfTicket(log[..k], log[k].ticket)) == IsGated(log[k].effect.pin)
  }

  /** The merges in the history of the integration branch: their tickets, and whether they were seen. */
  function LandedIn(history: seq<Mark>): seq<(nat, bool)> {
    if history == [] then []
    else
      LandedIn(history[..|history| - 1]) +
      match history[|history| - 1]
      case Landed(t, _, seen) => [(t, seen)]
      case TurnedGreen(_) => []
  }

  /** The merge calls that landed, as the log has them. */
  function CallsLanded(log: seq<Entry>): seq<(nat, bool)> {
    if log == [] then []
    else
      CallsLanded(log[..|log| - 1]) +
      match log[|log| - 1].effect
      case MergeCalled(_, landed, seen) => if landed then [(log[|log| - 1].ticket, seen)] else []
      case _ => []
  }

  /** So do all of them, the merges that landed are the calls that did, and where each running flow
      stands is what the log says of its ticket. */
  ghost predicate MergesOk(running: map<nat, Flow>, w: World) {
    && (forall k: nat :: PinAt(w.log, k)) && LandedIn(w.history) == CallsLanded(w.log)
    && (forall t | t in running :: StandingOk(running[t], Standings(OfTicket(w.log, t))))
  }

  /** The flow's record of its first step: the branch of the ticket's closed PR is deleted exactly if the ticket
      starts anew, its last PR can be read and was closed, and the deletion goes through. */
  lemma DispatchDeletes(cfg: Config, s: State, p: Pick, env: Env)
    requires p.number in s.world.cards
    ensures
      var log := Dispatch(cfg, s, p, env).world.log;
      && s.world.log <= log
      && (Entry(p.number, BranchDeleted) in log[|s.world.log|..] <==>
            !p.resume && env.latestPrOk && s.world.cards[p.number].pr == Closed && env.deleteOk)
  {
    hide Start, Dispatch, Absorb, Claimed;
    ClaimFacts(s, p);
    DispatchIsAdvance(cfg, s, p, env);
    ClaimedFlow(s, p);
    var c := Claimed(s, p);
    ClaimMeaning(c.running[p.number], cfg.maxRounds, env);
    var step := Resume(c.running[p.number], Go, cfg.maxRounds, env);
    hide Resume, Yielded;
    AdvanceIsYield(cfg, c, p.number, Go, env);
    YieldTouches(c, p.number, step);
    AbsorbLog(c.world, p.number, step.effects);
    var more := Entries(p.number, step.effects);
    assert Dispatch(cfg, s, p, env).world.log[|s.world.log|..] == more;
    if BranchDeleted in step.effects {
      var i :| 0 <= i < |step.effects| && step.effects[i] == BranchDeleted;
      assert more[i] == Entry(p.number, BranchDeleted);
    }
  }

  lemma ClaimedFlow(s: State, p: Pick)
    requires p.number in s.world.cards
    ensures
      var c := Claimed(s, p);
      p.number in c.running && c.running[p.number] == NewFlow(p.resume, s.world.cards[p.number].pr)
  {
  }

  lemma Absorb1Landed(w: World, t: nat, e: Effect)
    requires t in w.cards && LandedIn(w.history) == CallsLanded(w.log)
    ensures LandedIn(Absorb1(w, t, e).history) == CallsLanded(Absorb1(w, t, e).log)
  {
    hide Apply, LandedIn, CallsLanded;
    CallsNext(w.log, Entry(t, e));
    if e.MergeCalled? && e.landed {
      LandedNext(w.history, Landed(t, w.tip, e.seen));
    }
  }

  lemma LandedNext(h: seq<Mark>, m: Mark)
    ensures LandedIn(h + [m]) == LandedIn(h) + if m.Landed? then [(m.ticket, m.seen)] else []
  {
    assert (h + [m])[..|h|] == h;
  }

  lemma CallsNext(log: seq<Entry>, x: Entry)
    ensures CallsLanded(log + [x]) == CallsLanded(log) +
      if x.effect.MergeCalled? && x.effect.landed then [(x.ticket, x.effect.seen)] else []
  {
    assert (log + [x])[..|log|] == log;
  }

  lemma {:induction false} AbsorbLanded(w: World, t: nat, es: seq<Effect>)
    requires t in w.cards && LandedIn(w.history) == CallsLanded(w.log)
    ensures LandedIn(Absorb(w, t, es).history) == CallsLanded(Absorb(w, t, es).log)
    decreases |es|
  {
    hide Absorb1, LandedIn, CallsLanded;
    if es == [] {
    } else {
      Absorb1Landed(w, t, es[0]);
      Absorb1Log(w, t, es[0]);
      AbsorbLanded(Absorb1(w, t, es[0]), t, es[1..]);
    }
  }

  lemma GreenIsNoMerge(history: seq<Mark>, c: Commit)
    ensures LandedIn(history + [TurnedGreen(c)]) == LandedIn(history)
  {
    LandedNext(history, TurnedGreen(c));
  }

  lemma PinsGrow(log: seq<Entry>, t: nat, es: seq<Effect>)
    requires (forall k: nat :: PinAt(log, k)) && Pinned(Standings(OfTicket(log, t)), es)
    ensures forall k: nat :: PinAt(log + Entries(t, es), k)
  {
    var more := log + Entries(t, es);
    forall k: nat
      ensures PinAt(more, k)
    {
      if k < |log| {
        assert more[..k] == log[..k] && more[k] == log[k] && PinAt(log, k);
      } else if k < |more| && more[k].effect.MergeCalled? {
        var i := k - |log|;
        assert more[k] == Entry(t, es[i]);
        PinnedAt(OfTicket(log, t), es, i);
        assert more[..k] == log + Entries(t, es[..i]);
        OfTicketEntries(log, t, es[..i], t);
      }
    }
  }

  lemma AdvanceMerges(cfg: Config, s: State, t: nat, r: Reply, env: Env)
    requires t in s.running && t in s.world.cards && Fits(s.running[t].at, r)
    requires FlowOk(s.running[t], cfg.maxRounds) && MergesOk(s.running, s.world)
    ensures
      var s' := AdvanceFlow(cfg, s, t, r, env);
      MergesOk(s'.running, s'.world)
  {
    hide Resume, FlowOk, Fits, Yielded, Absorb, StandingOk, Pinned, PinAt, Standings, OfTicket, LandedIn, CallsLanded;
    var f, log := s.running[t], s.world.log;
    var step := Resume(f, r, cfg.maxRounds, env);
    YieldTouches(s, t, step);
    if step.Step? {
      var standing := Standings(OfTicket(log, t));
      AbsorbLog(s.world, t, step.effects);
      AbsorbLanded(s.world, t, step.effects);
      ResumePins(f, r, cfg.maxRounds, env, standing);
      PinsGrow(log, t, step.effects);
      StandingAfter(f, r, cfg.maxRounds, env, OfTicket(log, t));
      FlowsStand(s, t, AdvanceFlow(cfg, s, t, r, env), step);
    }
  }

  lemma StandingAfter(f: Flow, r: Reply, maxRounds: nat, env: Env, before: seq<Effect>)
    requires Fits(f.at, r) && FlowOk(f, maxRounds) && StandingOk(f, Standings(before))
    requires Resume(f, r, maxRounds, env).Step?
    ensures
      var step := Resume(f, r, maxRounds, env);
      StandingOk(step.flow, Standings(before + step.effects))
  {
    hide Resume, Fits, FlowOk, StandingOk, Standings, StandingsFrom;
    ResumeKeeps(f, r, maxRounds, env, Standings(before));
    StandingsAppend(before, Resume(f, r, maxRounds, env).effects);
  }

  lemma FlowsStand(s: State, t: nat, s': State, step: Step)
    requires step.Step? && s'.running - {t} == s.running - {t} && (t in s'.running ==> s'.running[t] == step.flow)
    requires s'.world.log == s.world.log + Entries(t, step.effects) && MergesOk(s.running, s.world)
    requires StandingOk(step.flow, Standings(OfTicket(s.world.log, t) + step.effects))
    ensures forall u | u in s'.running :: StandingOk(s'.running[u], Standings(OfTicket(s'.world.log, u)))
  {
    hide StandingOk, Standings, PinAt, OfTicket, LandedIn, CallsLanded;
    forall u | u in s'.running
      ensures StandingOk(s'.running[u], Standings(OfTicket(s'.world.log, u)))
    {
      OfTicketEntries(s.world.log, t, step.effects, u);
      if u != t {
        assert u in s'.running - {t};
        assert s'.running[u] == (s'.running - {t})[u] == (s.running - {t})[u] == s.running[u];
        assert OfTicket(s.world.log, u) + [] == OfTicket(s.world.log, u);
      }
    }
  }

  lemma FewerFlows(s: State, s': State)
    requires MergesOk(s.running, s.world) && s'.world.log == s.world.log
    requires LandedIn(s'.world.history) == LandedIn(s.world.history)
    requires s'.running.Keys <= s.running.Keys && forall t | t in s'.running :: s'.running[t] == s.running[t]
    ensures MergesOk(s'.running, s'.world)
  {
    hide StandingOk, PinAt, LandedIn, CallsLanded;
  }

  // Stage by stage.

  lemma HeldOk(cfg: Config, s: State, hand: Option<nat>, t: nat)
    requires Inv(cfg, s, hand) && t in s.running
    ensures FlowOk(s.running[t], cfg.maxRounds)
  {
    assert FlowPlaced(cfg, s, hand, t);
  }

  lemma WaiterFits(s: State, t: nat)
    requires t in s.running && s.running[t].at.AtGreen?
    ensures Fits(s.running[t].at, Go)
  {
  }

  lemma {:induction false} ReleaseMerges(cfg: Config, s: State, envOf: nat -> Env)
    requires Inv(cfg, s, None) && s.status == Looping && MergesOk(s.running, s.world)
    ensures
      var r := Release(cfg, s, envOf);
      MergesOk(r.running, r.world)
    decreases |s.waiting|
  {
    if !CanRelease(s) {
    } else {
      var t := s.waiting[0];
      ReleaseOneKeeps(cfg, s, envOf(t));
      PopKeeps(cfg, s);
      HeldOk(cfg, Popped(s), Some(t), t);
      hide Inv, AdvanceFlow, FlowOk, MergesOk, YieldFrame, Fits;
      WaiterFits(s, t);
      AdvanceMerges(cfg, Popped(s), t, Go, envOf(t));
      ReleaseMerges(cfg, AdvanceFlow(cfg, Popped(s), t, Go, envOf(t)), envOf);
    }
  }

  lemma GiveBackMerges(cfg: Config, s: State, readable: nat -> bool)
    requires Inv(cfg, s, None) && MergesOk(s.running, s.world)
    ensures
      var r := GiveBack(cfg, s, readable);
      MergesOk(r.running, r.world)
  {
    WholeList(cfg, s);
    hide Inv, ParkEach, MergesOk;
    if s.guard.broken || s.limited {
      ParkEachOnly(cfg, s, s.waiting, readable);
      ParkedMerges(s, ParkEach(cfg, s, s.waiting, readable), readable);
    }
  }

  lemma ParkedMerges(s: State, s': State, readable: nat -> bool)
    requires OnlyParked(s, s', readable) && MergesOk(s.running, s.world)
    ensures MergesOk(s'.running, s'.world)
  {
    hide ParkCard, MergesOk;
    FewerFlows(s, s');
  }

  lemma {:induction false} AbsorbCheckLog(w: World, es: seq<Effect>)
    ensures AbsorbCheck(w, es).log == w.log && AbsorbCheck(w, es).history == w.history
    decreases |es|
  {
    if es == [] {
    } else {
      var v := match es[0]
        case Wrote(c) => w.(next := Max(w.next, c + 1))
        case Verified(c) => w.(next := Max(w.next, c + 1), verified := w.verified + {c})
        case Pushed(c) => w.(next := Max(w.next, c + 1), tip := c)
        case _ => w;
      AbsorbCheckLog(v, es[1..]);
    }
  }

  lemma CheckYieldMerges(s: State, step: CheckStep)
    ensures
      var s' := CheckYielded(s, step);
      s'.running == s.running && s'.world.log == s.world.log && LandedIn(s'.world.history) == LandedIn(s.world.history)
  {
    if step.CheckStep? {
      AbsorbCheckLog(s.world, step.effects);
      if step.check.at.CheckEnded? && step.check.at.result.CheckGreen? {
        GreenIsNoMerge(s.world.history, step.check.at.result.sha);
      }
    }
    hide AbsorbCheck, LandedIn;
  }

  lemma CheckDueMerges(cfg: Config, s: State, input: Input)
    requires Inv(cfg, s, None) && s.status == Looping
    ensures
      var r := CheckIfDue(cfg, s, input);
      r.running == s.running && r.world.log == s.world.log && LandedIn(r.world.history) == LandedIn(s.world.history)
  {
    hide Inv, CheckYielded, ResumeCheck;
    if CheckDue(s) && input.tipReadable {
      var c := CheckStarted(s);
      CheckYieldMerges(c, ResumeCheck(c.checker.value, Go, cfg.maxRounds, input.checkStart, c.world.tip));
    }
  }

  lemma {:induction false} DispatchMerges(cfg: Config, s: State, picks: seq<Pick>, envOf: nat -> Env)
    requires Inv(cfg, s, None) && s.status == Looping && PicksOk(cfg, s, picks) && MergesOk(s.running, s.world)
    ensures
      var r := DispatchAll(cfg, s, picks, envOf);
      MergesOk(r.running, r.world)
    decreases |picks|
  {
    hide Inv, Dispatch, PicksOk, PickOk, MergesOk;
    if picks == [] {
    } else {
      var env := envOf(picks[0].number);
      DispatchKeeps(cfg, s, picks, env);
      DispatchOneMerges(cfg, s, picks[0], env);
      DispatchMerges(cfg, Dispatch(cfg, s, picks[0], env), picks[1..], envOf);
    }
  }

  lemma DispatchOneMerges(cfg: Config, s: State, p: Pick, env: Env)
    requires p.number in s.world.cards && MergesOk(s.running, s.world)
    ensures
      var r := Dispatch(cfg, s, p, env);
      MergesOk(r.running, r.world)
  {
    ClaimFacts(s, p);
    DispatchIsAdvance(cfg, s, p, env);
    NewFlowMerges(s, p);
    FreshFlowOk(cfg, s, p);
    hide Dispatch, AdvanceFlow, Claimed, MergesOk, FlowOk;
    AdvanceMerges(cfg, Claimed(s, p), p.number, Go, env);
  }

  lemma FreshFlowOk(cfg: Config, s: State, p: Pick)
    requires p.number in s.world.cards
    ensures FlowOk(Claimed(s, p).running[p.number], cfg.maxRounds)
  {
  }

  lemma NewFlowMerges(s: State, p: Pick)
    requires p.number in s.world.cards && MergesOk(s.running, s.world)
    ensures MergesOk(Claimed(s, p).running, Claimed(s, p).world)
  {
    hide PinAt;
  }

  lemma FillMerges(cfg: Config, s: State, envOf: nat -> Env)
    requires Inv(cfg, s, None) && s.status == Looping && MergesOk(s.running, s.world)
    ensures
      var r := FillSlots(cfg, s, envOf);
      MergesOk(r.running, r.world)
  {
    hide Inv, Ready, PicksOk, DispatchAll, MergesOk;
    if CanDispatch(cfg, s) {
      ReadyPicksOk(cfg, s);
      DispatchMerges(cfg, s, Take(Ready(cfg, s), cfg.parallel - |s.running|), envOf);
    }
  }

  lemma PrepareMerges(cfg: Config, s: State, input: Input)
    requires Inv(cfg, s, None) && s.status == Looping && MergesOk(s.running, s.world)
    ensures
      var r := Prepare(cfg, s, input);
      MergesOk(r.running, r.world)
  {
    hide Inv, Release, GiveBack, CheckIfDue, FillSlots, MergesOk;
    PollKeeps(cfg, s, input.stop);
    var polled := Poll(s, input.stop);
    if !polled.immediate {
      ReleaseMerges(cfg, polled, input.releaseEnv);
      var rel := Release(cfg, polled, input.releaseEnv);
      GiveBackMerges(cfg, rel, input.parkReadable);
      var given := GiveBack(cfg, rel, input.parkReadable);
      CheckDueMerges(cfg, given, input);
      FewerFlows(given, CheckIfDue(cfg, given, input));
      FillMerges(cfg, CheckIfDue(cfg, given, input), input.startEnv);
    }
  }

  lemma DeliverMerges(cfg: Config, s: State, input: Input)
    requires Inv(cfg, s, None) && s.status == Looping && MergesOk(s.running, s.world)
    ensures
      var r := Deliver(cfg, s, input);
      MergesOk(r.running, r.world)
  {
    hide Inv, AdvanceFlow, AdvanceCheck, ParkFlow, IsLimited, MergesOk;
    if input.event.Some? && Deliverable(s, input.event.value) && !input.late {
      var e := input.event.value;
      TakeKeeps(cfg, s, e);
      var taken := Taken(s, e);
      if taken.limited {
        if e.number != CHECKER {
          ParkFlowOnly(taken, e.number, input.parkReadable);
          ParkedMerges(taken, ParkFlow(taken, e.number, input.parkReadable(e.number)), input.parkReadable);
        }
      } else if e.number == CHECKER {
        CheckEventMerges(cfg, taken, e);
        FewerFlows(taken, AdvanceCheck(cfg, taken, e.reply, e.checkEnv));
      } else {
        HeldOk(cfg, s, None, e.number);
        hide FlowOk;
        AdvanceMerges(cfg, taken, e.number, e.reply, e.env);
      }
    }
  }

  lemma CheckEventMerges(cfg: Config, s: State, e: Event)
    requires s.checker.Some? && CheckFits(s.checker.value.at, e.reply)
    ensures
      var s' := AdvanceCheck(cfg, s, e.reply, e.checkEnv);
      s'.running == s.running && s'.world.log == s.world.log && LandedIn(s'.world.history) == LandedIn(s.world.history)
  {
    hide ResumeCheck, CheckYielded;
    CheckYieldMerges(s, ResumeCheck(s.checker.value, e.reply, cfg.maxRounds, e.checkEnv, s.world.tip));
  }

  lemma {:induction false} RunMerges(cfg: Config, s: State, inputs: seq<Input>)
    requires Inv(cfg, s, None) && s.status == Looping && MergesOk(s.running, s.world)
    ensures
      var r := Run(cfg, s, inputs);
      MergesOk(r.running, r.world)
    decreases |inputs|
  {
    hide Inv, InvEnd, Prepare, Deliver, MergesOk;
    if inputs == [] {
    } else {
      PrepareMerges(cfg, s, inputs[0]);
      var r := Prepare(cfg, s, inputs[0]);
      if r.status == Looping {
        DeliverMerges(cfg, r, inputs[0]);
      }
      var s' := Pass(cfg, s, inputs[0]);
      if s'.status == Looping {
        RunMerges(cfg, s', inputs[1..]);
      }
    }
  }

  /** The merges in the history of the integration branch are the merge calls of the log that landed, in
      order and with their tickets. */
  lemma LandedAreCalls(cfg: Config, w: World, inputs: seq<Input>)
    requires WorldOk(cfg, w)
    ensures
      var v := RunOf(cfg, w, inputs).world;
      LandedIn(v.history) == CallsLanded(v.log)
  {
    RunPins(cfg, w, inputs);
    hide RunOf, InvEnd, LandedIn, CallsLanded, WorldOk;
  }

  lemma RunPins(cfg: Config, w: World, inputs: seq<Input>)
    requires WorldOk(cfg, w)
    ensures
      var v := RunOf(cfg, w, inputs).world;
      (forall k: nat :: PinAt(v.log, k)) && LandedIn(v.history) == CallsLanded(v.log)
  {
    BeginOk(cfg, w);
    BeginsLooping(cfg, w);
    NothingMerged(cfg, w);
    hide Inv, InvEnd, Run, Begin, PinAt, StandingOk;
    RunMerges(cfg, Begin(cfg, w), inputs);
  }

  lemma NothingMerged(cfg: Config, w: World)
    requires WorldOk(cfg, w)
    ensures MergesOk(Begin(cfg, w).running, Begin(cfg, w).world)
  {
  }

  /** In every run, each merge call of each ticket names a commit that the ticket's own flow verified at
      `v`, pushed at `p` and saw the gate pass at `g`, with no writing session of it since `v`. */
  lemma EveryMergeIsCleared(cfg: Config, w: World, inputs: seq<Input>, k: nat) returns (v: nat, p: nat, g: nat)
    requires WorldOk(cfg, w)
    requires
      var log := RunOf(cfg, w, inputs).world.log;
      k < |log| && log[k].effect.MergeCalled?
    ensures
      var log := RunOf(cfg, w, inputs).world.log;
      Cleared(OfTicket(log[..k], log[k].ticket), log[k].effect.pin, v, p, g)
  {
    RunPins(cfg, w, inputs);
    hide RunOf, InvEnd, Standings, OfTicket, Cleared, WorldOk;
    var log := RunOf(cfg, w, inputs).world.log;
    assert PinAt(log, k);
    v, p, g := StandingsJustified(OfTicket(log[..k], log[k].ticket));
  }
}

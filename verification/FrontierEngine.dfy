/** The scheduler as the program runs it: fields that the nested functions of the loop update in place.
    Every method is proved to be the action of the state machine it stands for. */
module FrontierEngine {
  import opened Wrappers
  import opened TicketFlow
  import opened IntegrationCheck
  import opened Board
  import opened Scheduler
  import opened SchedulerInvariant
  import opened SchedulerActions
  import opened Frontier
  import opened FrontierTheorems

  /** The `finally` of the loop: after an immediate stop, what is still in flight is parked. */
  function Abandon(s: State, readable: nat -> bool): State {
    if !s.immediate then s
    else
      s.(world := s.world.(cards := map t | t in s.world.cards ::
        if t in s.running then ParkCard(s.world.cards[t], readable(t)) else s.world.cards[t]))
  }

  class Engine {
    const cfg: Config
    const guard: IntegrationGuard
    var running: map<nat, Flow>
    var dispatched: set<nat>
    var waiting: seq<nat>
    var checker: Option<Check>
    var limited: bool
    var outstanding: multiset<nat>
    var draining: bool
    var immediate: bool
    var world: World
    var status: LoopStatus
    var jobs: nat
    var dispatches: multiset<nat>
    var requeues: multiset<nat>

    function View(): State
      reads this, guard
    {
      State(running, dispatched, waiting, guard.View(), checker, limited, outstanding, draining, immediate,
            world, status, jobs, dispatches, requeues)
    }

    constructor (cfg: Config, world: World)
      requires WorldOk(cfg, world)
      ensures this.cfg == cfg && fresh(guard) && View() == Begin(cfg, world)
    {
      this.cfg := cfg;
      this.guard := new IntegrationGuard(cfg.start);
      running, dispatched, waiting, checker, limited := map[], {}, [], None, false;
      outstanding, draining, immediate := multiset{}, false, false;
      this.world, status, jobs := world, Looping, 0;
      dispatches, requeues := multiset{}, multiset{};
    }

    /** The integration check ended. */
    method NoteChecked(result: CheckResult)
      modifies this, guard
      ensures View() == Checked(old(View()), result)
    {
      match result {
        case CheckGreen(sha) =>
          guard.NoteGreen(sha);
          world := world.(history := world.history + [TurnedGreen(sha)]);
        case CheckRed(_) =>
          guard.broken := true;
          draining := true;
      }
    }

    /** Steps the check in place. */
    method ResumeChecker(r: Reply, env: CheckEnv)
      requires checker.Some? && CheckFits(checker.value.at, r)
      modifies this, guard
      ensures View() == AdvanceCheck(cfg, old(View()), r, env)
    {
      hide AbsorbCheck, ResumeCheck, CheckFits, Checked;
      var step := ResumeCheck(checker.value, r, cfg.maxRounds, env, world.tip);
      match step {
        case CheckCrash =>
          status := Crashed;
        case CheckStep(c, effects) =>
          world := AbsorbCheck(world, effects);
          if c.at.CheckEnded? {
            checker := None;
            NoteChecked(c.at.result);
          } else {
            SuspendChecker(c);
          }
      }
    }

    method SuspendChecker(c: Check)
      modifies this`checker, this`outstanding
      ensures View() == old(View()).(checker := Some(c), outstanding := old(outstanding) + multiset{CHECKER})
    {
      checker := Some(c);
      outstanding := outstanding + multiset{CHECKER};
    }

    /** Steps the flow of one ticket in place: the fields end as the specification's state. */
    method Advance(number: nat, r: Reply, env: Env)
      requires number in running && number in world.cards && Fits(running[number].at, r)
      modifies this, guard
      ensures View() == AdvanceFlow(cfg, old(View()), number, r, env)
    {
      hide Absorb, Resume, Fits;
      var step := Resume(running[number], r, cfg.maxRounds, env);
      match step {
        case Crash =>
          status := Crashed;
        case Step(f, effects) =>
          world := Absorb(world, number, effects);
          if f.at.Ended? {
            EndFlow(number, f.at.status);
          } else {
            Suspend(number, f);
          }
      }
    }

    method EndFlow(number: nat, end: Status)
      modifies this`running, guard
      ensures View() == old(View()).(running := old(running) - {number},
                guard := if end == StatusIntegrated then old(guard.View()).NoteMerge(number) else old(guard.View()))
    {
      running := running - {number};
      if end == StatusIntegrated {
        guard.NoteMerge(number);
      }
    }

    method Suspend(number: nat, f: Flow)
      modifies this`running, this`waiting, this`outstanding
      ensures View() ==
        if f.at.AtGreen? then old(View()).(running := old(running)[number := f], waiting := old(waiting) + [number])
        else old(View()).(running := old(running)[number := f], outstanding := old(outstanding) + multiset{number})
    {
      running := running[number := f];
      if f.at.AtGreen? {
        waiting := waiting + [number];
      } else {
        outstanding := outstanding + multiset{number};
      }
    }

    method BeginCheck(tipReadable: bool, env: CheckEnv)
      requires checker.None?
      modifies this, guard
      ensures View() == StartCheck(cfg, old(View()), tipReadable, env)
    {
      hide AdvanceCheck;
      if !tipReadable {
        NoteChecked(CheckRed(world.tip));
        return;
      }
      guard.needsCheck := false;
      checker := Some(NewCheck(world.tip));
      ResumeChecker(Go, env);
    }

    /** Releases a prefix of `waiting`; no further one can be released afterwards. */
    method ReleaseWaiting(envOf: nat -> Env)
      requires Inv(cfg, View(), None) && status == Looping
      modifies this, guard
      ensures View() == Release(cfg, old(View()), envOf)
    {
      hide Inv, AdvanceFlow;
      ghost var start := View();
      while waiting != [] && !guard.needsCheck && !guard.broken && checker.None? && !limited && !immediate
        invariant Inv(cfg, View(), None) && status == Looping
        invariant Release(cfg, View(), envOf) == Release(cfg, start, envOf)
        decreases |waiting|
      {
        ReleaseOneKeeps(cfg, View(), envOf(waiting[0]));
        var number := waiting[0];
        waiting := waiting[1..];
        Advance(number, Go, envOf(number));
      }
    }

    /** End a flow and give its ticket back. */
    method Park(number: nat, readable: bool)
      requires number in running && number in world.cards
      modifies this`waiting, this`running, this`dispatched, this`requeues, this`world
      ensures View() == ParkFlow(old(View()), number, readable)
    {
      hide Without, ParkCard, Requeues;
      var card := world.cards[number];
      Drop(number, ParkCard(card, readable));
      if Requeues(card, readable) {
        dispatched, requeues := dispatched - {number}, requeues + multiset{number};
      }
    }

    method Drop(number: nat, card: Card)
      modifies this`waiting, this`running, this`world
      ensures View() == old(View()).(waiting := Without(old(waiting), number), running := old(running) - {number},
                world := old(world).(cards := old(world).cards[number := card]))
    {
      hide Without;
      waiting, running := Without(waiting, number), running - {number};
      world := world.(cards := world.cards[number := card]);
    }

    /** Drops the check and marks a new one as due. */
    method ParkChecker()
      modifies this`checker, guard
      ensures View() == ParkCheck(old(View()))
    {
      checker := None;
      guard.needsCheck := true;
    }

    /** Parks every waiting ticket; the loop runs over a copy, since each parking shortens `waiting`. */
    method ParkWaiting(readable: nat -> bool)
      requires Inv(cfg, View(), None)
      modifies this`waiting, this`running, this`dispatched, this`requeues, this`world
      ensures View() == ParkEach(cfg, old(View()), old(waiting), readable)
    {
      hide Inv, ParkFlow;
      ghost var start := View();
      WaitingIsParkList(cfg, View());
      var list := waiting;
      for i := 0 to |list|
        invariant Inv(cfg, View(), None) && ParkList(View(), list[i..])
        invariant ParkEach(cfg, View(), list[i..], readable) == ParkEach(cfg, start, list, readable)
      {
        ParkOneKeeps(cfg, View(), list[i..], readable(list[i]));
        NotTheChecker(cfg, View(), list[i]);
        assert list[i..][1..] == list[i + 1..];
        Park(list[i], readable(list[i]));
      }
    }

    method StartTicket(p: Pick, env: Env)
      requires p.number in world.cards
      modifies this, guard
      ensures View() == Dispatch(cfg, old(View()), p, env)
    {
      hide AdvanceFlow;
      dispatched := dispatched + {p.number};
      dispatches := dispatches + multiset{p.number};
      running := running[p.number := NewFlow(p.resume, world.cards[p.number].pr)];
      Advance(p.number, Go, env);
    }

    /** Dispatch what is ready, up to the free slots. */
    method DispatchReady(envOf: nat -> Env)
      requires Inv(cfg, View(), None) && status == Looping
      modifies this, guard
      ensures View() == FillSlots(cfg, old(View()), envOf)
    {
      hide Inv, Dispatch, Ready, PicksOk;
      if limited || draining || immediate || guard.needsCheck || guard.broken || checker.Some?
         || |running| >= cfg.parallel {
        return;
      }
      ReadyPicksOk(cfg, View());
      var picks := Take(Ready(cfg, View()), cfg.parallel - |running|);
      ghost var start := View();
      for i := 0 to |picks|
        invariant Inv(cfg, View(), None) && status == Looping && PicksOk(cfg, View(), picks[i..])
        invariant DispatchAll(cfg, View(), picks[i..], envOf) == DispatchAll(cfg, start, picks, envOf)
      {
        DispatchKeeps(cfg, View(), picks[i..], envOf(picks[i].number));
        assert picks[i..][1..] == picks[i + 1..];
        StartTicket(picks[i], envOf(picks[i].number));
      }
    }

    /** Nothing runs: return, exit on the usage limit, or wait for it to reset. */
    method WaitOrReturn(waitCut: bool)
      modifies this
      ensures forall input: Input | input.waitCut == waitCut :: View() == Idle(cfg, old(View()), input)
    {
      if !limited || draining || immediate {
        status := Returned;
      } else if !cfg.waitForReset {
        status := LimitExit;
      } else if waitCut {
        draining := true;
        status := Returned;
      } else {
        limited := false;
      }
    }

    /** Take one finished job off the queue. */
    method TakeFinished(input: Input)
      requires Inv(cfg, View(), None) && status == Looping
      modifies this, guard
      ensures View() == Deliver(cfg, old(View()), input)
    {
      hide Inv, IsLimited, Fits, CheckFits, Deliverable, Acted, Taken;
      if input.event.None? || !Deliverable(View(), input.event.value) {
        return;
      }
      if input.late {
        immediate := true;
        status := Returned;
        return;
      }
      CanAct(cfg, View(), input.event.value);
      DeliverActs(cfg, View(), input);
      TakeOff(input.event.value);
      ActOn(input.event.value, input.parkReadable);
    }

    method TakeOff(e: Event)
      modifies this`outstanding, this`jobs, this`limited
      ensures View() == Taken(old(View()), e)
    {
      hide IsLimited;
      outstanding, jobs, limited := outstanding - multiset{e.number}, jobs + 1, limited || IsLimited(e.reply);
    }

    /** A finished job: act on it, or park its flow once a limit is in force. */
    method ActOn(e: Event, readable: nat -> bool)
      requires e.number == CHECKER ==> checker.Some? && CheckFits(checker.value.at, e.reply)
      requires e.number != CHECKER ==>
        e.number in running && e.number in world.cards && Fits(running[e.number].at, e.reply)
      modifies this, guard
      ensures View() == Acted(cfg, old(View()), e, readable)
    {
      hide AdvanceFlow, AdvanceCheck, ParkFlow, ParkCheck, Fits, CheckFits;
      if limited {
        if e.number == CHECKER {
          ParkChecker();
        } else {
          Park(e.number, readable(e.number));
        }
      } else if e.number == CHECKER {
        ResumeChecker(e.reply, e.checkEnv);
      } else {
        Advance(e.number, e.reply, e.env);
      }
    }

    method PollStop(stop: StopRequest)
      modifies this`draining, this`immediate
      ensures View() == Poll(old(View()), stop)
    {
      match stop {
        case NoStop =>
        case DrainRequest => draining := true;
        case ImmediateRequest => immediate := true;
      }
    }

    /** Parks whoever waits for a merge that will not come: the branch is broken, or a limit is in force. */
    method GiveWaitingBack(readable: nat -> bool)
      requires Inv(cfg, View(), None)
      modifies this`waiting, this`running, this`dispatched, this`requeues, this`world
      ensures View() == GiveBack(cfg, old(View()), readable)
    {
      hide Inv, ParkEach;
      if guard.broken || limited {
        ParkWaiting(readable);
      }
    }

    method CheckBranch(input: Input)
      requires Inv(cfg, View(), None) && status == Looping
      modifies this, guard
      ensures View() == CheckIfDue(cfg, old(View()), input)
    {
      hide Inv, StartCheck;
      if guard.needsCheck && checker.None? && !limited && !guard.broken {
        BeginCheck(input.tipReadable, input.checkStart);
      }
    }

    /** Up to the dispatches. */
    method PreparePass(input: Input)
      requires Inv(cfg, View(), None) && status == Looping
      modifies this, guard
      ensures View() == Prepare(cfg, old(View()), input)
    {
      hide Inv, Release, GiveBack, CheckIfDue, FillSlots;
      PollKeeps(cfg, View(), input.stop);
      PollStop(input.stop);
      if immediate {
        status := Returned;
      } else {
        ReleaseWaiting(input.releaseEnv);
        GiveWaitingBack(input.parkReadable);
        CheckBranch(input);
        DispatchReady(input.startEnv);
      }
    }

    method LoopPass(input: Input)
      requires Inv(cfg, View(), None) && status == Looping
      modifies this, guard
      ensures View() == Pass(cfg, old(View()), input)
    {
      hide Inv, Prepare, Deliver, Idle;
      PreparePass(input);
      if status == Looping {
        if |running| == 0 && checker.None? {
          WaitOrReturn(input.waitCut);
        } else {
          TakeFinished(input);
        }
      }
    }

    /** The loop, and its `finally`. */
    method WorkFrontier(inputs: seq<Input>, readable: nat -> bool)
      requires Inv(cfg, View(), None) && status == Looping
      modifies this, guard
      ensures View() == Abandon(Run(cfg, old(View()), inputs), readable)
    {
      hide Inv, InvEnd, Pass, ParkCard;
      ghost var start := View();
      var i := 0;
      assert inputs[0..] == inputs;
      while i < |inputs| && status == Looping
        invariant i <= |inputs|
        invariant if status == Looping then
                    Inv(cfg, View(), None) && Run(cfg, View(), inputs[i..]) == Run(cfg, start, inputs)
                  else View() == Run(cfg, start, inputs)
      {
        assert inputs[i..][1..] == inputs[i + 1..];
        LoopPass(inputs[i]);
        i := i + 1;
      }
      if immediate {
        RequeueInFlight(readable);
      }
    }

    method RequeueInFlight(readable: nat -> bool)
      requires immediate
      modifies this`world
      ensures View() == Abandon(old(View()), readable)
    {
      hide ParkCard;
      ghost var cards := world.cards;
      var left := running.Keys;
      while left != {}
        invariant left <= running.Keys && world == old(world).(cards := world.cards) && world.cards.Keys == cards.Keys
        invariant forall t | t in cards ::
          world.cards[t] == (if t in running && t !in left then ParkCard(cards[t], readable(t)) else cards[t])
        decreases left
      {
        var t :| t in left;
        if t in world.cards {
          world := world.(cards := world.cards[t := ParkCard(world.cards[t], readable(t))]);
        }
        left := left - {t};
      }
      assert world.cards == Abandon(old(View()), readable).world.cards;
    }
  }

  lemma WaitingIsParkList(cfg: Config, s: State)
    requires Inv(cfg, s, None)
    ensures ParkList(s, s.waiting)
  {
  }

  lemma NotTheChecker(cfg: Config, s: State, t: nat)
    requires Inv(cfg, s, None) && t in s.running
    ensures t != CHECKER
  {
    assert FlowPlaced(cfg, s, None, t);
  }
}

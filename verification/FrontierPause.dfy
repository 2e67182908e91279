/** A usage limit is only a pause, a broken branch ends the run, and a return leaves nothing ready. */
module FrontierPause {
  import opened Wrappers
  import opened Board
  import opened Sorting
  import opened TicketFlow
  import opened TicketFlowProofs
  import opened IntegrationCheck
  import opened Graph
  import opened Scheduler
  import opened SchedulerInvariant
  import opened SchedulerActions
  import opened Frontier
  import opened FrontierProgress
  import Markers

  // A pause.

  /** Nothing but parking happened between `s` and `s'`: no flow was advanced, dispatched or merged, no
      check was started or advanced, and a ticket that left `running` was parked by what its PR says. */
  predicate OnlyParked(s: State, s': State, readable: nat -> bool) {
    && s'.world.(cards := s.world.cards) == s.world && s'.world.cards.Keys == s.world.cards.Keys
    && s'.guard.green == s.guard.green && s'.guard.broken == s.guard.broken && s'.guard.merged == s.guard.merged
    && s'.running.Keys <= s.running.Keys && (forall t | t in s'.running :: s'.running[t] == s.running[t])
    && s'.dispatched <= s.dispatched && s'.dispatches == s.dispatches
    && (s'.checker == s.checker || s'.checker == None)
    && forall t | t in s.world.cards ::
         s'.world.cards[t] ==
           if t in s.running && t !in s'.running then ParkCard(s.world.cards[t], readable(t)) else s.world.cards[t]
  }

  lemma OnlyParkedTwice(a: State, b: State, c: State, readable: nat -> bool)
    requires OnlyParked(a, b, readable) && OnlyParked(b, c, readable)
    ensures OnlyParked(a, c, readable)
  {
    hide ParkCard;
  }

  lemma ParkFlowOnly(s: State, t: nat, readable: nat -> bool)
    requires t in s.running && t in s.world.cards
    ensures OnlyParked(s, ParkFlow(s, t, readable(t)), readable)
  {
    hide ParkCard, Without, Requeues;
  }

  lemma {:induction false} ParkEachOnly(cfg: Config, s: State, list: seq<nat>, readable: nat -> bool)
    requires Inv(cfg, s, None) && ParkList(s, list)
    ensures OnlyParked(s, ParkEach(cfg, s, list, readable), readable)
    ensures forall t | t in ParkEach(cfg, s, list, readable).running :: t !in list
    decreases |list|
  {
    hide Inv, ParkFlow, ParkList, OnlyParked;
    if list != [] {
      ParkOneKeeps(cfg, s, list, readable(list[0]));
      var s' := ParkFlow(s, list[0], readable(list[0]));
      ParkFlowOnly(s, list[0], readable);
      ParkEachOnly(cfg, s', list[1..], readable);
      OnlyParkedTwice(s, s', ParkEach(cfg, s', list[1..], readable), readable);
      Parked(s, list[0], readable(list[0]));
      KeysShrink(s', ParkEach(cfg, s', list[1..], readable), readable);
      assert list == [list[0]] + list[1..];
    } else {
      NothingParked(s, readable);
    }
  }

  lemma Parked(s: State, t: nat, readable: bool)
    requires t in s.running && t in s.world.cards
    ensures t !in ParkFlow(s, t, readable).running
  {
  }

  lemma KeysShrink(s: State, s': State, readable: nat -> bool)
    requires OnlyParked(s, s', readable)
    ensures s'.running.Keys <= s.running.Keys
  {
  }

  lemma NothingParked(s: State, readable: nat -> bool)
    ensures OnlyParked(s, s, readable)
  {
  }

  lemma FlagsOnly(s: State, s': State, readable: nat -> bool)
    requires s' == s.(draining := s'.draining, immediate := s'.immediate, limited := s'.limited,
                      status := s'.status, outstanding := s'.outstanding, jobs := s'.jobs)
    ensures OnlyParked(s, s', readable)
  {
  }

  /** While a limit is in force, the stages before the event release, check and dispatch nothing. */
  lemma LimitedPrepare(cfg: Config, s: State, input: Input)
    requires Inv(cfg, s, None) && s.status == Looping && s.limited
    ensures OnlyParked(s, Prepare(cfg, s, input), input.parkReadable) && Prepare(cfg, s, input).limited
  {
    hide Inv, OnlyParked, ParkEach;
    PollKeeps(cfg, s, input.stop);
    var polled := Poll(s, input.stop);
    FlagsOnly(s, polled, input.parkReadable);
    if polled.immediate {
      FlagsOnly(s, Prepare(cfg, s, input), input.parkReadable);
    } else {
      assert Release(cfg, polled, input.releaseEnv) == polled;
      WholeList(cfg, polled);
      var given := GiveBack(cfg, polled, input.parkReadable);
      ParkEachOnly(cfg, polled, polled.waiting, input.parkReadable);
      GivenBack(cfg, polled, input.parkReadable);
      OnlyParkedTwice(s, polled, given, input.parkReadable);
      assert given.limited;
      assert Prepare(cfg, s, input) == given;
    }
  }

  lemma WholeList(cfg: Config, s: State)
    requires Inv(cfg, s, None)
    ensures ParkList(s, s.waiting)
  {
  }

  lemma LimitedDeliver(cfg: Config, s: State, input: Input)
    requires Inv(cfg, s, None) && s.status == Looping
    requires s.limited || (input.event.Some? && IsLimited(input.event.value.reply))
    ensures OnlyParked(s, Deliver(cfg, s, input), input.parkReadable)
  {
    var s' := Deliver(cfg, s, input);
    hide Inv, OnlyParked, ParkFlow, IsLimited;
    if input.event.Some? && Deliverable(s, input.event.value) && !input.late {
      var e := input.event.value;
      var taken := Taken(s, e);
      FlagsOnly(s, taken, input.parkReadable);
      if e.number == CHECKER {
        ParkCheckOnly(taken, input.parkReadable);
      } else {
        ParkFlowOnly(taken, e.number, input.parkReadable);
      }
      OnlyParkedTwice(s, taken, s', input.parkReadable);
    } else {
      FlagsOnly(s, s', input.parkReadable);
    }
  }

  lemma ParkCheckOnly(s: State, readable: nat -> bool)
    ensures OnlyParked(s, ParkCheck(s), readable)
  {
  }

  /** A usage limit is only a pause. In every pass that starts with a limit in force, up to and
      including the one in which the wait ends, no flow is advanced, dispatched or merged and no check
      starts: tickets are only parked, each by what its PR says. */
  lemma LimitIsAPause(cfg: Config, s: State, input: Input)
    requires Inv(cfg, s, None) && s.status == Looping && s.limited
    ensures OnlyParked(s, Pass(cfg, s, input), input.parkReadable)
    ensures !Pass(cfg, s, input).limited ==>
      Pass(cfg, s, input).running == map[] && Pass(cfg, s, input).checker.None? && cfg.waitForReset
  {
    hide Inv, Prepare, Deliver, OnlyParked;
    LimitedPrepare(cfg, s, input);
    var r := Prepare(cfg, s, input);
    var s' := Pass(cfg, s, input);
    if r.status == Looping {
      if |r.running| == 0 && r.checker.None? {
        FlagsOnly(r, s', input.parkReadable);
        assert |r.running.Keys| == 0;
      } else {
        LimitedDeliver(cfg, r, input);
        DeliverStaysLimited(cfg, r, input);
      }
      OnlyParkedTwice(s, r, s', input.parkReadable);
    }
  }

  lemma DeliverStaysLimited(cfg: Config, s: State, input: Input)
    requires Inv(cfg, s, None) && s.status == Looping && s.limited
    ensures Deliver(cfg, s, input).limited
  {
    hide Inv, Without, ParkCard;
  }

  /** A limit is also seen inside a gate's answer: in its first session, or in the fresh one that runs
      after a healthy first session gave no verdict. */
  lemma LimitInsideAGate(first: Markers.SessionResult, second: Markers.SessionResult)
    ensures IsLimited(GateEnded(first, second)) <==>
      first.usageLimit || (Markers.Usable(first) && Markers.VerdictOf(first) == Markers.Unparsable && second.usageLimit)
  {
    hide Markers.ParseVerdict;
  }

  /** Which answers hit a limit: a limited session, a gate whose first session is limited, and a gate whose
      healthy first session gave no verdict and whose second one is limited. */
  lemma LimitMeaning(r: Reply)
    ensures IsLimited(r) <==>
      || (r.SessionEnded? && r.result.usageLimit)
      || (r.GateEnded? && (r.first.usageLimit || (Markers.Usable(r.first)
            && Markers.VerdictOf(r.first) == Markers.Unparsable && r.second.usageLimit)))
  {
    if r.GateEnded? {
      LimitInsideAGate(r.first, r.second);
    }
    hide Markers.ParseVerdict, GateResult;
  }

  /** A parked ticket leaves the flows and the wait; this run may dispatch it again exactly if its PR could be
      read and is not open. */
  lemma ParkMeaning(s: State, t: nat, readable: bool)
    requires t in s.running && t in s.world.cards && t in s.dispatched && NoRepeats(s.waiting)
    ensures
      var s' := ParkFlow(s, t, readable);
      && s'.running == s.running - {t} && t !in s'.waiting
      && (t !in s'.dispatched <==> readable && s.world.cards[t].pr != Open)
      && s'.dispatched + {t} == s.dispatched && s'.dispatches == s.dispatches
  {
    WithoutKeeps(s.waiting, t);
    hide Without, ParkCard;
  }

  /** The first limited answer parks its own flow: it never reaches it. The limit is then in force. */
  lemma LimitedAnswerParks(cfg: Config, s: State, input: Input)
    requires Inv(cfg, s, None) && s.status == Looping && !input.late
    requires input.event.Some? && Deliverable(s, input.event.value) && IsLimited(input.event.value.reply)
    ensures
      var s', n := Deliver(cfg, s, input), input.event.value.number;
      && OnlyParked(s, s', input.parkReadable) && s'.limited && s'.status == Looping
      && (if n == CHECKER then s'.checker == None && s'.guard.needsCheck else n !in s'.running)
  {
    LimitedDeliver(cfg, s, input);
    hide Inv, OnlyParked, IsLimited, Without, ParkCard;
  }

  // When nothing is left to run.

  /** Nothing runs and no check exists once the pass has prepared. */
  predicate RunsDry(cfg: Config, s: State, input: Input)
    requires Inv(cfg, s, None) && s.status == Looping
  {
    var r := Prepare(cfg, s, input);
    r.status == Looping && r.running == map[] && r.checker.None?
  }

  /** Such a pass returns exactly if no limit is in force, a stop was requested, or a stop cuts the wait
      short, and then the stop is recorded; it exits on the limit exactly if the run is not to wait; and it
      lifts the limit and goes on exactly after a whole wait. It changes nothing else. */
  lemma DryPass(cfg: Config, s: State, input: Input)
    requires Inv(cfg, s, None) && s.status == Looping && RunsDry(cfg, s, input)
    ensures
      var r, s' := Prepare(cfg, s, input), Pass(cfg, s, input);
      var waits := s.limited && !r.Draining() && cfg.waitForReset;
      && (s'.status == Returned <==> !s.limited || r.Draining() || (waits && input.waitCut))
      && (s'.status == LimitExit <==> s.limited && !r.Draining() && !cfg.waitForReset)
      && (s'.status == Looping <==> waits && !input.waitCut)
      && (s'.draining <==> r.draining || (waits && input.waitCut))
      && (s'.limited <==> s.limited && !(waits && !input.waitCut))
      && s' == r.(status := s'.status, draining := s'.draining, limited := s'.limited)
  {
    hide Inv, Prepare, Deliver;
    PrepareLimit(cfg, s, input);
    assert |Prepare(cfg, s, input).running| == 0;
  }

  /** A wait that a stop cuts short ends the run, whatever inputs would follow: the stop is recorded, the
      limit stays, and nothing was dispatched. */
  lemma CutWaitIsFinal(cfg: Config, s: State, inputs: seq<Input>)
    requires Inv(cfg, s, None) && s.status == Looping && s.limited && inputs != []
    requires RunsDry(cfg, s, inputs[0]) && !Prepare(cfg, s, inputs[0]).Draining()
    requires cfg.waitForReset && inputs[0].waitCut
    ensures
      var r := Run(cfg, s, inputs);
      r.status == Returned && r.draining && r.limited && r.running == map[] && r.dispatches == s.dispatches
  {
    hide Inv, InvEnd, Pass, Prepare;
    DryPass(cfg, s, inputs[0]);
    LimitIsAPause(cfg, s, inputs[0]);
  }

  // A broken branch.

  lemma BrokenDrains(cfg: Config, s: State)
    requires Inv(cfg, s, None) && s.guard.broken
    ensures s.draining
  {
  }

  lemma BrokenPrepare(cfg: Config, s: State, input: Input)
    requires Inv(cfg, s, None) && s.status == Looping && s.guard.broken && s.outstanding == multiset{}
    ensures
      var r := Prepare(cfg, s, input);
      r.status == Returned || (r.status == Looping && r.running == map[] && r.checker.None? && r.Draining())
  {
    hide Inv, GiveBack, AllWait;
    NothingOutstanding(cfg, s);
    BrokenDrains(cfg, s);
    PollKeeps(cfg, s, input.stop);
    var polled := Poll(s, input.stop);
    if !polled.immediate {
      AllGivenBack(cfg, polled, input.parkReadable);
    }
  }

  lemma AllGivenBack(cfg: Config, s: State, readable: nat -> bool)
    requires Inv(cfg, s, None) && s.guard.broken && AllWait(s)
    ensures
      var given := GiveBack(cfg, s, readable);
      given.running == map[] && given.checker.None? && given.guard.broken && (s.Draining() ==> given.Draining())
  {
    hide Inv, OnlyParked, ParkEach, AllWait;
    WholeList(cfg, s);
    ParkEachOnly(cfg, s, s.waiting, readable);
    GivenBack(cfg, s, readable);
    var given := GiveBack(cfg, s, readable);
    KeysShrink(s, given, readable);
    NoneLeft(s, given);
  }

  lemma NoneLeft(s: State, given: State)
    requires AllWait(s) && given.running.Keys <= s.running.Keys && forall t | t in given.running :: t !in s.waiting
    ensures given.running == map[] && s.checker.None?
  {
    assert forall t | t in given.running :: t in s.running;
  }

  /** With the branch broken and no job outstanding, the next pass ends the run: no deadlock there. */
  lemma BrokenEnds(cfg: Config, s: State, input: Input)
    requires Inv(cfg, s, None) && s.status == Looping && s.guard.broken && s.outstanding == multiset{}
    ensures Pass(cfg, s, input).status == Returned
  {
    hide Inv, Prepare, Deliver;
    BrokenPrepare(cfg, s, input);
    var r := Prepare(cfg, s, input);
    if r.status == Looping {
      assert |r.running| == 0;
    }
  }

  // A return.

  /** The state of a pass right before it dispatches. */
  function BeforeDispatch(cfg: Config, s: State, input: Input): (r: State)
    requires Inv(cfg, s, None) && s.status == Looping && !Poll(s, input.stop).immediate
    ensures Inv(cfg, r, None) && r.status == Looping
  {
    hide Inv, Release, GiveBack;
    PollKeeps(cfg, s, input.stop);
    CheckIfDue(cfg, GiveBack(cfg, Release(cfg, Poll(s, input.stop), input.releaseEnv), input.parkReadable), input)
  }

  lemma PreparedBy(cfg: Config, s: State, input: Input)
    requires Inv(cfg, s, None) && s.status == Looping && !Poll(s, input.stop).immediate
    ensures Prepare(cfg, s, input) == FillSlots(cfg, BeforeDispatch(cfg, s, input), input.startEnv)
  {
    hide Inv, Release, GiveBack, CheckIfDue, FillSlots;
    PollKeeps(cfg, s, input.stop);
  }

  /** What is ready after some of it was dispatched is what was ready and was not dispatched. */
  lemma ReadyAfter(cfg: Config, s: State, s': State, among: set<nat>)
    requires Inv(cfg, s, None) && Inv(cfg, s', None) && OnlyDispatched(s, s', among)
    requires forall t | t in among :: t in s.world.cards && Integrated !in s.world.cards[t].labels
    requires forall t | t in among :: Integrated !in s'.world.cards[t].labels
    ensures forall p :: p in Ready(cfg, s') <==> p in Ready(cfg, s) && p.number !in among
  {
    forall p
      ensures p in Ready(cfg, s') <==> p in Ready(cfg, s) && p.number !in among
    {
      ReadyMeaning(cfg, s, p);
      ReadyMeaning(cfg, s', p);
      if !p.resume && p.number !in among {
        FrontierAfter(cfg, s, s', among, p.number);
      }
    }
  }

  predicate OnFrontier(cfg: Config, w: World, t: nat) {
    exists i | 0 <= i < |cfg.heads| ::
      cfg.heads[i].number == t && IsReady(IssueOf(cfg.heads[i], w), Issues(cfg, w), cfg.blockers)
  }

  lemma ReadyMeaning(cfg: Config, s: State, p: Pick)
    ensures p in Ready(cfg, s) <==>
      p.number !in s.dispatched && (if p.resume then p.number in cfg.resumes else OnFrontier(cfg, s.world, p.number))
  {
    var issues := Issues(cfg, s.world);
    var frontier := Dispatchable(issues, cfg.blockers);
    DispatchableMeaning(issues, cfg.blockers);
    hide Dispatchable, IsReady;
    assert p.number in IssueNumbers(frontier) <==> OnFrontier(cfg, s.world, p.number) by {
      if p.number in IssueNumbers(frontier) {
        var i :| 0 <= i < |frontier| && frontier[i].number == p.number;
        assert frontier[i] in frontier;
        var j :| 0 <= j < |issues| && issues[j] == frontier[i];
        assert issues[j] == IssueOf(cfg.heads[j], s.world);
      }
      if OnFrontier(cfg, s.world, p.number) {
        var i :| 0 <= i < |cfg.heads| && cfg.heads[i].number == p.number
                 && IsReady(IssueOf(cfg.heads[i], s.world), issues, cfg.blockers);
        assert issues[i] in issues && issues[i] in frontier;
        var j :| 0 <= j < |frontier| && frontier[j] == issues[i];
        assert IssueNumbers(frontier)[j] == p.number;
      }
    }
  }

  predicate HasKey(h: Head, k: Key) {
    h.number == k.number && h.repo == k.repo
  }

  lemma LookupHead(cfg: Config, w: World, k: Key, j: nat)
    requires ConfigOk(cfg) && j < |cfg.heads| && HasKey(cfg.heads[j], k)
    ensures Lookup(Issues(cfg, w), k) == Some(IssueOf(cfg.heads[j], w))
  {
    var issues := Issues(cfg, w);
    assert issues[j] in issues && issues[j].KeyOf() == k;
    var found := Lookup(issues, k).value;
    var i :| 0 <= i < |issues| && issues[i] == found;
    assert cfg.heads[i].number == cfg.heads[j].number;
  }

  lemma LookupNone(cfg: Config, w: World, k: Key)
    requires forall j | 0 <= j < |cfg.heads| :: !HasKey(cfg.heads[j], k)
    ensures Lookup(Issues(cfg, w), k) == None
  {
    var issues := Issues(cfg, w);
    forall t | t in issues
      ensures t.KeyOf() != k
    {
      var i :| 0 <= i < |issues| && issues[i] == t;
      assert !HasKey(cfg.heads[i], k);
    }
  }

  /** `t`'s issue reads the same, and whether it is integrated reads the same of every issue. */
  predicate SameIntegrated(cfg: Config, w: World, w': World) {
    forall j | 0 <= j < |cfg.heads| ::
      Integrated in IssueOf(cfg.heads[j], w').labels <==> Integrated in IssueOf(cfg.heads[j], w).labels
  }

  lemma SatisfiedAfter(cfg: Config, w: World, w': World, b: Blocker)
    requires ConfigOk(cfg) && SameIntegrated(cfg, w, w')
    ensures Satisfied(b, Issues(cfg, w')) <==> Satisfied(b, Issues(cfg, w))
  {
    if j :| 0 <= j < |cfg.heads| && HasKey(cfg.heads[j], b.KeyOf()) {
      LookupHead(cfg, w, b.KeyOf(), j);
      LookupHead(cfg, w', b.KeyOf(), j);
    } else {
      LookupNone(cfg, w, b.KeyOf());
      LookupNone(cfg, w', b.KeyOf());
    }
  }

  lemma FrontierAfter(cfg: Config, s: State, s': State, among: set<nat>, t: nat)
    requires Inv(cfg, s, None) && OnlyDispatched(s, s', among) && t !in among
    requires forall u | u in among :: u in s.world.cards && Integrated !in s.world.cards[u].labels
    requires forall u | u in among :: Integrated !in s'.world.cards[u].labels
    ensures OnFrontier(cfg, s'.world, t) <==> OnFrontier(cfg, s.world, t)
  {
    var w, w' := s.world, s'.world;
    CardsElsewhere(s, s', among);
    assert ConfigOk(cfg);
    hide Inv, OnlyDispatched, Satisfied;
    assert SameIntegrated(cfg, w, w');
    forall b
      ensures Satisfied(b, Issues(cfg, w')) <==> Satisfied(b, Issues(cfg, w))
    {
      SatisfiedAfter(cfg, w, w', b);
    }
    hide SameIntegrated, Issues;
    forall i | 0 <= i < |cfg.heads| && cfg.heads[i].number == t
      ensures IsReady(IssueOf(cfg.heads[i], w'), Issues(cfg, w'), cfg.blockers) <==>
              IsReady(IssueOf(cfg.heads[i], w), Issues(cfg, w), cfg.blockers)
    {
      assert IssueOf(cfg.heads[i], w') == IssueOf(cfg.heads[i], w);
    }
  }

  lemma CardsElsewhere(s: State, s': State, among: set<nat>)
    requires OnlyDispatched(s, s', among)
    ensures s'.world.cards.Keys == s.world.cards.Keys
    ensures forall u | u in s.world.cards && u !in among :: s'.world.cards[u] == s.world.cards[u]
  {
    forall u | u in s.world.cards && u !in among
      ensures s'.world.cards[u] == s.world.cards[u]
    {
      assert u in s.world.cards - among;
      assert s'.world.cards[u] == (s'.world.cards - among)[u] == (s.world.cards - among)[u] == s.world.cards[u];
    }
  }

  /** How a pass can end the run with no stop requested. */
  lemma ReturnShape(cfg: Config, s: State, input: Input)
    requires Inv(cfg, s, None) && s.status == Looping
    requires Pass(cfg, s, input).status == Returned && !Pass(cfg, s, input).Draining()
    ensures !Poll(s, input.stop).immediate
    ensures
      var r := FillSlots(cfg, BeforeDispatch(cfg, s, input), input.startEnv);
      && Pass(cfg, s, input) == r.(status := Returned)
      && !r.limited && r.running == map[] && r.checker.None? && !r.Draining()
  {
    hide Inv, Release, GiveBack, CheckIfDue, FillSlots, Deliver;
    PollKeeps(cfg, s, input.stop);
    var r := Prepare(cfg, s, input);
    if r.status == Looping {
      if |r.running| == 0 && r.checker.None? {
        assert |r.running.Keys| == 0;
      } else {
        DeliverReturns(cfg, r, input);
      }
    }
  }

  lemma DeliverReturns(cfg: Config, s: State, input: Input)
    requires Inv(cfg, s, None) && s.status == Looping
    ensures Deliver(cfg, s, input).status == Returned ==> Deliver(cfg, s, input).Draining()
  {
    hide Inv, Resume, ResumeCheck, Absorb, AbsorbCheck, ParkCard, Without;
  }

  /** A pass that ends the run with no stop requested was settled right before it dispatched, and with
      nothing running: it dispatched what was ready, up to `parallel`, and all of it ended at once. */
  lemma SettledBefore(cfg: Config, s: State, input: Input)
    requires Inv(cfg, s, None) && s.status == Looping
    requires Pass(cfg, s, input).status == Returned && !Pass(cfg, s, input).Draining()
    ensures !Poll(s, input.stop).immediate
    ensures
      var x := BeforeDispatch(cfg, s, input);
      && x.Settled() && x.running == map[] && !x.limited && !x.Draining()
      && OnlyDispatched(x, FillSlots(cfg, x, input.startEnv), NumbersIn(Take(Ready(cfg, x), cfg.parallel)))
      && Pass(cfg, s, input) == FillSlots(cfg, x, input.startEnv).(status := Returned)
  {
    ReturnShape(cfg, s, input);
    CheckedBefore(cfg, s, input);
    hide Inv, FillSlots, Pass, Ready, Take, NumbersIn, OnlyDispatched, BeforeDispatch;
    SettledHere(cfg, BeforeDispatch(cfg, s, input), input.startEnv);
  }

  lemma SettledHere(cfg: Config, x: State, envOf: nat -> Env)
    requires Inv(cfg, x, None) && x.status == Looping
    requires !x.limited && x.checker.None? && !x.guard.broken ==> x.Settled()
    requires
      var r := FillSlots(cfg, x, envOf);
      !r.limited && r.running == map[] && r.checker.None? && !r.Draining()
    ensures x.Settled() && x.running == map[] && !x.limited && !x.Draining()
    ensures OnlyDispatched(x, FillSlots(cfg, x, envOf), NumbersIn(Take(Ready(cfg, x), cfg.parallel)))
  {
    hide Inv, FillSlots, Ready, Take, NumbersIn, OnlyDispatched;
    FillSlotsOnly(cfg, x, envOf);
    var r := FillSlots(cfg, x, envOf);
    if CanDispatch(cfg, x) {
      ModeBefore(x, r, NumbersIn(Take(Ready(cfg, x), cfg.parallel - |x.running|)));
    }
    if x.guard.broken {
      BrokenDrains(cfg, x);
    }
    ParallelRoom(cfg, x, r);
  }

  lemma ModeBefore(x: State, r: State, among: set<nat>)
    requires OnlyDispatched(x, r, among)
    ensures x.limited == r.limited && x.checker == r.checker && x.Draining() == r.Draining()
  {
  }

  /** A check that was due has been started. */
  lemma CheckedBefore(cfg: Config, s: State, input: Input)
    requires Inv(cfg, s, None) && s.status == Looping && !Poll(s, input.stop).immediate
    ensures
      var x := BeforeDispatch(cfg, s, input);
      !x.limited && x.checker.None? && !x.guard.broken ==> x.Settled()
  {
    hide Inv, Release, GiveBack, CheckIfDue;
    PollKeeps(cfg, s, input.stop);
    var given := GiveBack(cfg, Release(cfg, Poll(s, input.stop), input.releaseEnv), input.parkReadable);
    CheckStarts(cfg, given, input);
  }

  lemma ParallelRoom(cfg: Config, x: State, r: State)
    requires Inv(cfg, x, None) && x.Settled() && !x.limited && !x.Draining() && r.running == map[]
    requires
      if CanDispatch(cfg, x) then OnlyDispatched(x, r, NumbersIn(Take(Ready(cfg, x), cfg.parallel - |x.running|)))
      else r == x
    ensures x.running == map[] && CanDispatch(cfg, x)
  {
    hide Inv, Ready, Take, NumbersIn, OnlyDispatched;
    RunningDispatched(cfg, x);
    if CanDispatch(cfg, x) {
      FreshNumbers(cfg, x, cfg.parallel - |x.running|);
      RunningStays(x, r, NumbersIn(Take(Ready(cfg, x), cfg.parallel - |x.running|)));
      assert x.running.Keys <= r.running.Keys == {};
    }
  }

  lemma RunningDispatched(cfg: Config, x: State)
    requires Inv(cfg, x, None)
    ensures x.running.Keys <= x.dispatched && |x.running| <= cfg.parallel && cfg.parallel >= 1
  {
    hide CardsOk, GreenOk, JobsOk, FlowOk;
    forall t | t in x.running
      ensures t in x.dispatched
    {
      assert FlowPlaced(cfg, x, None, t);
    }
  }

  lemma RunningStays(x: State, r: State, among: set<nat>)
    requires OnlyDispatched(x, r, among) && forall t | t in among :: t !in x.running
    ensures x.running.Keys <= r.running.Keys
  {
    forall t | t in x.running
      ensures t in r.running
    {
      assert t in x.running - among;
    }
  }

  lemma FreshNumbers(cfg: Config, x: State, n: nat)
    requires Inv(cfg, x, None)
    ensures forall t | t in NumbersIn(Take(Ready(cfg, x), n)) :: t !in x.dispatched
  {
    ReadyOk(cfg, x);
    hide Ready, Inv;
    forall t | t in NumbersIn(Take(Ready(cfg, x), n))
      ensures t !in x.dispatched
    {
      var p :| p in Take(Ready(cfg, x), n) && p.number == t;
      assert p in Ready(cfg, x) && PickOk(cfg, x, p);
    }
  }

  predicate DistinctPicks(picks: seq<Pick>) {
    forall i, j | 0 <= i < j < |picks| :: picks[i].number != picks[j].number
  }

  /** Of picks with distinct numbers, the first `n` are those whose number is among the first `n`: any
      left over when there are more. */
  lemma LeftOver(ready: seq<Pick>, n: nat)
    requires DistinctPicks(ready)
    ensures (forall p | p in ready :: p.number in NumbersIn(Take(ready, n))) <==> |ready| <= n
  {
    if |ready| <= n {
      assert Take(ready, n) == ready;
    } else {
      var p := ready[n];
      forall q | q in ready[..n]
        ensures q.number != p.number
      {
        var i :| 0 <= i < n && ready[i] == q;
      }
      assert p in ready;
    }
  }

  lemma ReadyDistinct(cfg: Config, s: State)
    requires Inv(cfg, s, None)
    ensures DistinctPicks(Ready(cfg, s))
  {
    ReadyOk(cfg, s);
    hide Ready, PickOk;
  }

  lemma ReadySame(cfg: Config, s: State, s': State)
    requires s'.dispatched == s.dispatched && s'.world == s.world
    ensures Ready(cfg, s') == Ready(cfg, s)
  {
  }

  lemma NotIntegratedYet(cfg: Config, x: State, n: nat)
    requires Inv(cfg, x, None)
    ensures forall t | t in NumbersIn(Take(Ready(cfg, x), n)) ::
      t in x.world.cards && Integrated !in x.world.cards[t].labels
  {
    ReadyOk(cfg, x);
    hide Ready, Inv, PickOk;
    forall t | t in NumbersIn(Take(Ready(cfg, x), n))
      ensures t in x.world.cards && Integrated !in x.world.cards[t].labels
    {
      var p :| p in Take(Ready(cfg, x), n) && p.number == t;
      assert p in Ready(cfg, x);
      PickedCard(cfg, x, p);
    }
  }

  lemma PickedCard(cfg: Config, x: State, p: Pick)
    requires PickOk(cfg, x, p)
    ensures p.number in x.world.cards && Integrated !in x.world.cards[p.number].labels
  {
    var card := x.world.cards[p.number];
    assert Integrated in card.labels ==> Integrated in card.labels * STATES;
  }

  lemma AmongAfter(x: State, r: State, among: set<nat>)
    requires OnlyDispatched(x, r, among) && forall t | t in among :: t in x.world.cards
    ensures forall t | t in among :: t in r.world.cards && Integrated !in r.world.cards[t].labels
  {
  }

  /** A normal return leaves nothing ready, exactly if no more was ready than there were slots. (If
      more was, everything dispatched failed at its setup, and the rest stays for a later run.) */
  lemma ReturnLeavesNoneReady(cfg: Config, s: State, input: Input)
    requires Inv(cfg, s, None) && s.status == Looping
    requires Pass(cfg, s, input).status == Returned && !Pass(cfg, s, input).Draining()
    ensures !Poll(s, input.stop).immediate
    ensures
      Ready(cfg, Pass(cfg, s, input)) == [] <==> |Ready(cfg, BeforeDispatch(cfg, s, input))| <= cfg.parallel
  {
    SettledBefore(cfg, s, input);
    hide Inv, Pass, BeforeDispatch, Ready, FillSlots, OnlyDispatched, NumbersIn, Take, DistinctPicks;
    var x := BeforeDispatch(cfg, s, input);
    var r := FillSlots(cfg, x, input.startEnv);
    var ready := Ready(cfg, x);
    var among := NumbersIn(Take(ready, cfg.parallel));
    NotIntegratedYet(cfg, x, cfg.parallel);
    AmongAfter(x, r, among);
    ReadyAfter(cfg, x, r, among);
    ReadySame(cfg, r, Pass(cfg, s, input));
    ReadyDistinct(cfg, x);
    LeftOver(ready, cfg.parallel);
    var left := Ready(cfg, r);
    if left != [] {
      assert left[0] in left;
    }
    assert left == [] <==> forall p | p in ready :: p.number in among;
  }

  /** And it is settled: nothing runs, no check runs or is due, no limit is in force. */
  lemma ReturnIsSettled(cfg: Config, s: State, input: Input)
    requires Inv(cfg, s, None) && s.status == Looping
    requires Pass(cfg, s, input).status == Returned && !Pass(cfg, s, input).Draining()
    ensures
      var s' := Pass(cfg, s, input);
      Inv(cfg, s', None) && s'.Settled() && s'.running == map[] && !s'.limited
  {
    ReturnShape(cfg, s, input);
    SettledBefore(cfg, s, input);
    var x := BeforeDispatch(cfg, s, input);
    var r := FillSlots(cfg, x, input.startEnv);
    FlagsKeep(cfg, r, Pass(cfg, s, input));
    hide Inv, Pass, BeforeDispatch, Ready, FillSlots, NumbersIn, Take;
  }
}

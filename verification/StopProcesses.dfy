/** What every interleaving keeps of the processes, the signals and the sessions. */
module StopProcesses {
  import opened Wrappers
  import opened Stopping
  import opened StopMachine
  import opened StopCalls

  // Which processes there are, and which a kill finds.

  /** A process that exists but is not tracked yet. */
  predicate Flying(r: Registry, stack: seq<Frame>, p: nat) {
    r.worker == Some(Worker(p, true)) || (stack != [] && stack[0] == InSpawn(p, true))
  }

  /** A start that has found the registry open, and has not made its process yet. */
  predicate Pending(r: Registry, stack: seq<Frame>, p: nat) {
    r.worker == Some(Worker(p, false)) || (stack != [] && stack[0] == InSpawn(p, false))
  }

  /** Every process that was started is tracked, released, or about to be tracked: one of the three. */
  ghost predicate ProcsOk(r: Registry, stack: seq<Frame>) {
    && r.procs !! r.released && (r.worker.Some? ==> !MainSpawns(stack))
    && (forall p: nat :: p in r.spawned <==> p in r.procs || p in r.released || Flying(r, stack, p))
    && (forall p: nat :: Flying(r, stack, p) ==> p !in r.procs && p !in r.released)
    && (forall p: nat :: Pending(r, stack, p) ==> p !in r.spawned)
  }

  /** The processes the first snapshot missed: released before, or the interrupted start's. */
  ghost predicate MissedOk(r: Registry, first: seq<nat>, stack: seq<Frame>) {
    && (forall p: nat :: p in r.spawned <==>
          p in first || p in r.releasedBefore || r.untracked == Some(p) || p in r.afterClose)
    && (forall p: nat | p in first :: p !in r.releasedBefore && r.untracked != Some(p) && p !in r.afterClose)
    && (forall p: nat | p in r.afterClose :: r.late == Some(p))
    && (forall p: nat | r.late == Some(p) :: p in r.afterClose <==> !Pending(r, stack, p))
    && (forall p: nat | Pending(r, stack, p) :: r.late == Some(p))
  }

  /** Every kill is aimed at distinct processes among those of the first; until the last one is over,
      nothing else is tracked. */
  ghost predicate AimedOk(r: Registry, kills: seq<seq<nat>>, stack: seq<Frame>) {
    kills != [] && (forall i | 0 <= i < |kills| :: Aimed(kills[i], kills[0]))
    && (|stack| > Base(stack) ==> forall p: nat | p in r.procs :: p in kills[0])
  }

  predicate Aimed(targets: seq<nat>, first: seq<nat>) {
    && (forall p: nat | p in targets :: p in first)
    && forall i, j | 0 <= i < j < |targets| :: targets[i] != targets[j]
  }

  ghost predicate SnapshotOk(r: Registry, kills: seq<seq<nat>>, stack: seq<Frame>) {
    if r.closed then r.worker.None? && AimedOk(r, kills, stack) && MissedOk(r, kills[0], stack)
    else kills == [] && r.untracked.None? && r.late.None? && r.afterClose == {}
  }

  ghost predicate RegistryOk(m: Machine) {
    ProcsOk(m.reg, m.stack) && SnapshotOk(m.reg, m.sent.kills, m.stack)
  }

  /** Only the outermost call matters to the registry. */
  lemma SameOutermost(r: Registry, stack: seq<Frame>, stack': seq<Frame>)
    requires ProcsOk(r, stack)
    requires MainSpawns(stack) <==> MainSpawns(stack')
    requires MainSpawns(stack) ==> stack'[0] == stack[0]
    ensures ProcsOk(r, stack')
    ensures forall p: nat :: Pending(r, stack', p) <==> Pending(r, stack, p)
    ensures forall p: nat :: Flying(r, stack', p) <==> Flying(r, stack, p)
  {
    assert forall p: nat :: Pending(r, stack', p) <==> Pending(r, stack, p);
    assert forall p: nat :: Flying(r, stack', p) <==> Flying(r, stack, p);
  }

  lemma SnapshotSame(r: Registry, kills: seq<seq<nat>>, stack: seq<Frame>, stack': seq<Frame>)
    requires SnapshotOk(r, kills, stack)
    requires forall p: nat :: Pending(r, stack', p) <==> Pending(r, stack, p)
    requires r.closed && |stack'| > Base(stack') ==> |stack| > Base(stack)
    ensures SnapshotOk(r, kills, stack')
  {
    hide Pending, Base, Aimed;
  }

  lemma HandledRegistry(m: Machine, req: Request)
    requires CallsOk(m) && KillsOk(m) && RegistryOk(m)
    ensures RegistryOk(Act(m, Handle(req)))
  {
    var f := NewFrame(m.stop, req);
    SameBase(m.stack, f);
    if PassesTest(m.stop, req) {
      SameOutermost(m.reg, m.stack, m.stack + [f]);
      SnapshotSame(m.reg, m.sent.kills, m.stack, m.stack + [f]);
    }
    hide CallsOk, ProcsOk, AimedOk, MissedOk, Noted, SnapshotOk;
  }

  /** A worker thread's step, or a release. */
  lemma WorkerRegistry(m: Machine, a: Action)
    requires RegistryOk(m) && (a.WorkerSpawn? || a.WorkerStep? || a.Release?) && Enabled(m, a)
    ensures RegistryOk(Act(m, a))
  {
    var m' := Act(m, a);
    assert m'.stack == m.stack && m'.sent == m.sent;
    WorkerProcs(m, a);
    WorkerSnapshot(m, a);
  }

  lemma WorkerProcs(m: Machine, a: Action)
    requires ProcsOk(m.reg, m.stack) && (a.WorkerSpawn? || a.WorkerStep? || a.Release?) && Enabled(m, a)
    ensures ProcsOk(Act(m, a).reg, m.stack)
  {
  }

  lemma WorkerSnapshot(m: Machine, a: Action)
    requires RegistryOk(m) && (a.WorkerSpawn? || a.WorkerStep? || a.Release?) && Enabled(m, a)
    ensures SnapshotOk(Act(m, a).reg, m.sent.kills, m.stack)
  {
    hide Aimed, Base;
    assert forall p: nat ::
      m.reg.worker.None? && Pending(Act(m, a).reg, m.stack, p) ==> Pending(m.reg, m.stack, p) || a.WorkerSpawn?;
  }

  lemma SpawnRegistry(r: Registry, kills: seq<seq<nat>>, p: nat)
    requires ProcsOk(r, []) && SnapshotOk(r, kills, []) && !r.closed && r.worker.None? && p !in r.spawned
    ensures ProcsOk(r, [InSpawn(p, false)]) && SnapshotOk(r, kills, [InSpawn(p, false)])
  {
  }

  /** A start on the main thread makes its process. */
  lemma StartsProcs(r: Registry, stack: seq<Frame>)
    requires ProcsOk(r, stack) && |stack| == 1 && stack[0].InSpawn? && !stack[0].started
    ensures ProcsOk(RegistryAfter(r, stack[0], stack[0]), [InSpawn(stack[0].proc, true)])
  {
    assert Pending(r, stack, stack[0].proc);
  }

  lemma StartsSnapshot(r: Registry, kills: seq<seq<nat>>, stack: seq<Frame>)
    requires ProcsOk(r, stack) && SnapshotOk(r, kills, stack)
    requires |stack| == 1 && stack[0].InSpawn? && !stack[0].started
    ensures SnapshotOk(RegistryAfter(r, stack[0], stack[0]), kills, [InSpawn(stack[0].proc, true)])
  {
    assert Pending(r, stack, stack[0].proc);
    hide Aimed;
  }

  /** A start on the main thread tracks its process. */
  lemma TracksProcs(r: Registry, stack: seq<Frame>)
    requires ProcsOk(r, stack) && |stack| == 1 && stack[0].InSpawn? && stack[0].started
    ensures ProcsOk(RegistryAfter(r, stack[0], stack[0]), [])
  {
    assert Flying(r, stack, stack[0].proc);
  }

  lemma TracksSnapshot(r: Registry, kills: seq<seq<nat>>, stack: seq<Frame>)
    requires SnapshotOk(r, kills, stack) && |stack| == 1 && stack[0].InSpawn? && stack[0].started
    ensures SnapshotOk(RegistryAfter(r, stack[0], stack[0]), kills, [])
  {
    hide Aimed;
    assert forall p: nat :: Pending(r, stack, p) <==> Pending(RegistryAfter(r, stack[0], stack[0]), [], p);
  }

  /** The first snapshot misses what was released, and a start it interrupted. */
  lemma FirstSnapshot(r: Registry, kills: seq<seq<nat>>, stack: seq<Frame>, order: seq<nat>)
    requires ProcsOk(r, stack) && SnapshotOk(r, kills, stack) && !r.closed && r.worker.None?
    requires stack != [] && Lists(order, r.procs)
    ensures SnapshotOk(RegistryAfter(r, InKill(Closing), stack[0]), kills + [order], stack)
  {
    var r' := RegistryAfter(r, InKill(Closing), stack[0]);
    assert kills + [order] == [order];
    FirstMissed(r, stack, order);
    assert AimedOk(r', [order], stack);
  }

  lemma FirstMissed(r: Registry, stack: seq<Frame>, order: seq<nat>)
    requires ProcsOk(r, stack) && !r.closed && r.worker.None? && r.afterClose == {}
    requires stack != [] && Lists(order, r.procs)
    ensures MissedOk(RegistryAfter(r, InKill(Closing), stack[0]), order, stack)
  {
  }

  lemma LaterSnapshot(r: Registry, kills: seq<seq<nat>>, stack: seq<Frame>, order: seq<nat>)
    requires SnapshotOk(r, kills, stack) && r.closed && |stack| > Base(stack) && Lists(order, r.procs)
    ensures SnapshotOk(r, kills + [order], stack)
  {
    hide MissedOk;
    assert Aimed(order, kills[0]);
    forall i | 0 <= i < |kills + [order]|
      ensures Aimed((kills + [order])[i], (kills + [order])[0])
    {
      assert i < |kills| ==> Aimed(kills[i], kills[0]);
    }
    assert (kills + [order])[0] == kills[0];
  }

  lemma AloneOnStack(m: Machine)
    requires CallsOk(m) && m.stack != [] && TopOf(m.stack).InSpawn?
    ensures m.stack == [TopOf(m.stack)]
  {
  }

  lemma OutermostStays(m: Machine, order: seq<nat>)
    requires CallsOk(m) && m.stack != [] && !TopOf(m.stack).InSpawn?
    ensures
      var stack' := Stepped(m, order).stack;
      && |m.stack| > Base(m.stack)
      && (MainSpawns(m.stack) <==> MainSpawns(stack'))
      && (MainSpawns(m.stack) ==> stack'[0] == m.stack[0])
  {
    SteppedBase(m.stack, m.sent.Targets());
  }

  lemma KillRegistry(m: Machine, order: seq<nat>)
    requires CallsOk(m) && RegistryOk(m) && Enabled(m, MainStep(order)) && !TopOf(m.stack).InSpawn?
    requires |m.stack| > Base(m.stack)
    ensures
      var m' := Stepped(m, order);
      ProcsOk(m'.reg, m.stack) && SnapshotOk(m'.reg, m'.sent.kills, m.stack)
  {
    hide StackOk, SnapshotOk;
    if TopOf(m.stack) == InKill(Closing) {
      if m.reg.closed {
        LaterSnapshot(m.reg, m.sent.kills, m.stack, order);
      } else {
        FirstSnapshot(m.reg, m.sent.kills, m.stack, order);
        CloseKeepsProcs(m.reg, m.stack);
      }
    }
  }

  lemma CloseKeepsProcs(r: Registry, stack: seq<Frame>)
    requires ProcsOk(r, stack) && stack != []
    ensures ProcsOk(RegistryAfter(r, InKill(Closing), stack[0]), stack)
  {
    var r' := RegistryAfter(r, InKill(Closing), stack[0]);
    assert forall p: nat :: Flying(r', stack, p) <==> Flying(r, stack, p);
    assert forall p: nat :: Pending(r', stack, p) <==> Pending(r, stack, p);
  }

  lemma SteppedRegistry(m: Machine, order: seq<nat>)
    requires CallsOk(m) && RegistryOk(m) && Enabled(m, MainStep(order))
    ensures RegistryOk(Stepped(m, order))
  {
    var top := TopOf(m.stack);
    SteppedBase(m.stack, m.sent.Targets());
    var stack' := Stepped(m, order).stack;
    if top.InSpawn? {
      AloneOnStack(m);
      if top.started {
        TracksProcs(m.reg, m.stack);
        TracksSnapshot(m.reg, m.sent.kills, m.stack);
      } else {
        StartsProcs(m.reg, m.stack);
        StartsSnapshot(m.reg, m.sent.kills, m.stack);
      }
      hide ProcsOk, SnapshotOk, StackOk;
    } else {
      OutermostStays(m, order);
      var kills' := Stepped(m, order).sent.kills;
      KillRegistry(m, order);
      hide ProcsOk, SnapshotOk, StackOk, RegistryAfter, SentAfter, FrameAfter, StopAfter, Pending, Flying, Base,
           MainSpawns;
      SameOutermost(Stepped(m, order).reg, m.stack, stack');
      SnapshotSame(Stepped(m, order).reg, kills', m.stack, stack');
    }
  }

  lemma RegistryKept(m: Machine, a: Action)
    requires CallsOk(m) && KillsOk(m) && RegistryOk(m)
    ensures RegistryOk(Act(m, a))
  {
    if Enabled(m, a) {
      match a {
        case Handle(r) => HandledRegistry(m, r);
        case MainSpawn(p) =>
          if !m.reg.closed {
            SpawnRegistry(m.reg, m.sent.kills, p);
          }
        case MainStep(order) => SteppedRegistry(m, order);
        case WorkerSpawn(_) => WorkerRegistry(m, a);
        case WorkerStep => WorkerRegistry(m, a);
        case Release(_) => WorkerRegistry(m, a);
        case _ =>
      }
    }
    hide CallsOk, KillsOk, ProcsOk, SnapshotOk, Stepped, Noted, Lists, MainSpawns;
  }

  // The signals.

  /** A whole kill: every target gets SIGTERM, then every target SIGKILL. */
  function Round(targets: seq<nat>): seq<Signal> {
    Terms(targets) + Kills(targets)
  }

  function Rounds(kills: seq<seq<nat>>): seq<Signal> {
    if kills == [] then [] else Rounds(kills[..|kills| - 1]) + Round(kills[|kills| - 1])
  }

  /** What has been sent when the innermost call is `f`. */
  predicate SignalsAre(s: Sent, f: Option<Frame>) {
    match f
    case Some(InKill(Terming(n))) =>
      s.kills != [] && n <= |s.Targets()| && s.signals == Rounds(s.kills[..|s.kills| - 1]) + Terms(s.Targets()[..n])
    case Some(InKill(Grace)) =>
      s.kills != [] && s.signals == Rounds(s.kills[..|s.kills| - 1]) + Terms(s.Targets())
    case Some(InKill(Ending(n))) =>
      s.kills != [] && n <= |s.Targets()|
      && s.signals == Rounds(s.kills[..|s.kills| - 1]) + Terms(s.Targets()) + Kills(s.Targets()[..n])
    case _ => s.signals == Rounds(s.kills)
  }

  function Innermost(stack: seq<Frame>): Option<Frame> {
    if stack == [] then None else Some(TopOf(stack))
  }

  ghost predicate SignalsOk(m: Machine) {
    SignalsAre(m.sent, Innermost(m.stack))
  }

  lemma NextSignal(s: Sent, f: Frame, order: seq<nat>)
    requires SignalsAre(s, Some(f)) && !f.InSpawn?
    ensures
      var s', next := SentAfter(s, f, order), FrameAfter(f, s.Targets());
      SignalsAre(s', next) && (next.None? && f.InKill? ==> s'.signals == Rounds(s'.kills))
  {
    match f {
      case InKill(Closing) => SnapshotSignal(s, order);
      case InKill(Terming(n)) => TermSignal(s, n);
      case InKill(Grace) => assert s.signals + Kills(s.Targets()[..0]) == s.signals;
      case InKill(Ending(n)) => EndSignal(s, n);
      case _ =>
    }
    hide Rounds;
  }

  lemma SnapshotSignal(s: Sent, order: seq<nat>)
    requires s.signals == Rounds(s.kills)
    ensures SignalsAre(s.(kills := s.kills + [order]), Some(InKill(Terming(0))))
  {
    hide Rounds;
    assert (s.kills + [order])[..|s.kills|] == s.kills;
    assert order[..0] == [] && s.signals + Terms([]) == s.signals;
  }

  lemma TermSignal(s: Sent, n: nat)
    requires SignalsAre(s, Some(InKill(Terming(n))))
    ensures n < |s.Targets()| ==>
      SignalsAre(s.(signals := s.signals + [Term(s.Targets()[n])]), Some(InKill(Terming(n + 1))))
    ensures n == |s.Targets()| ==> SignalsAre(s, Some(InKill(Grace)))
  {
    hide Rounds;
    OneMore(s.Targets(), n);
  }

  lemma EndSignal(s: Sent, n: nat)
    requires SignalsAre(s, Some(InKill(Ending(n))))
    ensures n < |s.Targets()| ==>
      SignalsAre(s.(signals := s.signals + [Kill(s.Targets()[n])]), Some(InKill(Ending(n + 1))))
    ensures n == |s.Targets()| ==> s.signals == Rounds(s.kills)
  {
    var targets, earlier := s.Targets(), Rounds(s.kills[..|s.kills| - 1]);
    OneMore(targets, n);
    assert Rounds(s.kills) == earlier + (Terms(targets) + Kills(targets));
    assert earlier + Terms(targets) + Kills(targets) == earlier + (Terms(targets) + Kills(targets));
    hide Rounds;
  }

  lemma OneMore(targets: seq<nat>, n: nat)
    requires n <= |targets|
    ensures n < |targets| ==>
      Terms(targets[..n + 1]) == Terms(targets[..n]) + [Term(targets[n])] &&
      Kills(targets[..n + 1]) == Kills(targets[..n]) + [Kill(targets[n])]
    ensures n == |targets| ==> targets[..n] == targets
  {
  }

  lemma SteppedSignals(m: Machine, order: seq<nat>)
    requires CallsOk(m) && SignalsOk(m) && m.stack != []
    ensures SignalsOk(Stepped(m, order))
  {
    var top, below := TopOf(m.stack), Below(m.stack);
    NoKillBelow(m.stack, m.stop);
    if top.InSpawn? {
      AloneOnStack(m);
    } else {
      NextSignal(m.sent, top, order);
    }
    var next := FrameAfter(top, m.sent.Targets());
    if next.Some? {
      TopOfWith(below, next.value);
    }
    hide StackOk, FrameAfter, Below, TopOf, Rounds, RegistryAfter, StopAfter;
  }

  lemma SignalsKept(m: Machine, a: Action)
    requires CallsOk(m) && SignalsOk(m)
    ensures SignalsOk(Act(m, a))
  {
    hide Stepped, Rounds, Noted, Lists, PassesTest;
    if Enabled(m, a) {
      match a {
        case Handle(r) =>
          var f := NewFrame(m.stop, r);
          TopOfWith(m.stack, f);
          QuietBefore(m, r);
        case MainStep(order) => SteppedSignals(m, order);
        case MainSpawn(p) => TopOfWith([], InSpawn(p, false));
        case _ =>
      }
    }
    hide CallsOk, TopOf;
  }

  lemma QuietBefore(m: Machine, r: Request)
    requires CallsOk(m) && SignalsOk(m)
    ensures PassesTest(m.stop, r) ==> m.sent.signals == Rounds(m.sent.kills)
  {
    if PassesTest(m.stop, r) {
      NoKillYet(m.stack, m.stop);
    }
    hide Rounds, FrameOk;
  }

  // The sessions.

  ghost predicate SessionsOk(m: Machine) {
    && (m.reg.closed ==> m.stop.immediate)
    && forall n | n in m.sessions && m.sessions[n] == Answered ::
         n in m.reg.released && (m.reg.closed ==> n in m.reg.releasedBefore)
  }

  lemma SessionsKept(m: Machine, a: Action)
    requires CallsOk(m) && SessionsOk(m)
    ensures SessionsOk(Act(m, a))
  {
    hide Noted, WithTop, FrameAfter, SentAfter, Lists, PassesTest;
    if Enabled(m, a) {
      match a {
        case Handle(r) => NotedGrows(m.stop, r, m.stack);
        case MainStep(order) =>
          TopFlags(m.stack, m.stop);
          StepKinds(m.stop, TopOf(m.stack), m.sent.Targets());
        case _ =>
      }
    }
    hide StackOk, StopAfter, Grows;
  }

  // Every interleaving.

  ghost predicate MachineOk(m: Machine) {
    CallsOk(m) && ResultOk(m) && KillsOk(m) && RegistryOk(m) && SignalsOk(m) && SessionsOk(m)
  }

  lemma {:induction false} AlwaysOk(m: Machine, actions: seq<Action>)
    requires MachineOk(m)
    ensures MachineOk(ActAll(m, actions))
    decreases |actions|
  {
    hide CallsOk, ResultOk, KillsOk, RegistryOk, SignalsOk, SessionsOk, Act;
    if actions == [] {
    } else {
      CallsKept(m, actions[0]);
      ResultKept(m, actions[0]);
      KillsKept(m, actions[0]);
      RegistryKept(m, actions[0]);
      SignalsKept(m, actions[0]);
      SessionsKept(m, actions[0]);
      AlwaysOk(Act(m, actions[0]), actions[1..]);
    }
  }

  lemma RunOk(actions: seq<Action>)
    ensures MachineOk(ActAll(START, actions))
  {
    StartOk();
    hide MachineOk, ActAll;
    AlwaysOk(START, actions);
  }

  lemma StartOk()
    ensures MachineOk(START)
  {
  }
}

/** The interleavings in which a signal on the main thread finds that thread inside a start or a request. */
module StopCorners {
  import opened Wrappers
  import opened Stopping
  import opened StopMachine
  import opened StopCalls
  import opened StopProcesses

  // The corners.

  lemma {:induction false} ActAllAppend(m: Machine, a: seq<Action>, b: seq<Action>)
    ensures ActAll(m, a + b) == ActAll(ActAll(m, a), b)
    decreases |a|
  {
    hide Act;
    if a == [] {
      assert a + b == b;
    } else {
      assert (a + b)[1..] == a[1..] + b;
      ActAllAppend(Act(m, a[0]), a[1..], b);
    }
  }

  lemma ActOne(m: Machine, a: Action)
    ensures ActAll(m, [a]) == Act(m, a)
  {
    hide Act;
    assert [a][1..] == [];
  }

  function Steps(n: nat): seq<Action> {
    if n == 0 then [] else [MainStep([])] + Steps(n - 1)
  }

  lemma StepsFirst(m: Machine, n: nat)
    ensures ActAll(m, Steps(n + 1)) == ActAll(Act(m, MainStep([])), Steps(n))
  {
    hide Act;
    assert Steps(n + 1)[1..] == Steps(n);
  }

  /** The main thread's next statement, when its innermost call is `top`. */
  lemma OneStep(m: Machine, below: seq<Frame>, top: Frame)
    requires m.stack == below + [top] && top != InKill(Closing)
    ensures Enabled(m, MainStep([])) && Act(m, MainStep([])) ==
      Machine(StopAfter(m.stop, top), RegistryAfter(m.reg, top, m.stack[0]), SentAfter(m.sent, top, []),
              WithTop(below, FrameAfter(top, m.sent.Targets())), m.sessions)
  {
    assert TopOf(m.stack) == top && Below(m.stack) == below;
    hide StopAfter, RegistryAfter, SentAfter, FrameAfter, Lists;
  }

  lemma SignalFirst(before: seq<Signal>, targets: seq<nat>, n: nat)
    requires n < |targets|
    ensures before + [Term(targets[n])] + Terms(targets[n + 1..]) == before + Terms(targets[n..])
    ensures before + [Kill(targets[n])] + Kills(targets[n + 1..]) == before + Kills(targets[n..])
  {
    assert targets[n..] == [targets[n]] + targets[n + 1..];
  }

  lemma {:induction false} TermsRun(m: Machine, below: seq<Frame>, n: nat)
    requires m.stack == below + [InKill(Terming(n))] && n <= |m.sent.Targets()|
    ensures
      ActAll(m, Steps(|m.sent.Targets()| - n + 1)) ==
        m.(sent := m.sent.(signals := m.sent.signals + Terms(m.sent.Targets()[n..])), stack := below + [InKill(Grace)])
    decreases |m.sent.Targets()| - n
  {
    hide Act;
    var targets := m.sent.Targets();
    OneStep(m, below, InKill(Terming(n)));
    var m' := Act(m, MainStep([]));
    StepsFirst(m, |targets| - n);
    if n < |targets| {
      TermsRun(m', below, n + 1);
      SignalFirst(m.sent.signals, targets, n);
    } else {
      assert Terms(targets[n..]) == [] && m.sent.signals + [] == m.sent.signals;
    }
  }

  lemma {:induction false} KillsRun(m: Machine, below: seq<Frame>, n: nat)
    requires m.stack == below + [InKill(Ending(n))] && n <= |m.sent.Targets()|
    ensures
      ActAll(m, Steps(|m.sent.Targets()| - n + 1)) ==
        m.(sent := m.sent.(signals := m.sent.signals + Kills(m.sent.Targets()[n..])), stack := below)
    decreases |m.sent.Targets()| - n
  {
    hide Act;
    var targets := m.sent.Targets();
    OneStep(m, below, InKill(Ending(n)));
    var m' := Act(m, MainStep([]));
    StepsFirst(m, |targets| - n);
    if n < |targets| {
      KillsRun(m', below, n + 1);
      SignalFirst(m.sent.signals, targets, n);
    } else {
      assert Kills(targets[n..]) == [] && m.sent.signals + [] == m.sent.signals;
    }
  }

  /** A request past its flag, undisturbed: it writes its result and kills `order`. */
  function KillActions(order: seq<nat>): seq<Action> {
    [MainStep([])] + ([MainStep(order)] + (Steps(|order| + 1) + ([MainStep([])] + Steps(|order| + 1))))
  }

  function Killed(m: Machine, below: seq<Frame>, id: nat, order: seq<nat>): Machine {
    Machine(m.stop.(author := Some(id)), RegistryAfter(m.reg, InKill(Closing), (below + [InKill(Closing)])[0]),
            Sent(m.sent.kills + [order], m.sent.signals + Round(order)), below, m.sessions)
  }

  /** The kill from its snapshot on. */
  lemma KillSends(m: Machine, below: seq<Frame>)
    requires m.stack == below + [InKill(Terming(0))]
    ensures
      var n := |m.sent.Targets()| + 1;
      ActAll(Act(ActAll(m, Steps(n)), MainStep([])), Steps(n)) ==
        m.(sent := m.sent.(signals := m.sent.signals + Round(m.sent.Targets())), stack := below)
  {
    hide Act, Round, Steps;
    var targets := m.sent.Targets();
    assert targets[0..] == targets;
    TermsRun(m, below, 0);
    var m3 := ActAll(m, Steps(|targets| + 1));
    GraceEnds(m3, below);
    var m4 := Act(m3, MainStep([]));
    KillsRun(m4, below, 0);
    RoundAfter(m.sent.signals, targets);
  }

  lemma GraceEnds(m: Machine, below: seq<Frame>)
    requires m.stack == below + [InKill(Grace)]
    ensures Act(m, MainStep([])) == m.(stack := below + [InKill(Ending(0))])
  {
    OneStep(m, below, InKill(Grace));
    QuietRegistry(m.reg, InKill(Grace), m.stack[0]);
    hide Act, RegistryAfter;
  }

  lemma KillCompletes(m: Machine, below: seq<Frame>, id: nat, order: seq<nat>)
    requires m.stack == below + [InStop(id, true)] && m.reg.worker.None? && Lists(order, m.reg.procs)
    ensures ActAll(m, KillActions(order)) == Killed(m, below, id, order)
  {
    ResultWritten(m, below, id);
    var m1 := Act(m, MainStep([]));
    Snapshots(m1, below, order);
    var m2 := Act(m1, MainStep(order));
    KillActionsRun(m, order);
    hide Act, Lists, RegistryAfter, Round, Steps, KillActions;
    KillSends(m2, below);
  }

  lemma ResultWritten(m: Machine, below: seq<Frame>, id: nat)
    requires m.stack == below + [InStop(id, true)]
    ensures Act(m, MainStep([])) ==
      m.(stop := m.stop.(author := Some(id)), stack := below + [InKill(Closing)])
  {
    OneStep(m, below, InStop(id, true));
    QuietRegistry(m.reg, InStop(id, true), m.stack[0]);
    hide Act, RegistryAfter;
  }

  lemma RoundAfter(before: seq<Signal>, order: seq<nat>)
    ensures before + Terms(order) + Kills(order) == before + Round(order)
  {
  }

  lemma QuietRegistry(r: Registry, f: Frame, outermost: Frame)
    requires !f.InSpawn? && f != InKill(Closing)
    ensures RegistryAfter(r, f, outermost) == r
  {
  }

  lemma Snapshots(m: Machine, below: seq<Frame>, order: seq<nat>)
    requires m.stack == below + [InKill(Closing)] && m.reg.worker.None? && Lists(order, m.reg.procs)
    ensures Act(m, MainStep(order)) ==
      m.(reg := RegistryAfter(m.reg, InKill(Closing), m.stack[0]), sent := m.sent.(kills := m.sent.kills + [order]),
         stack := below + [InKill(Terming(0))])
  {
    assert TopOf(m.stack) == InKill(Closing) && Below(m.stack) == below;
    hide Lists, RegistryAfter;
  }

  lemma KillActionsRun(m: Machine, order: seq<nat>)
    ensures
      var m2 := Act(Act(m, MainStep([])), MainStep(order));
      var m4 := Act(ActAll(m2, Steps(|order| + 1)), MainStep([]));
      ActAll(m, KillActions(order)) == ActAll(m4, Steps(|order| + 1))
  {
    hide Act, Steps;
    var s := Steps(|order| + 1);
    ActAllAppend(m, [MainStep([])], [MainStep(order)] + (s + ([MainStep([])] + s)));
    ActOne(m, MainStep([]));
    var m1 := Act(m, MainStep([]));
    ActAllAppend(m1, [MainStep(order)], s + ([MainStep([])] + s));
    ActOne(m1, MainStep(order));
    var m2 := Act(m1, MainStep(order));
    ActAllAppend(m2, s, [MainStep([])] + s);
    var m3 := ActAll(m2, s);
    ActAllAppend(m3, [MainStep([])], s);
    ActOne(m3, MainStep([]));
  }

  /** The calls at the start of a corner, statement by statement. */
  lemma {:induction false} ActThree(m: Machine, a: Action, b: Action, c: Action)
    ensures ActAll(m, [a, b, c]) == Act(Act(Act(m, a), b), c)
  {
    hide Act;
    ActAllAppend(m, [a], [b, c]);
    assert [a] + [b, c] == [a, b, c] && [b] + [c] == [b, c];
    ActAllAppend(Act(m, a), [b], [c]);
    ActOne(m, a);
    ActOne(Act(m, a), b);
    ActOne(Act(Act(m, a), b), c);
  }

  lemma NothingTracked()
    ensures Lists([], {})
  {
  }

  /** A start on the main thread, interrupted by an immediate request before it has made its process. */
  function LateStart(p: nat, r: RunResult): seq<Action> {
    [MainSpawn(p), Handle(AskImmediate(r)), MainStep([])] + KillActions([]) + Steps(2)
  }

  /** The corner: the process is made after the registry closed and all signals were sent. */
  lemma LateStartIsMissed(p: nat, r: RunResult)
    ensures
      var m := ActAll(START, LateStart(p, r));
      m.AtRest() && m.reg.closed && m.reg.late == Some(p) && m.reg.procs == {p} && m.sent.signals == []
  {
    hide Act;
    var a := [MainSpawn(p), Handle(AskImmediate(r)), MainStep([])];
    ActAllAppend(START, a + KillActions([]), Steps(2));
    ActAllAppend(START, a, KillActions([]));
    ActThree(START, MainSpawn(p), Handle(AskImmediate(r)), MainStep([]));
    InterruptedSpawn(p, r);
    var m := ActAll(START, a);
    NothingTracked();
    KillCompletes(m, [InSpawn(p, false)], 0, []);
    var m1 := Killed(m, [InSpawn(p, false)], 0, []);
    StepsFirst(m1, 1);
    assert m1.stack == [] + [InSpawn(p, false)];
    OneStep(m1, [], InSpawn(p, false));
    var m2 := Act(m1, MainStep([]));
    StepsFirst(m2, 0);
    assert m2.stack == [] + [InSpawn(p, true)];
    OneStep(m2, [], InSpawn(p, true));
  }

  lemma InterruptedSpawn(p: nat, r: RunResult)
    ensures
      var m := Act(Act(Act(START, MainSpawn(p)), Handle(AskImmediate(r))), MainStep([]));
      && m.stack == [InSpawn(p, false)] + [InStop(0, true)] && m.reg == START.reg && m.sent == START.sent
      && m.stop.immediate && m.stop.requests == [AskImmediate(r)]
  {
    var m1 := START.(stack := [InSpawn(p, false)]);
    assert Act(START, MainSpawn(p)) == m1;
    var m2 := Act(m1, Handle(AskImmediate(r)));
    assert m2.stack == [InSpawn(p, false), InStop(0, false)] == [InSpawn(p, false)] + [InStop(0, false)];
    OneStep(m2, [InSpawn(p, false)], InStop(0, false));
    hide Act;
  }

  /** The same start, interrupted between making its process and tracking it. */
  function UntrackedStart(p: nat, r: RunResult): seq<Action> {
    [MainSpawn(p), MainStep([])] + ([Handle(AskImmediate(r)), MainStep([])] + (KillActions([]) + Steps(1)))
  }

  lemma ActTwo(m: Machine, a: Action, b: Action)
    ensures ActAll(m, [a, b]) == Act(Act(m, a), b)
  {
    hide Act;
    ActAllAppend(m, [a], [b]);
    assert [a] + [b] == [a, b];
    ActOne(m, a);
    ActOne(Act(m, a), b);
  }

  /** The corner: the process exists when all signals are sent, and none reaches it. */
  lemma UntrackedStartIsMissed(p: nat, r: RunResult)
    ensures
      var m := ActAll(START, UntrackedStart(p, r));
      m.AtRest() && m.reg.closed && m.reg.untracked == Some(p) && m.reg.procs == {p} && m.sent.signals == []
  {
    hide Act;
    var first, second := [MainSpawn(p), MainStep([])], [Handle(AskImmediate(r)), MainStep([])];
    ActAllAppend(START, first, second + (KillActions([]) + Steps(1)));
    ActTwo(START, MainSpawn(p), MainStep([]));
    StartedSpawn(p);
    var m := ActAll(START, first);
    ActAllAppend(m, second, KillActions([]) + Steps(1));
    ActTwo(m, Handle(AskImmediate(r)), MainStep([]));
    RequestFlags(m, r);
    var m1 := ActAll(m, second);
    ActAllAppend(m1, KillActions([]), Steps(1));
    NothingTracked();
    KillCompletes(m1, m.stack, 0, []);
    var m2 := Killed(m1, m.stack, 0, []);
    StepsFirst(m2, 0);
    assert m2.stack == [] + [InSpawn(p, true)];
    OneStep(m2, [], InSpawn(p, true));
  }

  lemma StartedSpawn(p: nat)
    ensures
      var m := Act(Act(START, MainSpawn(p)), MainStep([]));
      m == START.(reg := START.reg.(spawned := {p}), stack := [InSpawn(p, true)])
  {
    var m1 := START.(stack := [] + [InSpawn(p, false)]);
    assert Act(START, MainSpawn(p)) == m1;
    OneStep(m1, [], InSpawn(p, false));
    hide Act;
  }

  /** An immediate request that finds the flag unset, up to its flag. */
  lemma RequestFlags(m: Machine, r: RunResult)
    requires !m.stop.immediate
    ensures
      var m' := Act(Act(m, Handle(AskImmediate(r))), MainStep([]));
      && m'.stack == m.stack + [InStop(|m.stop.requests|, true)] && m'.reg == m.reg && m'.sent == m.sent
      && m'.stop == Noted(m.stop, AskImmediate(r), m.stack).(immediate := true)
  {
    var m1 := Act(m, Handle(AskImmediate(r)));
    var id := |m.stop.requests|;
    assert m1 == Machine(Noted(m.stop, AskImmediate(r), m.stack), m.reg, m.sent, m.stack + [InStop(id, false)],
                         m.sessions);
    hide Act, Noted, HasDrain, HasStop;
    OneStep(m1, m.stack, InStop(id, false));
    QuietRegistry(m1.reg, InStop(id, false), m1.stack[0]);
  }

  /** The first request of a run, taken up to its test. */
  lemma FirstRequest(m: Machine, r: Request)
    requires m.stop == START.stop && m.stack == []
    ensures
      var m', f := Act(m, Handle(r)), if r.AskDrain? then InDrain(0, false) else InStop(0, false);
      && m'.stack == [f] && m'.reg == m.reg && m'.sent == m.sent && m'.stop.requests == [r]
      && m'.stop == START.stop.(requests := [r], stops := if r.AskDrain? then 0 else 1)
      && (HasDrain(m'.stack) <==> r.AskDrain?) && (HasStop(m'.stack) <==> r.AskImmediate?)
  {
    assert [] + [r] == [r];
    HasOnTop([], NewFrame(m.stop, r));
    assert [] + [NewFrame(m.stop, r)] == [NewFrame(m.stop, r)];
  }

  /** A drain, interrupted between its test and its flag by an immediate request. */
  function OvertakenDrain(d: RunResult, r: RunResult): seq<Action> {
    [Handle(AskDrain(d))] + ([Handle(AskImmediate(r)), MainStep([])] + (KillActions([]) + Steps(2)))
  }

  /** The corner: the processes are killed, and the run's result is the drain's. */
  lemma DrainWritesOver(d: RunResult, r: RunResult)
    ensures
      var m := ActAll(START, OvertakenDrain(d, r));
      m.AtRest() && m.stop.immediate && |m.sent.kills| == 1 && ResultOf(m.stop) == Some(d) && m.stop.overtaken
  {
    var m := Act(START, Handle(AskDrain(d)));
    FirstRequest(START, AskDrain(d));
    hide Act;
    var second := [Handle(AskImmediate(r)), MainStep([])];
    ActAllAppend(START, [Handle(AskDrain(d))], second + (KillActions([]) + Steps(2)));
    ActOne(START, Handle(AskDrain(d)));
    ActAllAppend(m, second, KillActions([]) + Steps(2));
    ActTwo(m, Handle(AskImmediate(r)), MainStep([]));
    RequestFlags(m, r);
    var m1 := ActAll(m, second);
    ActAllAppend(m1, KillActions([]), Steps(2));
    NothingTracked();
    KillCompletes(m1, m.stack, 1, []);
    var m2 := Killed(m1, m.stack, 1, []);
    StepsFirst(m2, 1);
    assert m2.stack == [] + [InDrain(0, false)];
    OneStep(m2, [], InDrain(0, false));
    var m3 := Act(m2, MainStep([]));
    StepsFirst(m3, 0);
    assert m3.stack == [] + [InDrain(0, true)];
    OneStep(m3, [], InDrain(0, true));
  }

  /** A tracked process, then two immediate requests, the second between the first one's test and flag. */
  function NestedStops(p: nat, r: RunResult, again: RunResult): seq<Action> {
    [WorkerSpawn(p), WorkerStep, WorkerStep] +
    ([Handle(AskImmediate(r))] +
     ([Handle(AskImmediate(again)), MainStep([])] + (KillActions([p]) + (Steps(1) + KillActions([p])))))
  }

  /** The corner: both requests kill, the inner one first. The result is the outer one's. */
  lemma BothStopsKill(p: nat, r: RunResult, again: RunResult)
    ensures
      var m := ActAll(START, NestedStops(p, r, again));
      && m.AtRest() && m.stop.nested && ResultOf(m.stop) == Some(r)
      && m.sent.signals == [Term(p), Kill(p), Term(p), Kill(p)]
  {
    var tracked := START.(reg := START.reg.(procs := {p}, spawned := {p}));
    Tracks(p);
    var m := Act(tracked, Handle(AskImmediate(r)));
    FirstRequest(tracked, AskImmediate(r));
    hide Act;
    var second := [Handle(AskImmediate(again)), MainStep([])];
    var rest := KillActions([p]) + (Steps(1) + KillActions([p]));
    ActAllAppend(START, [WorkerSpawn(p), WorkerStep, WorkerStep], [Handle(AskImmediate(r))] + (second + rest));
    ActThree(START, WorkerSpawn(p), WorkerStep, WorkerStep);
    ActAllAppend(tracked, [Handle(AskImmediate(r))], second + rest);
    ActOne(tracked, Handle(AskImmediate(r)));
    ActAllAppend(m, second, rest);
    ActTwo(m, Handle(AskImmediate(again)), MainStep([]));
    RequestFlags(m, again);
    var m1 := ActAll(m, second);
    OneTracked(p);
    SecondKill(m1, p, r, again);
  }

  lemma Tracks(p: nat)
    ensures Act(Act(Act(START, WorkerSpawn(p)), WorkerStep), WorkerStep) ==
      START.(reg := START.reg.(procs := {p}, spawned := {p}))
  {
  }

  lemma OneTracked(p: nat)
    ensures Lists([p], {p})
  {
  }

  lemma SecondKill(m: Machine, p: nat, r: RunResult, again: RunResult)
    requires m.stack == [InStop(0, false)] + [InStop(1, true)] && m.reg.worker.None? && m.reg.procs == {p}
    requires !m.reg.closed
    requires m.sent == Sent([], []) && m.stop.requests == [AskImmediate(r), AskImmediate(again)] && m.stop.nested
    ensures
      var m' := ActAll(m, KillActions([p]) + (Steps(1) + KillActions([p])));
      && m'.AtRest() && m'.stop.nested && ResultOf(m'.stop) == Some(r)
      && m'.sent.signals == [Term(p), Kill(p), Term(p), Kill(p)]
  {
    hide Act, Steps, KillActions;
    OneTracked(p);
    ActAllAppend(m, KillActions([p]), Steps(1) + KillActions([p]));
    KillCompletes(m, [InStop(0, false)], 1, [p]);
    var m2 := Killed(m, [InStop(0, false)], 1, [p]);
    ActAllAppend(m2, Steps(1), KillActions([p]));
    StepsFirst(m2, 0);
    NoSteps(Act(m2, MainStep([])));
    assert m2.stack == [] + [InStop(0, false)];
    OneStep(m2, [], InStop(0, false));
    QuietRegistry(m2.reg, InStop(0, false), m2.stack[0]);
    var m3 := Act(m2, MainStep([]));
    assert m3.stack == [] + [InStop(0, true)];
    KillCompletes(m3, [], 0, [p]);
    assert [Term(p), Kill(p)] + [Term(p), Kill(p)] == [Term(p), Kill(p), Term(p), Kill(p)];
    hide ActAll;
  }

  lemma NoSteps(m: Machine)
    ensures ActAll(m, Steps(0)) == m
  {
  }
}

/** What holds of every interleaving of stop requests, processes and kills. */
module StopTheorems {
  import opened Wrappers
  import opened Stopping
  import opened StopMachine
  import opened StopCalls
  import opened StopProcesses

  /** In every interleaving the immediate flag comes before the close and before every signal; the signals
      are those of the kills in turn, each SIGTERM to all its targets and then SIGKILL to all. */
  lemma FlagThenKill(actions: seq<Action>)
    ensures
      var m := ActAll(START, actions);
      && (m.reg.closed || m.sent.signals != [] ==> m.stop.immediate)
      && m.sent.signals <= Rounds(m.sent.kills)
      && (!Killing(m.stack) ==> m.sent.signals == Rounds(m.sent.kills))
  {
    RunOk(actions);
    var m := ActAll(START, actions);
    hide ActAll, CallsOk, ResultOk, RegistryOk;
    Partial(m.sent, Innermost(m.stack));
    hide SignalsAre, CountStops, Rounds, TopOf;
  }

  predicate Killing(stack: seq<Frame>) {
    stack != [] && TopOf(stack).InKill?
  }

  lemma Partial(s: Sent, f: Option<Frame>)
    requires SignalsAre(s, f)
    ensures s.signals <= Rounds(s.kills) && (s.kills == [] ==> s.signals == [])
    ensures f.None? || !f.value.InKill? ==> s.signals == Rounds(s.kills)
  {
    if f.Some? && f.value.InKill? && !f.value.at.Closing? {
      var last := s.Targets();
      assert Rounds(s.kills) == Rounds(s.kills[..|s.kills| - 1]) + (Terms(last) + Kills(last));
      if f.value.at.Terming? {
        assert Terms(last[..f.value.at.n]) <= Terms(last);
      } else if f.value.at.Ending? {
        assert Kills(last[..f.value.at.n]) <= Kills(last);
      }
    }
  }

  // Results.

  lemma SomeFirst(requests: seq<Request>)
    requires requests != []
    ensures FirstIndex(requests, true).Some? || FirstIndex(requests, false).Some?
  {
  }

  /** The run's result, in every interleaving: the first immediate request's, exactly if no drain was
      past its test when that came in; otherwise the first drain's, which writes over it. */
  lemma ResultOfRun(actions: seq<Action>)
    requires ActAll(START, actions).AtRest()
    ensures
      var s := ActAll(START, actions).stop;
      var stop, drain := FirstOf(s.requests, true), FirstOf(s.requests, false);
      && ResultOf(s) == (if stop.Some? && !s.overtaken then stop else drain)
      && (s.Draining() <==> s.requests != [])
      && (stop.Some? ==> (s.author == FirstIndex(s.requests, true) <==> !s.overtaken))
  {
    RunOk(actions);
    var m := ActAll(START, actions);
    hide ActAll, CallsOk, KillsOk, RegistryOk, SignalsOk, SessionsOk;
    var s := m.stop;
    FirstIndexIsFirst(s.requests, true);
    FirstIndexIsFirst(s.requests, false);
    if s.requests != [] {
      SomeFirst(s.requests);
    }
    hide FirstIndex, FirstOf;
  }

  /** How often the processes are killed: once for every immediate request that found the flag unset. That
      is at most once exactly if no immediate request came while another was past its test. */
  lemma KillsOfRun(actions: seq<Action>)
    requires ActAll(START, actions).AtRest()
    ensures
      var m := ActAll(START, actions);
      && |m.sent.kills| == m.stop.stops && (|m.sent.kills| <= 1 <==> !m.stop.nested)
      && (m.sent.kills != [] <==> FirstOf(m.stop.requests, true).Some?)
  {
    RunOk(actions);
    var m := ActAll(START, actions);
    hide ActAll, CallsOk, RegistryOk, SignalsOk, SessionsOk;
    FirstIndexIsFirst(m.stop.requests, true);
    hide FirstIndex, FirstOf, WriterOk;
  }

  // Processes.

  lemma ClosedStep(m: Machine, a: Action)
    requires MachineOk(m) && m.reg.closed
    ensures
      var m' := Act(m, a);
      && m'.reg.closed && m'.reg.late == m.reg.late && m.reg.spawned <= m'.reg.spawned
      && forall p | p in m'.reg.spawned && p !in m.reg.spawned :: m.reg.late == Some(p)
  {
    hide CallsOk, ResultOk, KillsOk, SignalsOk, SessionsOk, Noted, StopAfter, SentAfter, FrameAfter, WithTop, Lists,
         Aimed;
    if Enabled(m, a) && a.MainStep? && TopOf(m.stack).InSpawn? && !TopOf(m.stack).started {
      hide ProcsOk, AimedOk;
      SpawnAlone(m);
      assert Pending(m.reg, m.stack, TopOf(m.stack).proc);
    }
    hide MissedOk, ProcsOk, AimedOk;
  }

  lemma SpawnAlone(m: Machine)
    requires MachineOk(m) && m.stack != [] && TopOf(m.stack).InSpawn?
    ensures m.stack[0] == TopOf(m.stack)
  {
    AloneOnStack(m);
  }

  lemma {:induction false} ClosedRun(m: Machine, actions: seq<Action>)
    requires MachineOk(m) && m.reg.closed
    ensures
      var m' := ActAll(m, actions);
      && MachineOk(m') && m'.reg.closed && m'.reg.late == m.reg.late && m.reg.spawned <= m'.reg.spawned
      && forall p | p in m'.reg.spawned && p !in m.reg.spawned :: m.reg.late == Some(p)
    decreases |actions|
  {
    hide MachineOk, Act;
    if actions == [] {
    } else {
      ClosedStep(m, actions[0]);
      StepOk(m, actions[0]);
      ClosedRun(Act(m, actions[0]), actions[1..]);
    }
  }

  lemma StepOk(m: Machine, a: Action)
    requires MachineOk(m)
    ensures MachineOk(Act(m, a))
  {
    AlwaysOk(m, [a]);
    assert [a][1..] == [];
    hide MachineOk, Act;
    assert ActAll(m, [a]) == ActAll(Act(m, a), []);
  }

  /** A process starts after the close exactly if its start on the main thread had found the registry open
      and had not made the process yet when the kill interrupted it. `late` is that start, if there is one. */
  lemma StartsAfterClose(before: seq<Action>, after: seq<Action>, p: nat)
    requires ActAll(START, before).reg.closed && p !in ActAll(START, before).reg.spawned
    ensures
      var m, m' := ActAll(START, before), ActAll(ActAll(START, before), after);
      && (p in m'.reg.spawned ==> m.reg.late == Some(p))
      && (m.reg.late == Some(p) && m'.AtRest() ==> p in m'.reg.spawned)
  {
    RunOk(before);
    var m := ActAll(START, before);
    ClosedRun(m, after);
    hide ActAll;
    var m' := ActAll(m, after);
    if m.reg.late == Some(p) && m'.AtRest() {
      LateStarted(m', p);
    }
    hide MachineOk;
  }

  lemma LateStarted(m: Machine, p: nat)
    requires MachineOk(m) && m.reg.closed && m.reg.late == Some(p)
    ensures p in m.reg.spawned <==> !Pending(m.reg, m.stack, p)
  {
    hide CallsOk, ResultOk, KillsOk, SignalsOk, SessionsOk, AimedOk;
  }

  lemma {:induction false} RoundsStart(kills: seq<seq<nat>>)
    requires kills != []
    ensures Round(kills[0]) <= Rounds(kills)
  {
    if |kills| > 1 {
      RoundsStart(kills[..|kills| - 1]);
      assert kills[..|kills| - 1][0] == kills[0];
    } else {
      assert Rounds(kills[..0]) == [];
    }
  }

  predicate AimedAt(s: Signal, procs: seq<nat>) {
    s.proc in procs
  }

  lemma {:induction false} RoundsOnly(kills: seq<seq<nat>>, first: seq<nat>)
    requires forall i | 0 <= i < |kills| :: Aimed(kills[i], first)
    ensures forall s | s in Rounds(kills) :: AimedAt(s, first)
  {
    if kills == [] {
    } else {
      RoundsOnly(kills[..|kills| - 1], first);
      assert Aimed(kills[|kills| - 1], first);
      forall s | s in Round(kills[|kills| - 1])
        ensures AimedAt(s, first)
      {
      }
    }
  }

  ghost predicate IsKilled(signals: seq<Signal>, p: nat) {
    exists i, j | 0 <= i < j < |signals| :: signals[i] == Term(p) && signals[j] == Kill(p)
  }

  lemma RoundKills(first: seq<nat>, signals: seq<Signal>, p: nat)
    requires Round(first) <= signals && p in first
    ensures IsKilled(signals, p)
  {
    var k :| 0 <= k < |first| && first[k] == p;
    assert signals[k] == Round(first)[k] == Term(p);
    assert signals[|first| + k] == Round(first)[|first| + k] == Kill(p);
  }

  lemma KilledIfTarget(kills: seq<seq<nat>>, p: nat)
    requires kills != [] && forall i | 0 <= i < |kills| :: Aimed(kills[i], kills[0])
    ensures IsKilled(Rounds(kills), p) <==> p in kills[0]
  {
    var signals, first := Rounds(kills), kills[0];
    RoundsStart(kills);
    RoundsOnly(kills, first);
    hide Rounds, Round, Aimed;
    if p in first {
      RoundKills(first, signals, p);
    }
    if IsKilled(signals, p) {
      var i, j :| 0 <= i < j < |signals| && signals[i] == Term(p) && signals[j] == Kill(p);
      assert signals[i] in signals && AimedAt(signals[i], first);
    }
  }

  /** Once a kill is over, a process that was started got SIGTERM and then SIGKILL exactly if it was not
      released before the close and is not the start that the kill interrupted on the main thread, neither
      between its process and its tracking nor before its process. */
  lemma EveryProcessIsKilled(actions: seq<Action>, p: nat)
    requires p in ActAll(START, actions).reg.spawned
    requires ActAll(START, actions).reg.closed && !Killing(ActAll(START, actions).stack)
    ensures
      var m := ActAll(START, actions);
      IsKilled(m.sent.signals, p) <==> p !in m.reg.releasedBefore && m.reg.untracked != Some(p) && m.reg.late != Some(p)
  {
    RunOk(actions);
    var m := ActAll(START, actions);
    hide ActAll, CallsOk, ResultOk, KillsOk, SessionsOk;
    Partial(m.sent, Innermost(m.stack));
    KilledIfTarget(m.sent.kills, p);
    hide IsKilled, Rounds, SignalsAre;
    PendingIsUnstarted(m, p);
  }

  lemma PendingIsUnstarted(m: Machine, p: nat)
    requires MachineOk(m) && p in m.reg.spawned
    ensures !Pending(m.reg, m.stack, p)
  {
    hide CallsOk, ResultOk, KillsOk, SignalsOk, SessionsOk, SnapshotOk;
  }

  /** A session whose process a kill was aimed at never returns a result. */
  lemma KilledNeverAnswers(actions: seq<Action>, n: nat, k: nat)
    requires k < |ActAll(START, actions).sent.kills| && n in ActAll(START, actions).sent.kills[k]
    ensures
      var m := ActAll(START, actions);
      n in m.sessions ==> m.sessions[n] != Answered
  {
    RunOk(actions);
    var m := ActAll(START, actions);
    hide ActAll, CallsOk, ResultOk, KillsOk, SignalsOk, ProcsOk;
    assert m.reg.closed ==> Aimed(m.sent.kills[k], m.sent.kills[0]);
  }

  // Sessions.

  /** What can become of session `n` once an immediate stop is requested. */
  predicate SessionStays(m: Machine, m': Machine, n: nat) {
    && (n in m.sessions ==>
          && n in m'.sessions
          && (m'.sessions[n] == m.sessions[n] || (m.sessions[n] == Started && m'.sessions[n] == Discarded)))
    && (n !in m.sessions && n in m'.sessions ==> m'.sessions[n] == Refused)
  }

  lemma AfterStopStep(m: Machine, a: Action, n: nat)
    requires m.stop.immediate
    ensures Act(m, a).stop.immediate && SessionStays(m, Act(m, a), n)
  {
    hide RegistryAfter, SentAfter, WorkerStepped, Lists;
  }

  /** Once an immediate stop is requested no session starts, and one that has started never answers. */
  lemma {:induction false} NothingStartsAfterStop(m: Machine, actions: seq<Action>, n: nat)
    requires m.stop.immediate
    ensures SessionStays(m, ActAll(m, actions), n)
    decreases |actions|
  {
    hide Act;
    if actions == [] {
    } else {
      AfterStopStep(m, actions[0], n);
      NothingStartsAfterStop(Act(m, actions[0]), actions[1..], n);
    }
  }
}

/** Stopping a run: drain requests, immediate requests, and the registry of processes they kill. */
module Stopping {
  import opened Wrappers

  datatype RunResult = RunResult(exitCode: int, reason: string)

  const OPERATOR_DRAIN := RunResult(0, "stopped by operator")
  const OPERATOR_STOP := RunResult(0, "stopped by operator (immediate)")

  /** The fields of the run's stop state. */
  datatype Flags = Flags(drain: bool, immediate: bool, first: RunResult) {
    predicate Draining() {
      drain || immediate
    }

    /** None as long as no stop was requested. */
    function Result(): Option<RunResult> {
      if Draining() then Some(first) else None
    }
  }

  const NO_STOP := Flags(false, false, OPERATOR_DRAIN)

  datatype Request = AskDrain(result: RunResult) | AskImmediate(result: RunResult)

  function Requested(f: Flags, r: Request): Flags {
    match r
    case AskDrain(result) => if f.Draining() then f else f.(drain := true, first := result)
    case AskImmediate(result) => if f.immediate then f else f.(immediate := true, first := result)
  }

  /** The request one level above the present one. */
  function NextRequest(f: Flags): Request {
    if f.Draining() then AskImmediate(OPERATOR_STOP) else AskDrain(OPERATOR_DRAIN)
  }

  // The two classes.

  datatype Signal = Term(proc: nat) | Kill(proc: nat)

  function Terms(procs: seq<nat>): (s: seq<Signal>)
    ensures |s| == |procs| && forall i | 0 <= i < |s| :: s[i] == Term(procs[i])
  {
    seq(|procs|, i requires 0 <= i < |procs| => Term(procs[i]))
  }

  function Kills(procs: seq<nat>): (s: seq<Signal>)
    ensures |s| == |procs| && forall i | 0 <= i < |s| :: s[i] == Kill(procs[i])
  {
    seq(|procs|, i requires 0 <= i < |procs| => Kill(procs[i]))
  }

  ghost predicate Lists(order: seq<nat>, procs: set<nat>) {
    && (forall p :: p in order <==> p in procs)
    && (forall i, j | 0 <= i < j < |order| :: order[i] != order[j])
  }

  class SessionRegistry {
    var procs: set<nat>
    var closed: bool

    constructor ()
      ensures procs == {} && !closed
    {
      procs := {};
      closed := false;
    }

    /** Track a new process, unless the registry is closed. */
    method Spawn(proc: nat) returns (spawned: bool)
      modifies this
      ensures spawned <==> !old(closed)
      ensures closed == old(closed) && procs == if spawned then old(procs) + {proc} else old(procs)
    {
      spawned := !closed;
      if spawned {
        procs := procs + {proc};
      }
    }

    method Release(proc: nat)
      modifies this
      ensures procs == old(procs) - {proc} && closed == old(closed)
    {
      procs := procs - {proc};
    }

    /** Close, then signal every tracked process: first all to end, then all to die. */
    method KillAll() returns (ghost order: seq<nat>, signals: seq<Signal>)
      modifies this
      ensures closed && procs == old(procs)
      ensures Lists(order, old(procs)) && signals == Terms(order) + Kills(order)
    {
      closed := true;
      var targets := ListOf(procs);
      order, signals := targets, [];
      for k := 0 to |targets|
        invariant signals == Terms(targets[..k])
      {
        signals := signals + [Term(targets[k])];
        assert targets[..k + 1] == targets[..k] + [targets[k]];
      }
      assert targets[..|targets|] == targets;
      for k := 0 to |targets|
        invariant signals == Terms(targets) + Kills(targets[..k])
      {
        signals := signals + [Kill(targets[k])];
        assert targets[..k + 1] == targets[..k] + [targets[k]];
      }
    }
  }

  method ListOf(procs: set<nat>) returns (order: seq<nat>)
    ensures Lists(order, procs)
  {
    order := [];
    var left := procs;
    while left != {}
      invariant left <= procs && Lists(order, procs - left)
      decreases left
    {
      var p :| p in left;
      order, left := order + [p], left - {p};
    }
  }

  class StopState {
    const sessions: SessionRegistry
    var draining: bool
    var immediate: bool
    var result: RunResult

    function View(): Flags
      reads this
    {
      Flags(draining, immediate, result)
    }

    constructor ()
      ensures View() == NO_STOP && fresh(sessions) && sessions.procs == {} && !sessions.closed
    {
      sessions := new SessionRegistry();
      draining, immediate, result := false, false, OPERATOR_DRAIN;
    }

    method RequestDrain(result: RunResult)
      modifies this
      ensures View() == Requested(old(View()), AskDrain(result))
    {
      if draining || immediate {
        return;
      }
      draining := true;
      this.result := result;
    }

    /** Closes and kills the sessions, unless an immediate stop was requested before. */
    method RequestImmediate(result: RunResult) returns (signals: seq<Signal>)
      modifies this, sessions
      ensures View() == Requested(old(View()), AskImmediate(result)) && immediate
      ensures if old(immediate) then signals == [] && sessions.closed == old(sessions.closed)
              else
                && sessions.closed
                && exists order :: Lists(order, old(sessions.procs)) && signals == Terms(order) + Kills(order)
      ensures sessions.procs == old(sessions.procs)
    {
      var already := immediate;
      immediate := true;
      signals := [];
      if !already {
        this.result := result;
        ghost var order;
        order, signals := sessions.KillAll();
      }
    }

    /** Escalates by one level: none to draining, draining to immediate. */
    method Escalate() returns (signals: seq<Signal>)
      modifies this, sessions
      ensures View() == Requested(old(View()), NextRequest(old(View())))
      ensures !old(View()).Draining() ==>
        draining && !immediate && result == OPERATOR_DRAIN && signals == [] && sessions.closed == old(sessions.closed)
      ensures old(View()).Draining() && !old(immediate) ==>
        && immediate && result == OPERATOR_STOP && sessions.closed
        && exists order :: Lists(order, old(sessions.procs)) && signals == Terms(order) + Kills(order)
      ensures old(immediate) ==> View() == old(View()) && signals == []
    {
      signals := [];
      if draining || immediate {
        signals := RequestImmediate(OPERATOR_STOP);
      } else {
        RequestDrain(OPERATOR_DRAIN);
      }
    }
  }

  /** The first SIGINT of a run drains it, the second stops it at once, and a third changes nothing. */
  lemma ThreeSigints()
    ensures
      var one := Requested(NO_STOP, NextRequest(NO_STOP));
      var two := Requested(one, NextRequest(one));
      && one == Flags(true, false, OPERATOR_DRAIN) && two == Flags(true, true, OPERATOR_STOP)
      && Requested(two, NextRequest(two)) == two
  {
  }

  // Which request counts.

  function After(requests: seq<Request>): Flags {
    if requests == [] then NO_STOP else Requested(After(requests[..|requests| - 1]), requests[|requests| - 1])
  }

  function FirstOf(requests: seq<Request>, immediate: bool): Option<RunResult> {
    if requests == [] then None
    else if requests[0].AskImmediate? == immediate then Some(requests[0].result)
    else FirstOf(requests[1..], immediate)
  }

  lemma {:induction false} FirstOfAppend(requests: seq<Request>, r: Request, immediate: bool)
    ensures FirstOf(requests + [r], immediate) ==
      if FirstOf(requests, immediate).Some? then FirstOf(requests, immediate)
      else if r.AskImmediate? == immediate then Some(r.result) else None
  {
    if requests == [] {
    } else {
      assert (requests + [r])[1..] == requests[1..] + [r];
      FirstOfAppend(requests[1..], r, immediate);
    }
  }

  /** The run's result is the first immediate request, if there is one, and else the first drain. */
  lemma {:induction false} FirstRequestWins(requests: seq<Request>)
    ensures
      var f := After(requests);
      && f.immediate == FirstOf(requests, true).Some?
      && f.Draining() == (requests != [])
      && f.Result() == if FirstOf(requests, true).Some? then FirstOf(requests, true) else FirstOf(requests, false)
  {
    if requests == [] {
    } else {
      var before, r := requests[..|requests| - 1], requests[|requests| - 1];
      assert requests == before + [r];
      FirstRequestWins(before);
      FirstOfAppend(before, r, true);
      FirstOfAppend(before, r, false);
      if before == [] {
      } else if FirstOf(before, true).None? {
        SomeDrain(before);
      }
    }
  }

  lemma {:induction false} SomeDrain(requests: seq<Request>)
    requires requests != [] && FirstOf(requests, true).None?
    ensures FirstOf(requests, false).Some?
  {
  }

  /** The corner: a broken branch drains the run with its own exit code only if no drain came before it;
      an operator's earlier drain keeps exit code 0. */
  lemma BrokenCodeOnlyIfFirst(before: seq<Request>, broken: RunResult, later: seq<Request>)
    requires FirstOf(before, true).None? && FirstOf(later, true).None?
    ensures
      After(before + [AskDrain(broken)] + later).Result() ==
        if before == [] then Some(broken) else FirstOf(before, false)
  {
    var rest := [AskDrain(broken)] + later;
    assert before + [AskDrain(broken)] + later == before + rest;
    assert rest[1..] == later && rest[0] == AskDrain(broken);
    FirstOfRest(rest, true);
    FirstOfRest(rest, false);
    hide FirstOf, After;
    FirstRequestWins(before + rest);
    FirstOfJoin(before, rest, true);
    FirstOfJoin(before, rest, false);
    if before == [] {
      assert before + rest == rest;
      NoneFirst(false);
    } else {
      SomeDrain(before);
    }
  }

  lemma NoneFirst(immediate: bool)
    ensures FirstOf([], immediate).None?
  {
  }

  lemma FirstOfRest(requests: seq<Request>, immediate: bool)
    requires requests != []
    ensures FirstOf(requests, immediate) ==
      if requests[0].AskImmediate? == immediate then Some(requests[0].result) else FirstOf(requests[1..], immediate)
  {
  }

  lemma {:induction false} FirstOfJoin(a: seq<Request>, b: seq<Request>, immediate: bool)
    ensures FirstOf(a + b, immediate) ==
      if FirstOf(a, immediate).Some? then FirstOf(a, immediate) else FirstOf(b, immediate)
  {
    if a == [] {
      assert a + b == b;
    } else {
      assert (a + b)[1..] == a[1..] + b;
      FirstOfJoin(a[1..], b, immediate);
    }
  }
}

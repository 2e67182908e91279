/** What the calls on the main thread keep: flags, results, and how many kills there are. */
module StopCalls {
  import opened Wrappers
  import opened Stopping
  import opened StopMachine

  // The calls on the main thread.

  /** A start is outermost, a kill is innermost. */
  predicate Placed(stack: seq<Frame>) {
    && (forall i | 0 < i < |stack| :: !stack[i].InSpawn?)
    && (forall i | 0 <= i < |stack| - 1 :: !stack[i].InKill?)
  }

  /** What a call has done so far shows in the stop state. */
  predicate FrameOk(f: Frame, s: Stop) {
    match f
    case InSpawn(_, _) => true
    case InDrain(id, flagged) => id < |s.requests| && s.requests[id].AskDrain? && (flagged ==> s.drain)
    case InStop(id, flagged) => id < |s.requests| && s.requests[id].AskImmediate? && (flagged ==> s.immediate)
    case InKill(_) => s.immediate
  }

  predicate StackOk(stack: seq<Frame>, s: Stop) {
    Placed(stack) && forall i | 0 <= i < |stack| :: FrameOk(stack[i], s)
  }

  /** The stop state moves on: requests are added, flags go up. */
  predicate Grows(s: Stop, s': Stop) {
    && |s.requests| <= |s'.requests| && s'.requests[..|s.requests|] == s.requests
    && (s.drain ==> s'.drain) && (s.immediate ==> s'.immediate)
  }

  lemma FrameGrows(f: Frame, s: Stop, s': Stop)
    requires FrameOk(f, s) && Grows(s, s')
    ensures FrameOk(f, s')
  {
    if f.InDrain? || f.InStop? {
      assert s'.requests[f.id] == s'.requests[..|s.requests|][f.id];
    }
  }

  lemma WithTopOk(below: seq<Frame>, next: Option<Frame>, s: Stop)
    requires Placed(below) && (forall i | 0 <= i < |below| :: FrameOk(below[i], s) && !below[i].InKill?)
    requires next.Some? ==> FrameOk(next.value, s) && (next.value.InSpawn? ==> below == [])
    ensures StackOk(WithTop(below, next), s)
  {
    hide FrameOk;
  }

  /** A request that passes its test never interrupts a kill. */
  lemma NoKillYet(stack: seq<Frame>, s: Stop)
    requires StackOk(stack, s) && !s.immediate
    ensures forall i | 0 <= i < |stack| :: !stack[i].InKill?
  {
    forall i | 0 <= i < |stack|
      ensures !stack[i].InKill?
    {
      assert FrameOk(stack[i], s);
    }
  }

  lemma NotedGrows(s: Stop, r: Request, stack: seq<Frame>)
    ensures Grows(s, Noted(s, r, stack)) && Noted(s, r, stack).author == s.author
    ensures FrameOk(NewFrame(s, r), Noted(s, r, stack))
  {
    hide HasDrain, HasStop;
    assert (s.requests + [r])[..|s.requests|] == s.requests;
  }

  lemma HandledStack(stack: seq<Frame>, s: Stop, r: Request)
    requires StackOk(stack, s)
    ensures
      StackOk(WithTop(stack, if PassesTest(s, r) then Some(NewFrame(s, r)) else None), Noted(s, r, stack))
  {
    var s' := Noted(s, r, stack);
    NotedGrows(s, r, stack);
    hide FrameOk, Noted, Grows;
    forall i | 0 <= i < |stack|
      ensures FrameOk(stack[i], s')
    {
      FrameGrows(stack[i], s, s');
    }
    if PassesTest(s, r) {
      NoKillYet(stack, s);
      WithTopOk(stack, Some(NewFrame(s, r)), s');
    }
  }

  lemma StopAfterGrows(s: Stop, f: Frame, targets: seq<nat>)
    requires FrameOk(f, s)
    ensures Grows(s, StopAfter(s, f)) && StopAfter(s, f).requests == s.requests
    ensures FrameAfter(f, targets).Some? ==>
      FrameOk(FrameAfter(f, targets).value, StopAfter(s, f)) && (FrameAfter(f, targets).value.InSpawn? ==> f.InSpawn?)
  {
  }

  lemma SteppedStack(stack: seq<Frame>, s: Stop, targets: seq<nat>)
    requires StackOk(stack, s) && stack != []
    ensures StackOk(WithTop(Below(stack), FrameAfter(TopOf(stack), targets)), StopAfter(s, TopOf(stack)))
  {
    var top, below := TopOf(stack), Below(stack);
    var s' := StopAfter(s, top);
    assert FrameOk(stack[|stack| - 1], s);
    StopAfterGrows(s, top, targets);
    hide FrameOk, StopAfter, Grows, FrameAfter;
    forall i | 0 <= i < |below|
      ensures FrameOk(below[i], s') && !below[i].InKill?
    {
      assert below[i] == stack[i] && FrameOk(stack[i], s);
      FrameGrows(stack[i], s, s');
    }
    WithTopOk(below, FrameAfter(top, targets), s');
  }

  ghost predicate CallsOk(m: Machine) {
    StackOk(m.stack, m.stop)
  }

  lemma CallsKept(m: Machine, a: Action)
    requires CallsOk(m)
    ensures CallsOk(Act(m, a))
  {
    hide StackOk, Noted, StopAfter, RegistryAfter, SentAfter, FrameAfter, WithTop, Below, Lists, PassesTest, NewFrame;
    if Enabled(m, a) {
      match a {
        case Handle(r) => HandledStack(m.stack, m.stop, r);
        case MainStep(order) => SteppedStack(m.stack, m.stop, m.sent.Targets());
        case MainSpawn(p) => OneSpawn(p, m.stop);
        case _ =>
      }
    }
  }

  lemma OneSpawn(p: nat, s: Stop)
    ensures StackOk([InSpawn(p, false)], s)
  {
  }

  // Whose result stands.

  /** The first request of a kind. */
  function FirstIndex(requests: seq<Request>, immediate: bool): Option<nat> {
    if requests == [] then None
    else
      var before := FirstIndex(requests[..|requests| - 1], immediate);
      if before.Some? then before
      else if requests[|requests| - 1].AskImmediate? == immediate then Some(|requests| - 1)
      else None
  }

  /** The first immediate request, if there is one and no drain was past its test when it came; else the
      first drain. */
  function Winner(s: Stop): Option<nat> {
    var stop := FirstIndex(s.requests, true);
    if stop.None? || s.overtaken then FirstIndex(s.requests, false) else stop
  }

  lemma FirstIndexNext(requests: seq<Request>, r: Request, immediate: bool)
    ensures FirstIndex(requests + [r], immediate) ==
      if FirstIndex(requests, immediate).Some? then FirstIndex(requests, immediate)
      else if r.AskImmediate? == immediate then Some(|requests|) else None
  {
    assert (requests + [r])[..|requests|] == requests;
  }

  lemma {:induction false} FirstIndexIsFirst(requests: seq<Request>, immediate: bool)
    ensures
      var i := FirstIndex(requests, immediate);
      if i.None? then FirstOf(requests, immediate).None?
      else i.value < |requests| && requests[i.value].AskImmediate? == immediate
           && FirstOf(requests, immediate) == Some(requests[i.value].result)
  {
    if requests == [] {
    } else {
      var before, last := requests[..|requests| - 1], requests[|requests| - 1];
      FirstIndexIsFirst(before, immediate);
      FirstOfAppend(before, last, immediate);
      assert requests == before + [last];
    }
  }

  predicate IsRequest(f: Frame) {
    f.InDrain? || f.InStop?
  }

  /** The outermost call that is no start. */
  function Base(stack: seq<Frame>): nat {
    if MainSpawns(stack) then 1 else 0
  }

  /** The outermost request under way will write last, and it is the one that should; without one, the
      right result stands. */
  predicate WriterOk(stack: seq<Frame>, s: Stop) {
    var b := Base(stack);
    if b < |stack| && IsRequest(stack[b]) then Winner(s) == Some(stack[b].id) else s.author == Winner(s)
  }

  /** The flags and the calls under way account for the requests. */
  predicate RequestsOk(stack: seq<Frame>, s: Stop) {
    var stop, drain := FirstIndex(s.requests, true), FirstIndex(s.requests, false);
    && (s.immediate || HasStop(stack) <==> stop.Some?)
    && (s.drain || HasDrain(stack) ==> drain.Some?)
    && (drain.Some? && stop.None? ==> s.drain || HasDrain(stack))
    && (s.overtaken ==> drain.Some? && stop.Some?)
    && (s.stops == 0 <==> stop.None?)
  }

  lemma HasOnTop(below: seq<Frame>, f: Frame)
    ensures HasDrain(below + [f]) <==> HasDrain(below) || f.InDrain?
    ensures HasStop(below + [f]) <==> HasStop(below) || f.InStop?
  {
    var stack := below + [f];
    assert forall i | 0 <= i < |below| :: stack[i] == below[i];
    assert stack[|below|] == f;
  }

  lemma TopAndBelow(stack: seq<Frame>)
    requires stack != []
    ensures stack == Below(stack) + [TopOf(stack)]
  {
  }

  lemma HandledRequests(stack: seq<Frame>, s: Stop, r: Request)
    requires StackOk(stack, s) && RequestsOk(stack, s)
    ensures
      var stack' := WithTop(stack, if PassesTest(s, r) then Some(NewFrame(s, r)) else None);
      RequestsOk(stack', Noted(s, r, stack))
  {
    FirstIndexNext(s.requests, r, true);
    FirstIndexNext(s.requests, r, false);
    HasOnTop(stack, NewFrame(s, r));
    hide HasDrain, HasStop, FirstIndex, StackOk;
  }

  lemma StepKinds(s: Stop, f: Frame, targets: seq<nat>)
    ensures
      var s', next := StopAfter(s, f), FrameAfter(f, targets);
      && s'.requests == s.requests && s'.overtaken == s.overtaken && s'.nested == s.nested && s'.stops == s.stops
      && s'.drain == (s.drain || (f.InDrain? && !f.flagged))
      && s'.immediate == (s.immediate || (f.InStop? && !f.flagged))
      && (next.Some? && next.value.InDrain? <==> f.InDrain? && !f.flagged)
      && (next.Some? && next.value.InStop? <==> f.InStop? && !f.flagged)
      && (next == Some(InKill(Closing)) <==> f.InStop? && f.flagged)
  {
  }

  lemma TopFlags(stack: seq<Frame>, s: Stop)
    requires StackOk(stack, s) && stack != []
    ensures
      var top := TopOf(stack);
      && (top.InDrain? && top.flagged ==> s.drain) && (top.InStop? && top.flagged ==> s.immediate)
      && (top.InKill? ==> s.immediate)
  {
    assert FrameOk(stack[|stack| - 1], s);
  }

  lemma SteppedRequests(stack: seq<Frame>, s: Stop, targets: seq<nat>)
    requires StackOk(stack, s) && RequestsOk(stack, s) && stack != []
    ensures RequestsOk(WithTop(Below(stack), FrameAfter(TopOf(stack), targets)), StopAfter(s, TopOf(stack)))
  {
    var top, below := TopOf(stack), Below(stack);
    TopFlags(stack, s);
    TopAndBelow(stack);
    HasOnTop(below, top);
    StepKinds(s, top, targets);
    var next := FrameAfter(top, targets);
    if next.Some? {
      HasOnTop(below, next.value);
    }
    hide HasDrain, HasStop, FirstIndex, StackOk, Below, TopOf, StopAfter, FrameAfter;
  }

  /** What stands at the base of the stack. */
  lemma BaseCall(stack: seq<Frame>, s: Stop)
    requires StackOk(stack, s)
    ensures
      var b := Base(stack);
      && (HasDrain(stack) || HasStop(stack) <==> b < |stack| && IsRequest(stack[b]))
      && (!s.immediate && b < |stack| ==> IsRequest(stack[b]))
      && (b < |stack| && stack[b].InDrain? ==> HasDrain(stack))
      && (b < |stack| && stack[b].InStop? ==> HasStop(stack))
      && (b + 1 < |stack| ==> IsRequest(stack[b]))
  {
    var b := Base(stack);
    hide FrameOk;
    if !s.immediate {
      NoKillYet(stack, s);
    }
    if HasDrain(stack) || HasStop(stack) {
      var i :| 0 <= i < |stack| && IsRequest(stack[i]);
    }
  }

  lemma SameBase(stack: seq<Frame>, f: Frame)
    requires !f.InSpawn?
    ensures
      var stack', b := stack + [f], Base(stack);
      Base(stack') == b && b <= |stack| && stack'[b] == if b < |stack| then stack[b] else f
  {
  }

  lemma HandledWriter(stack: seq<Frame>, s: Stop, r: Request)
    requires StackOk(stack, s) && RequestsOk(stack, s) && WriterOk(stack, s)
    ensures
      var stack' := WithTop(stack, if PassesTest(s, r) then Some(NewFrame(s, r)) else None);
      WriterOk(stack', Noted(s, r, stack))
  {
    FirstIndexNext(s.requests, r, true);
    FirstIndexNext(s.requests, r, false);
    BaseCall(stack, s);
    SameBase(stack, NewFrame(s, r));
    hide HasDrain, HasStop, FirstIndex, StackOk, Base;
  }

  /** A statement of the innermost call leaves the outermost in place, unless they are the same. */
  lemma SteppedBase(stack: seq<Frame>, targets: seq<nat>)
    requires stack != [] && Placed(stack)
    ensures
      var b, top, next := Base(stack), TopOf(stack), FrameAfter(TopOf(stack), targets);
      var stack' := WithTop(Below(stack), next);
      && (|stack| > b + 1 ==> Base(stack') == b && |stack'| > b && stack'[b] == stack[b])
      && (|stack| == b + 1 ==>
            && Base(stack') == b && (next.Some? ==> |stack'| == b + 1 && stack'[b] == next.value)
            && (next.None? ==> |stack'| == b)
            && top == stack[b] && !top.InSpawn?)
      && (|stack| == b ==> top.InSpawn? && |stack'| == Base(stack'))
  {
  }

  lemma SteppedWriter(stack: seq<Frame>, s: Stop, targets: seq<nat>)
    requires StackOk(stack, s) && WriterOk(stack, s) && stack != []
    ensures WriterOk(WithTop(Below(stack), FrameAfter(TopOf(stack), targets)), StopAfter(s, TopOf(stack)))
  {
    SteppedBase(stack, targets);
    BaseCall(stack, s);
    hide HasDrain, HasStop, FirstIndex, StackOk, Base, WithTop, Below;
  }

  ghost predicate ResultOk(m: Machine) {
    RequestsOk(m.stack, m.stop) && WriterOk(m.stack, m.stop)
  }

  lemma ResultKept(m: Machine, a: Action)
    requires CallsOk(m) && ResultOk(m)
    ensures ResultOk(Act(m, a))
  {
    hide StackOk, RequestsOk, WriterOk, Noted, StopAfter, RegistryAfter, SentAfter, FrameAfter, WithTop, Below, Lists,
      PassesTest, NewFrame;
    if Enabled(m, a) {
      match a {
        case Handle(r) =>
          HandledRequests(m.stack, m.stop, r);
          HandledWriter(m.stack, m.stop, r);
        case MainStep(order) =>
          SteppedRequests(m.stack, m.stop, m.sent.Targets());
          SteppedWriter(m.stack, m.stop, m.sent.Targets());
        case MainSpawn(p) => SpawnResult(p, m.stop);
        case _ =>
      }
    }
  }

  lemma SpawnResult(p: nat, s: Stop)
    requires RequestsOk([], s) && WriterOk([], s)
    ensures RequestsOk([InSpawn(p, false)], s) && WriterOk([InSpawn(p, false)], s)
  {
    hide FirstIndex;
    HasOnTop([], InSpawn(p, false));
    assert [] + [InSpawn(p, false)] == [InSpawn(p, false)];
  }

  // How many kills.

  function CountStops(stack: seq<Frame>): nat {
    if stack == [] then 0 else CountStops(Below(stack)) + if TopOf(stack).InStop? then 1 else 0
  }

  /** Every request that found the flag unset kills, once it has written; there is more than one of them
      exactly if one came while another was past its test. */
  predicate StopsOk(stack: seq<Frame>, s: Stop, kills: nat) {
    && s.stops == kills + CountStops(stack) + (if stack != [] && TopOf(stack) == InKill(Closing) then 1 else 0)
    && (kills > 0 ==> s.immediate)
    && (s.nested <==> s.stops >= 2)
  }

  lemma CountOnTop(below: seq<Frame>, f: Frame)
    ensures CountStops(below + [f]) == CountStops(below) + if f.InStop? then 1 else 0
  {
    assert Below(below + [f]) == below;
  }

  lemma {:induction false} CountHas(stack: seq<Frame>)
    ensures CountStops(stack) > 0 <==> HasStop(stack)
    decreases |stack|
  {
    if stack == [] {
    } else {
      CountHas(Below(stack));
      TopAndBelow(stack);
      HasOnTop(Below(stack), TopOf(stack));
    }
  }

  lemma HandledStops(stack: seq<Frame>, s: Stop, r: Request, kills: nat)
    requires StackOk(stack, s) && StopsOk(stack, s, kills)
    ensures
      var stack' := WithTop(stack, if PassesTest(s, r) then Some(NewFrame(s, r)) else None);
      StopsOk(stack', Noted(s, r, stack), kills)
  {
    CountOnTop(stack, NewFrame(s, r));
    CountHas(stack);
    if !s.immediate {
      NoKillYet(stack, s);
    }
    hide StackOk, CountStops, HasStop, HasDrain;
  }

  lemma SteppedStops(stack: seq<Frame>, s: Stop, targets: seq<nat>, kills: nat)
    requires StackOk(stack, s) && StopsOk(stack, s, kills) && stack != []
    ensures
      var top := TopOf(stack);
      StopsOk(WithTop(Below(stack), FrameAfter(top, targets)), StopAfter(s, top),
              kills + if top == InKill(Closing) then 1 else 0)
  {
    var top, below := TopOf(stack), Below(stack);
    TopFlags(stack, s);
    StepKinds(s, top, targets);
    var next := FrameAfter(top, targets);
    if next.Some? {
      CountOnTop(below, next.value);
      TopOfWith(below, next.value);
    }
    NoKillBelow(stack, s);
    CountTop(stack);
    hide StackOk, Below, TopOf, StopAfter, FrameAfter, CountStops;
  }

  lemma TopOfWith(below: seq<Frame>, f: Frame)
    ensures TopOf(below + [f]) == f
  {
  }

  lemma CountTop(stack: seq<Frame>)
    requires stack != []
    ensures CountStops(stack) == CountStops(Below(stack)) + if TopOf(stack).InStop? then 1 else 0
  {
  }

  lemma NoKillBelow(stack: seq<Frame>, s: Stop)
    requires StackOk(stack, s) && stack != []
    ensures Below(stack) != [] ==> !TopOf(Below(stack)).InKill?
  {
    hide FrameOk;
    if Below(stack) != [] {
      assert TopOf(Below(stack)) == stack[|stack| - 2];
    }
  }

  ghost predicate KillsOk(m: Machine) {
    StopsOk(m.stack, m.stop, |m.sent.kills|)
  }

  lemma KillsKept(m: Machine, a: Action)
    requires CallsOk(m) && KillsOk(m)
    ensures KillsOk(Act(m, a))
  {
    hide StackOk, StopsOk, Noted, StopAfter, RegistryAfter, FrameAfter, WithTop, Below, Lists, PassesTest, NewFrame;
    if Enabled(m, a) {
      match a {
        case Handle(r) => HandledStops(m.stack, m.stop, r, |m.sent.kills|);
        case MainStep(order) => SteppedStops(m.stack, m.stop, m.sent.Targets(), |m.sent.kills|);
        case MainSpawn(p) => SpawnStops(p, m.stop, |m.sent.kills|);
        case _ =>
      }
    }
  }

  lemma SpawnStops(p: nat, s: Stop, kills: nat)
    requires StopsOk([], s, kills)
    ensures StopsOk([InSpawn(p, false)], s, kills)
  {
    CountOnTop([], InSpawn(p, false));
    assert [] + [InSpawn(p, false)] == [InSpawn(p, false)];
  }
}

/** What every state of the frontier scheduler keeps, and that each action keeps it. */
module SchedulerInvariant {
  import opened Wrappers
  import opened Board
  import opened TicketFlow
  import opened TicketFlowProofs
  import opened IntegrationCheck
  import opened Sorting
  import opened Scheduler

  // `hand` is the flow (or the check) the conductor holds in the middle of an action: its job has
  // been taken from the queue, or it has left `waiting`, and it has not yielded again.

  predicate WaitingOk(s: State, hand: Option<nat>) {
    && NoRepeats(s.waiting)
    && forall t | t in s.waiting :: t in s.running && s.running[t].at.AtGreen? && hand != Some(t)
  }

  predicate FlowPlaced(cfg: Config, s: State, hand: Option<nat>, t: nat)
    requires t in s.running
  {
    var f := s.running[t];
    && t != CHECKER && t in s.dispatched && FlowOk(f, cfg.maxRounds) && !f.at.Ended?
    && (hand != Some(t) ==> !f.at.Created? && (f.at.AtGreen? ==> t in s.waiting))
  }

  predicate RunningOk(cfg: Config, s: State, hand: Option<nat>) {
    && (forall t | t in s.running :: FlowPlaced(cfg, s, hand, t))
    && s.dispatched <= s.world.cards.Keys && CHECKER !in s.world.cards
    && |s.running| <= cfg.parallel
    && (s.checker.Some? ==>
          !s.checker.value.at.CheckEnded? && (hand != Some(CHECKER) ==> CheckAtJob(s.checker.value.at)))
  }

  /** The jobs that should be outstanding under a key: one per flow that does not wait, one per check. */
  function Expected(s: State, hand: Option<nat>, n: nat): nat {
    if hand == Some(n) then 0
    else if (n in s.running && n !in s.waiting) || (n == CHECKER && s.checker.Some?) then 1
    else 0
  }

  ghost predicate JobsOk(s: State, hand: Option<nat>) {
    forall n: nat :: s.outstanding[n] == Expected(s, hand, n)
  }

  /** A ticket is dispatched once, plus once for every time it was parked back to queued. */
  ghost predicate CountsOk(s: State) {
    forall n: nat :: s.dispatches[n] == s.requeues[n] + if n in s.dispatched then 1 else 0
  }

  /** No state label at all: the conductor leaves such a sub-issue alone. */
  predicate Untracked(card: Card) {
    card.labels * STATES == {}
  }

  predicate CardsOk(cfg: Config, s: State) {
    && (forall t | t in s.world.cards :: Legit(s.world.cards[t]) || Untracked(s.world.cards[t]))
    && (forall t | t in s.running :: t in s.world.cards && CardOk(s.running[t], s.world.cards[t]))
    && (forall t | t in cfg.resumes :: t in s.world.cards && (t !in s.dispatched ==>
          In(s.world.cards[t], InReview) && s.world.cards[t].pr == Open))
    && (forall t | t in s.running && t in cfg.resumes :: s.running[t].resumed)
  }

  // The history of the integration branch.

  /** The last commit that turned green. */
  function GreenOf(h: seq<Mark>, baseline: Option<Commit>): Option<Commit> {
    if h == [] then baseline
    else if h[|h| - 1].TurnedGreen? then Some(h[|h| - 1].commit)
    else GreenOf(h[..|h| - 1], baseline)
  }

  /** The tickets seen to merge since then. */
  function SeenSince(h: seq<Mark>): seq<nat> {
    if h == [] || h[|h| - 1].TurnedGreen? then []
    else SeenSince(h[..|h| - 1]) + if h[|h| - 1].seen then [h[|h| - 1].ticket] else []
  }

  /** Whether a merge since then went through although the conductor could not see that it did:
      reported as refused, and the pull request could not be read again. */
  predicate UnseenSince(h: seq<Mark>) {
    h != [] && h[|h| - 1].Landed? && (!h[|h| - 1].seen || UnseenSince(h[..|h| - 1]))
  }

  /** Every merge landed on the green commit (unless an unseen merge came in between), and no other
      seen merge landed since that commit turned green. */
  predicate Orderly(h: seq<Mark>, baseline: Option<Commit>) {
    h == [] ||
    var before := h[..|h| - 1];
    && Orderly(before, baseline)
    && match h[|h| - 1]
       case TurnedGreen(_) => true
       case Landed(_, onto, _) =>
         SeenSince(before) == [] && (!UnseenSince(before) ==> GreenOf(before, baseline) == Some(onto))
  }

  predicate Fresh(w: World) {
    w.tip < w.next && forall c | c in w.verified :: c < w.next
  }

  predicate GreenOk(cfg: Config, s: State) {
    var g, h := s.guard, s.world.history;
    && Fresh(s.world) && Orderly(h, cfg.Baseline())
    && g.green == GreenOf(h, cfg.Baseline())
    && g.merged == SeenSince(h) && |g.merged| <= 1
    && (g.green.Some? ==>
          g.green.value < s.world.next && (g.green.value in s.world.verified || g.green == cfg.Baseline()))
    && (s.Settled() ==>
          g.merged == [] && g.green.Some? && (s.world.tip == g.green.value <==> !UnseenSince(h)))
    && (s.checker.Some? ==> !g.needsCheck && !g.broken && s.checker.value.sha == s.world.tip)
    && (g.broken ==> s.draining)
  }

  predicate ConfigOk(cfg: Config) {
    && cfg.parallel >= 1
    && (forall i, j | 0 <= i < j < |cfg.heads| :: cfg.heads[i].number != cfg.heads[j].number)
    && NoRepeats(cfg.resumes)
  }

  ghost predicate Inv(cfg: Config, s: State, hand: Option<nat>) {
    && ConfigOk(cfg)
    && WaitingOk(s, hand) && RunningOk(cfg, s, hand) && JobsOk(s, hand) && CountsOk(s)
    && CardsOk(cfg, s) && GreenOk(cfg, s)
    && (hand == None || hand == Some(CHECKER) || hand.value in s.running)
    && (hand == Some(CHECKER) ==> s.checker.Some?)
  }

  // The world under effects.

  lemma {:induction false} AbsorbCards(w: World, t: nat, es: seq<Effect>)
    requires t in w.cards
    ensures Absorb(w, t, es).cards == w.cards[t := ApplyAll(w.cards[t], es)]
    decreases |es|
  {
    if es == [] {
      assert w.cards[t := w.cards[t]] == w.cards;
    } else {
      AbsorbCards(Absorb1(w, t, es[0]), t, es[1..]);
    }
  }

  lemma {:induction false} AbsorbNoMerge(w: World, t: nat, es: seq<Effect>)
    requires t in w.cards && NoMerge(es) && Fresh(w)
    ensures
      var v := Absorb(w, t, es);
      v.tip == w.tip && v.history == w.history && Fresh(v) && w.next <= v.next && w.verified <= v.verified
    decreases |es|
  {
    if es == [] {
    } else {
      assert NoMerge(es[1..]);
      AbsorbNoMerge(Absorb1(w, t, es[0]), t, es[1..]);
    }
  }

  lemma AbsorbMerge(w: World, t: nat, es: seq<Effect>)
    requires t in w.cards && es != [] && es[0].MergeCalled? && NoMerge(es[1..]) && Fresh(w)
    ensures
      var v := Absorb(w, t, es);
      && Fresh(v) && w.next <= v.next && w.verified <= v.verified
      && (if es[0].landed then v.tip == w.next && v.history == w.history + [Landed(t, w.tip, es[0].seen)]
          else v.tip == w.tip && v.history == w.history)
  {
    AbsorbNoMerge(Absorb1(w, t, es[0]), t, es[1..]);
  }

  // Advancing a flow. What matters of its resumption, for the scheduler:

  predicate StepOk(cfg: Config, f: Flow, card: Card, step: Step) {
    step.Step? ==>
      var g, es := step.flow, step.effects;
      && FlowOk(g, cfg.maxRounds) && !g.at.Created? && (f.at.AtGreen? ==> !g.at.AtGreen?) && g.resumed == f.resumed
      && Legit(ApplyAll(card, es)) && CardOk(g, ApplyAll(card, es))
      && (if f.at.AtGreen? then
            && es != [] && es[0].MergeCalled? && NoMerge(es[1..])
            && (es[0].seen <==> g.at == Ended(StatusIntegrated)) && (es[0].seen ==> es[0].landed)
          else NoMerge(es) && g.at != Ended(StatusIntegrated))
  }

  lemma ResumeStepOk(cfg: Config, f: Flow, r: Reply, env: Env, card: Card)
    requires Fits(f.at, r) && FlowOk(f, cfg.maxRounds) && CardOk(f, card)
    ensures StepOk(cfg, f, card, Resume(f, r, cfg.maxRounds, env))
  {
    hide Resume;
    var step := Resume(f, r, cfg.maxRounds, env);
    if step.Step? {
      ResumeFlowOk(f, r, cfg.maxRounds, env);
      ResumeCard(f, r, cfg.maxRounds, env, card);
      IntegratedOnlyByMerge(f, r, cfg.maxRounds, env);
      LegitPrefix(card, step.effects, |step.effects|);
      assert step.effects[..|step.effects|] == step.effects;
    }
  }

  /** The flow in hand: out of `waiting`, no job outstanding, and settled if it is about to merge. */
  predicate InHand(cfg: Config, s: State, t: nat, step: Step) {
    && t in s.running && t in s.world.cards && t !in s.waiting && t != CHECKER && s.status != Crashed
    && (s.running[t].at.AtGreen? ==> s.Settled())
    && StepOk(cfg, s.running[t], s.world.cards[t], step)
  }

  function HandAfter(s: State, t: nat): Option<nat> {
    if s.status == Crashed then Some(t) else None
  }

  /** What a yield leaves as it was, whatever the step. */
  predicate YieldFrame(s: State, t: nat, s': State) {
    && s'.dispatched == s.dispatched && s'.dispatches == s.dispatches && s'.requeues == s.requeues
    && s'.checker == s.checker && s'.limited == s.limited && s'.draining == s.draining
    && s'.immediate == s.immediate && s'.jobs == s.jobs && s'.world.cards.Keys == s.world.cards.Keys
  }

  // A yield ends the flow, sends it to wait, or sends it to a job.

  predicate FlowGone(s: State, t: nat, s': State) {
    YieldFrame(s, t, s') && s'.status == s.status
    && s'.running == s.running - {t} && s'.waiting == s.waiting && s'.outstanding == s.outstanding
  }

  predicate FlowMoved(s: State, t: nat, g: Flow, s': State) {
    && YieldFrame(s, t, s') && s'.status == s.status && s'.running == s.running[t := g]
    && (if g.at.AtGreen? then s'.waiting == s.waiting + [t] && s'.outstanding == s.outstanding
        else s'.waiting == s.waiting && s'.outstanding == s.outstanding + multiset{t})
  }

  lemma YieldCases(s: State, t: nat, step: Step)
    requires t in s.running && t in s.world.cards
    ensures
      var s' := Yielded(s, t, step);
      if step.Crash? then s' == s.(status := Crashed)
      else if step.flow.at.Ended? then FlowGone(s, t, s')
      else FlowMoved(s, t, step.flow, s')
  {
    hide Absorb;
  }

  lemma GoneWaiting(cfg: Config, s: State, t: nat, s': State)
    requires FlowGone(s, t, s') && t !in s.waiting && t != CHECKER
    requires WaitingOk(s, Some(t)) && JobsOk(s, Some(t)) && CountsOk(s)
    ensures WaitingOk(s', None) && JobsOk(s', None) && CountsOk(s')
  {
    forall n: nat
      ensures s'.outstanding[n] == Expected(s', None, n)
    {
      assert s.outstanding[n] == Expected(s, Some(t), n);
    }
  }

  lemma GoneRunning(cfg: Config, s: State, t: nat, s': State)
    requires FlowGone(s, t, s') && t !in s.waiting && t != CHECKER && RunningOk(cfg, s, Some(t))
    ensures RunningOk(cfg, s', None)
  {
    hide FlowOk;
    FewerRun(s.running, t);
    forall u | u in s'.running
      ensures FlowPlaced(cfg, s', None, u)
    {
      assert FlowPlaced(cfg, s, Some(t), u);
    }
  }

  lemma FewerRun(running: map<nat, Flow>, t: nat)
    ensures |running - {t}| <= |running|
  {
    assert (running - {t}).Keys == running.Keys - {t};
    assert |running - {t}| == |(running - {t}).Keys| && |running| == |running.Keys|;
  }

  lemma MovedWaiting(cfg: Config, s: State, t: nat, g: Flow, s': State)
    requires FlowMoved(s, t, g, s') && t in s.running && t !in s.waiting && t != CHECKER
    requires WaitingOk(s, Some(t)) && JobsOk(s, Some(t)) && CountsOk(s)
    ensures WaitingOk(s', None) && JobsOk(s', None) && CountsOk(s')
  {
    forall n: nat
      ensures s'.outstanding[n] == Expected(s', None, n)
    {
      assert s.outstanding[n] == Expected(s, Some(t), n);
    }
  }

  lemma MovedRunning(cfg: Config, s: State, t: nat, g: Flow, s': State)
    requires FlowMoved(s, t, g, s') && t in s.running && t !in s.waiting
    requires RunningOk(cfg, s, Some(t)) && FlowOk(g, cfg.maxRounds) && !g.at.Created? && !g.at.Ended?
    ensures RunningOk(cfg, s', None)
  {
    hide FlowOk;
    assert s'.running.Keys == s.running.Keys by {
      assert FlowPlaced(cfg, s, Some(t), t);
    }
    assert |s'.running| == |s'.running.Keys| && |s.running| == |s.running.Keys|;
    forall u | u in s'.running
      ensures FlowPlaced(cfg, s', None, u)
    {
      assert FlowPlaced(cfg, s, Some(t), u);
    }
  }

  lemma YieldPlaces(cfg: Config, s: State, t: nat, step: Step)
    requires InHand(cfg, s, t, step)
    requires WaitingOk(s, Some(t)) && RunningOk(cfg, s, Some(t)) && JobsOk(s, Some(t)) && CountsOk(s)
    ensures
      var s' := Yielded(s, t, step);
      var hand := HandAfter(s', t);
      WaitingOk(s', hand) && RunningOk(cfg, s', hand) && JobsOk(s', hand) && CountsOk(s')
  {
    hide Yielded, WaitingOk, RunningOk, JobsOk, CountsOk, FlowOk, CardOk, FlowGone, FlowMoved;
    YieldCases(s, t, step);
    var s' := Yielded(s, t, step);
    if step.Crash? {
      CrashKeeps(cfg, s, t);
    } else if step.flow.at.Ended? {
      StatusKept(s, t, step.flow, s');
      GoneWaiting(cfg, s, t, s');
      GoneRunning(cfg, s, t, s');
    } else {
      StatusKept(s, t, step.flow, s');
      MovedWaiting(cfg, s, t, step.flow, s');
      MovedRunning(cfg, s, t, step.flow, s');
    }
  }

  lemma StatusKept(s: State, t: nat, g: Flow, s': State)
    requires FlowGone(s, t, s') || FlowMoved(s, t, g, s')
    ensures s'.status == s.status
  {
  }

  lemma CrashKeeps(cfg: Config, s: State, t: nat)
    requires WaitingOk(s, Some(t)) && RunningOk(cfg, s, Some(t)) && JobsOk(s, Some(t)) && CountsOk(s)
    ensures
      var s' := s.(status := Crashed);
      WaitingOk(s', Some(t)) && RunningOk(cfg, s', Some(t)) && JobsOk(s', Some(t)) && CountsOk(s')
  {
    hide FlowOk;
    var s' := s.(status := Crashed);
    forall u | u in s'.running
      ensures FlowPlaced(cfg, s', Some(t), u)
    {
      assert FlowPlaced(cfg, s, Some(t), u);
    }
    forall n: nat
      ensures s'.outstanding[n] == Expected(s', Some(t), n)
    {
      assert s.outstanding[n] == Expected(s, Some(t), n);
    }
  }

  /** Only ticket `t`'s card and flow changed. */
  lemma CardsUpdated(cfg: Config, s: State, t: nat, card: Card, s': State)
    requires CardsOk(cfg, s) && (t in s'.dispatched || t !in cfg.resumes) && s.dispatched - {t} <= s'.dispatched
    requires s'.world.cards == s.world.cards[t := card] && Legit(card)
    requires s'.running - {t} == s.running - {t} && (t in s'.running ==> CardOk(s'.running[t], card))
    requires t in cfg.resumes ==> t in s.world.cards && (t in s'.running ==> s'.running[t].resumed)
    ensures CardsOk(cfg, s')
  {
    hide Legit, CardOk, In, Untracked;
    forall u | u in s'.running
      ensures u in s'.world.cards && CardOk(s'.running[u], s'.world.cards[u])
      ensures u in cfg.resumes ==> s'.running[u].resumed
    {
      if u != t {
        assert u in s'.running - {t};
        assert s'.running[u] == (s'.running - {t})[u] == (s.running - {t})[u] == s.running[u];
      }
    }
  }

  lemma YieldTouches(s: State, t: nat, step: Step)
    requires t in s.running && t in s.world.cards
    ensures
      var s' := Yielded(s, t, step);
      && s'.dispatched == s.dispatched && s'.running - {t} == s.running - {t}
      && (if step.Crash? then s'.world == s.world && s'.running == s.running
          else s'.world == Absorb(s.world, t, step.effects)
               && (t in s'.running ==> s'.running[t] == step.flow && !step.flow.at.Ended?))
  {
    hide Yielded, Absorb;
    YieldWorlds(s, t, step);
    YieldCases(s, t, step);
    if step.Step? {
      YieldKeepsOthers(s, t, step.flow, Yielded(s, t, step));
    }
  }

  lemma YieldWorlds(s: State, t: nat, step: Step)
    requires t in s.world.cards
    ensures Yielded(s, t, step).world == if step.Step? then Absorb(s.world, t, step.effects) else s.world
  {
    hide Absorb, GuardState.NoteMerge;
  }

  lemma YieldKeepsOthers(s: State, t: nat, g: Flow, s': State)
    requires if g.at.Ended? then FlowGone(s, t, s') else FlowMoved(s, t, g, s')
    ensures s'.dispatched == s.dispatched && s'.running - {t} == s.running - {t}
    ensures t in s'.running ==> s'.running[t] == g && !g.at.Ended?
  {
  }

  lemma YieldCards(cfg: Config, s: State, t: nat, step: Step)
    requires InHand(cfg, s, t, step) && CardsOk(cfg, s) && t in s.dispatched
    ensures CardsOk(cfg, Yielded(s, t, step))
  {
    YieldTouches(s, t, step);
    assert t in cfg.resumes ==> s.running[t].resumed;
    hide Yielded, CardsOk, CardOk, Legit, FlowOk, NoMerge, ApplyAll, Absorb;
    var s' := Yielded(s, t, step);
    if step.Step? {
      AbsorbCards(s.world, t, step.effects);
      CardsUpdated(cfg, s, t, ApplyAll(s.world.cards[t], step.effects), s');
    } else {
      CardsSame(cfg, s, s');
    }
  }

  lemma CardsSame(cfg: Config, s: State, s': State)
    requires CardsOk(cfg, s)
    requires s'.running == s.running && s'.dispatched == s.dispatched && s'.world.cards == s.world.cards
    ensures CardsOk(cfg, s')
  {
  }

  /** The integration branch and the guard are as they were. */
  predicate BranchSame(s: State, s': State) {
    && s'.guard == s.guard && s'.checker == s.checker && (s.draining ==> s'.draining)
    && s'.world.tip == s.world.tip && s'.world.history == s.world.history
    && Fresh(s'.world) && s.world.next <= s'.world.next && s.world.verified <= s'.world.verified
  }

  lemma BranchSameKeeps(cfg: Config, s: State, s': State)
    requires GreenOk(cfg, s) && BranchSame(s, s')
    ensures GreenOk(cfg, s')
  {
    hide Orderly, GreenOf, SeenSince, UnseenSince, Fresh;
  }

  /** A merge landed on a settled branch, and was seen or not. */
  predicate BranchMoved(s: State, t: nat, seen: bool, s': State) {
    && s'.guard == (if seen then s.guard.NoteMerge(t) else s.guard)
    && s'.checker == s.checker && s'.draining == s.draining
    && s'.world.tip == s.world.next && s'.world.history == s.world.history + [Landed(t, s.world.tip, seen)]
    && Fresh(s'.world) && s.world.next < s'.world.next && s.world.verified <= s'.world.verified
  }

  lemma HistoryAppend(h: seq<Mark>, m: Mark, baseline: Option<Commit>)
    ensures
      var more := h + [m];
      && GreenOf(more, baseline) == (if m.TurnedGreen? then Some(m.commit) else GreenOf(h, baseline))
      && SeenSince(more) == (if m.TurnedGreen? then [] else if m.seen then SeenSince(h) + [m.ticket] else SeenSince(h))
      && (UnseenSince(more) <==> m.Landed? && (!m.seen || UnseenSince(h)))
      && (Orderly(more, baseline) <==>
            (Orderly(h, baseline) &&
              (m.Landed? ==> SeenSince(h) == [] && (!UnseenSince(h) ==> GreenOf(h, baseline) == Some(m.onto)))))
  {
    var more := h + [m];
    assert more[..|more| - 1] == h;
  }

  lemma BranchMovedKeeps(cfg: Config, s: State, t: nat, seen: bool, s': State)
    requires GreenOk(cfg, s) && s.Settled() && BranchMoved(s, t, seen, s')
    ensures GreenOk(cfg, s')
  {
    HistoryAppend(s.world.history, Landed(t, s.world.tip, seen), cfg.Baseline());
    hide Orderly, GreenOf, SeenSince, UnseenSince;
  }

  lemma YieldQuiet(s: State, t: nat, step: Step)
    requires t in s.running && t in s.world.cards && Fresh(s.world)
    requires step.Step? ==> NoMerge(step.effects) && step.flow.at != Ended(StatusIntegrated)
    ensures BranchSame(s, Yielded(s, t, step))
  {
    hide Absorb;
    if step.Step? {
      AbsorbNoMerge(s.world, t, step.effects);
    }
  }

  lemma YieldMerge(s: State, t: nat, f: Flow, es: seq<Effect>)
    requires t in s.running && t in s.world.cards && Fresh(s.world)
    requires es != [] && es[0].MergeCalled? && NoMerge(es[1..])
    requires (es[0].seen <==> f.at == Ended(StatusIntegrated)) && (es[0].seen ==> es[0].landed)
    ensures
      var s' := Yielded(s, t, Step(f, es));
      if es[0].landed then BranchMoved(s, t, es[0].seen, s') else BranchSame(s, s')
  {
    hide Absorb;
    AbsorbMerge(s.world, t, es);
  }

  lemma YieldGreen(cfg: Config, s: State, t: nat, step: Step)
    requires InHand(cfg, s, t, step) && GreenOk(cfg, s)
    ensures GreenOk(cfg, Yielded(s, t, step))
  {
    assert Fresh(s.world);
    hide Yielded, GreenOk, FlowOk, CardOk, Legit, ApplyAll, NoMerge, Fresh, BranchSame, BranchMoved;
    var s' := Yielded(s, t, step);
    if step.Step? && s.running[t].at.AtGreen? {
      YieldMerge(s, t, step.flow, step.effects);
      if step.effects[0].landed {
        BranchMovedKeeps(cfg, s, t, step.effects[0].seen, s');
      } else {
        BranchSameKeeps(cfg, s, s');
      }
    } else {
      YieldQuiet(s, t, step);
      BranchSameKeeps(cfg, s, s');
    }
  }

  /** Advancing a flow keeps everything the scheduler relies on. */
  lemma YieldKeeps(cfg: Config, s: State, t: nat, step: Step)
    requires InHand(cfg, s, t, step) && Inv(cfg, s, Some(t))
    ensures Inv(cfg, Yielded(s, t, step), HandAfter(Yielded(s, t, step), t))
  {
    hide Yielded, CardsOk, GreenOk, JobsOk, CountsOk, WaitingOk, FlowOk;
    assert FlowPlaced(cfg, s, Some(t), t);
    YieldPlaces(cfg, s, t, step);
    YieldCards(cfg, s, t, step);
    YieldGreen(cfg, s, t, step);
    YieldRunningKept(s, t, step);
  }

  lemma YieldRunningKept(s: State, t: nat, step: Step)
    requires t in s.running && t in s.world.cards
    ensures
      var s' := Yielded(s, t, step);
      s'.status == Crashed && s.status != Crashed ==> t in s'.running
  {
  }

  // The integration check.

  lemma {:induction false} AbsorbCheckKeeps(w: World, es: seq<Effect>)
    requires Fresh(w)
    ensures
      var v := AbsorbCheck(w, es);
      && Fresh(v) && v.history == w.history && w.next <= v.next && w.verified <= v.verified
      && (forall c | Verified(c) in es :: c in v.verified)
      && v.tip == TipAfter(w.tip, es)
    decreases |es|
  {
    if es == [] {
    } else {
      var w1 :=
        match es[0]
        case Wrote(c) => w.(next := Max(w.next, c + 1))
        case Verified(c) => w.(next := Max(w.next, c + 1), verified := w.verified + {c})
        case Pushed(c) => w.(next := Max(w.next, c + 1), tip := c)
        case _ => w;
      AbsorbCheckKeeps(w1, es[1..]);
      TipAfterAppend(w.tip, [es[0]], es[1..]);
      assert [es[0]] + es[1..] == es && [es[0]][..0] == [];
    }
  }

  /** The check holds the conductor; its next state is a job, a verdict, or a crash. */
  predicate CheckMoved(s: State, s': State) {
    && s'.running == s.running && s'.waiting == s.waiting && s'.dispatched == s.dispatched
    && s'.dispatches == s.dispatches && s'.requeues == s.requeues
    && s'.world.cards == s.world.cards && s'.status == s.status
    && s'.limited == s.limited && s'.immediate == s.immediate && s'.jobs == s.jobs
    && (s'.checker.None? ==> s'.outstanding == s.outstanding)
    && (s'.checker.Some? ==>
          CheckAtJob(s'.checker.value.at) && s'.outstanding == s.outstanding + multiset{CHECKER})
  }

  lemma CheckPlaces(cfg: Config, s: State, s': State)
    requires CheckMoved(s, s')
    requires WaitingOk(s, Some(CHECKER)) && RunningOk(cfg, s, Some(CHECKER)) && JobsOk(s, Some(CHECKER)) && CountsOk(s)
    ensures WaitingOk(s', None) && RunningOk(cfg, s', None) && JobsOk(s', None) && CountsOk(s')
  {
    hide FlowOk;
    forall u | u in s'.running
      ensures FlowPlaced(cfg, s', None, u) && u != CHECKER
    {
      assert FlowPlaced(cfg, s, Some(CHECKER), u);
    }
    forall n: nat
      ensures s'.outstanding[n] == Expected(s', None, n)
    {
      assert s.outstanding[n] == Expected(s, Some(CHECKER), n);
    }
  }

  /** What matters of a check's resumption on a branch at `tip`. */
  predicate CheckStepOk(tip: Commit, step: CheckStep) {
    step.CheckStep? ==>
      var c, es := step.check, step.effects;
      && c.sha == tip && !c.at.CheckCreated?
      && (!c.at.CheckEnded? ==> TipAfter(tip, es) == tip)
      && (c.at.CheckEnded? && c.at.result.CheckGreen? ==>
            c.at.result.sha == TipAfter(tip, es) && Verified(c.at.result.sha) in es)
  }

  lemma ResumeCheckStepOk(c: Check, r: Reply, maxRounds: nat, env: CheckEnv, tip: Commit)
    requires CheckFits(c.at, r) && c.sha == tip
    ensures CheckStepOk(tip, ResumeCheck(c, r, maxRounds, env, tip))
  {
    var step := ResumeCheck(c, r, maxRounds, env, tip);
    if step.CheckStep? {
      ResumeCheckEffects(c, r, maxRounds, env, tip);
      assert step.effects == [Verified(c.fixHead), Pushed(c.fixHead)] ==> step.check.at.CheckEnded?;
      hide TipAfter;
    }
  }

  lemma CheckCases(s: State, step: CheckStep)
    requires s.checker.Some? && CheckStepOk(s.world.tip, step)
    ensures
      var s' := CheckYielded(s, step);
      if step.CheckCrash? then s' == s.(status := Crashed) else CheckMoved(s, s')
  {
    hide AbsorbCheck, TipAfter;
  }

  lemma GreenTurned(cfg: Config, s: State, sha: Commit, w: World)
    requires GreenOk(cfg, s) && s.checker.Some?
    requires Fresh(w) && s.world.history == w.history && w.tip == sha && sha in w.verified
    ensures GreenOk(cfg, Checked(s.(checker := None, world := w), CheckGreen(sha)))
  {
    HistoryAppend(w.history, TurnedGreen(sha), cfg.Baseline());
    assert sha < w.next;
    hide Orderly, GreenOf, SeenSince, UnseenSince, Fresh;
    FreshHistory(w, w.history + [TurnedGreen(sha)]);
  }

  lemma FreshHistory(w: World, h: seq<Mark>)
    requires Fresh(w)
    ensures Fresh(w.(history := h))
  {
  }

  lemma RedTurned(cfg: Config, s: State, sha: Commit, w: World)
    requires GreenOk(cfg, s)
    requires Fresh(w) && s.world.history == w.history && s.world.next <= w.next && s.world.verified <= w.verified
    ensures GreenOk(cfg, Checked(s.(checker := None, world := w), CheckRed(sha)))
  {
    hide Orderly, GreenOf, SeenSince, UnseenSince, Fresh;
  }

  lemma CheckGoesOn(cfg: Config, s: State, c: Check, w: World, outstanding: multiset<nat>)
    requires GreenOk(cfg, s) && s.checker.Some? && c.sha == s.world.tip == w.tip
    requires Fresh(w) && s.world.history == w.history && s.world.next <= w.next && s.world.verified <= w.verified
    ensures GreenOk(cfg, s.(checker := Some(c), world := w, outstanding := outstanding))
  {
    hide Orderly, GreenOf, SeenSince, UnseenSince, Fresh;
  }

  lemma CheckGreenOk(cfg: Config, s: State, step: CheckStep)
    requires s.checker.Some? && CheckStepOk(s.world.tip, step) && GreenOk(cfg, s)
    ensures GreenOk(cfg, CheckYielded(s, step))
  {
    assert Fresh(s.world);
    hide GreenOk, Fresh, TipAfter, AbsorbCheck;
    var s' := CheckYielded(s, step);
    if step.CheckCrash? {
      StatusGreenOk(cfg, s, Crashed);
    } else {
      var w := AbsorbCheck(s.world, step.effects);
      AbsorbCheckKeeps(s.world, step.effects);
      var c := step.check;
      if !c.at.CheckEnded? {
        CheckGoesOn(cfg, s, c, w, s.outstanding + multiset{CHECKER});
      } else if c.at.result.CheckGreen? {
        GreenTurned(cfg, s, c.at.result.sha, w);
      } else {
        RedTurned(cfg, s, c.at.result.sha, w);
      }
    }
  }

  lemma StatusGreenOk(cfg: Config, s: State, status: LoopStatus)
    requires GreenOk(cfg, s)
    ensures GreenOk(cfg, s.(status := status))
  {
  }

  lemma CheckKeeps(cfg: Config, s: State, step: CheckStep)
    requires Inv(cfg, s, Some(CHECKER)) && CheckStepOk(s.world.tip, step) && s.status != Crashed
    ensures Inv(cfg, CheckYielded(s, step), HandAfter(CheckYielded(s, step), CHECKER))
  {
    hide CheckYielded, CardsOk, GreenOk, JobsOk, CountsOk, WaitingOk, RunningOk, FlowOk, CheckStepOk;
    CheckCases(s, step);
    CheckGreenOk(cfg, s, step);
    var s' := CheckYielded(s, step);
    if step.CheckCrash? {
      CrashKeeps(cfg, s, CHECKER);
      CardsSame(cfg, s, s');
    } else {
      CheckPlaces(cfg, s, s');
      CardsSame(cfg, s, s');
    }
  }
}

/** What holds of every run of the frontier scheduler. */
module FrontierTheorems {
  import opened Wrappers
  import opened Board
  import opened TicketFlow
  import opened TicketFlowProofs
  import opened IntegrationCheck
  import opened Sorting
  import opened Scheduler
  import opened SchedulerInvariant
  import opened SchedulerActions
  import opened Frontier

  // The start of a run.

  /** The board and the remote as a run finds them: nothing has happened yet. */
  predicate WorldOk(cfg: Config, w: World) {
    && ConfigOk(cfg) && Fresh(w) && w.history == [] && w.log == [] && CHECKER !in w.cards
    && (forall t | t in w.cards :: Legit(w.cards[t]) || Untracked(w.cards[t]))
    && (forall t | t in cfg.resumes :: t in w.cards && In(w.cards[t], InReview) && w.cards[t].pr == Open)
    && (cfg.Baseline().Some? ==> cfg.Baseline().value == w.tip)
  }

  function Begin(cfg: Config, w: World): State {
    State(map[], {}, [], InitialGuard(cfg.start), None, false, multiset{},
          false, false, w, Looping, 0, multiset{}, multiset{})
  }

  lemma BeginOk(cfg: Config, w: World)
    requires WorldOk(cfg, w)
    ensures Inv(cfg, Begin(cfg, w), None)
  {
    BeginPlaces(cfg, w);
    BeginGreen(cfg, w);
    hide GreenOk, WaitingOk, RunningOk, JobsOk, CountsOk;
  }

  lemma BeginsLooping(cfg: Config, w: World)
    ensures Begin(cfg, w).status == Looping && Begin(cfg, w).dispatched == {}
  {
  }

  lemma BeginPlaces(cfg: Config, w: World)
    requires WorldOk(cfg, w)
    ensures
      var s := Begin(cfg, w);
      WaitingOk(s, None) && RunningOk(cfg, s, None) && JobsOk(s, None) && CountsOk(s)
  {
  }

  lemma BeginGreen(cfg: Config, w: World)
    requires WorldOk(cfg, w)
    ensures GreenOk(cfg, Begin(cfg, w))
  {
  }

  /** A whole run from its start. */
  function RunOf(cfg: Config, w: World, inputs: seq<Input>): (r: State)
    requires WorldOk(cfg, w)
    ensures InvEnd(cfg, r) && (r.status == Looping ==> Inv(cfg, r, None))
  {
    BeginOk(cfg, w);
    Run(cfg, Begin(cfg, w), inputs)
  }

  // Safety.

  /** The integration branch is at the green commit, which passed verify or is the untouched baseline. */
  predicate OnGreen(cfg: Config, s: State) {
    s.guard.green == Some(s.world.tip) && (s.world.tip in s.world.verified || cfg.Baseline() == Some(s.world.tip))
  }

  /** In every state of every run, a settled branch is on a green commit, unless a merge went through
      that the conductor could not see: exactly then the tip is another commit. */
  lemma SettledIsGreen(cfg: Config, w: World, inputs: seq<Input>)
    requires WorldOk(cfg, w)
    ensures
      var s := RunOf(cfg, w, inputs);
      s.Settled() ==> (OnGreen(cfg, s) <==> !UnseenSince(s.world.history))
  {
    hide RunOf, InvEnd, Inv, GreenOk, CardsOk, OnGreen;
    var s := RunOf(cfg, w, inputs);
    EndIsGreen(cfg, s);
    if s.Settled() {
      SettledTip(cfg, s);
    }
  }

  lemma EndIsGreen(cfg: Config, s: State)
    requires InvEnd(cfg, s)
    ensures GreenOk(cfg, s) && CardsOk(cfg, s)
  {
  }

  lemma SettledTip(cfg: Config, s: State)
    requires GreenOk(cfg, s) && s.Settled()
    ensures OnGreen(cfg, s) <==> !UnseenSince(s.world.history)
  {
  }

  /** Every merge of a run lands on the commit that turned green last (or the baseline), unless an
      unseen merge came in between; and it is the first seen merge since. */
  lemma MergesLandOnGreen(cfg: Config, w: World, inputs: seq<Input>, k: nat)
    requires WorldOk(cfg, w)
    requires
      var h := RunOf(cfg, w, inputs).world.history;
      k < |h| && h[k].Landed?
    ensures
      var h := RunOf(cfg, w, inputs).world.history;
      SeenSince(h[..k]) == [] && (!UnseenSince(h[..k]) ==> GreenOf(h[..k], cfg.Baseline()) == Some(h[k].onto))
  {
    hide RunOf, InvEnd, Inv, CardsOk;
    var s := RunOf(cfg, w, inputs);
    EndIsGreen(cfg, s);
    OrderlyAt(s.world.history, cfg.Baseline(), k);
  }

  lemma {:induction false} OrderlyAt(h: seq<Mark>, baseline: Option<Commit>, k: nat)
    requires Orderly(h, baseline) && k < |h| && h[k].Landed?
    ensures SeenSince(h[..k]) == [] && (!UnseenSince(h[..k]) ==> GreenOf(h[..k], baseline) == Some(h[k].onto))
    decreases |h|
  {
    if k == |h| - 1 {
    } else {
      OrderlyAt(h[..|h| - 1], baseline, k);
      assert h[..|h| - 1][..k] == h[..k];
    }
  }

  /** Between two merges of a run, the first one seen, the branch turned green. */
  lemma OneMergePerGreen(cfg: Config, w: World, inputs: seq<Input>, i: nat, j: nat)
    requires WorldOk(cfg, w)
    requires
      var h := RunOf(cfg, w, inputs).world.history;
      i < j < |h| && h[i].Landed? && h[i].seen && h[j].Landed?
    ensures
      var h := RunOf(cfg, w, inputs).world.history;
      exists k :: i < k < j && h[k].TurnedGreen?
  {
    hide RunOf, InvEnd, Inv, CardsOk;
    EndIsGreen(cfg, RunOf(cfg, w, inputs));
    GreenBetween(RunOf(cfg, w, inputs).world.history, cfg.Baseline(), i, j);
  }

  lemma GreenBetween(h: seq<Mark>, baseline: Option<Commit>, i: nat, j: nat)
    requires Orderly(h, baseline) && i < j < |h| && h[i].Landed? && h[i].seen && h[j].Landed?
    ensures exists k :: i < k < j && h[k].TurnedGreen?
  {
    OrderlyAt(h, baseline, j);
    if forall k | i < k < j :: h[k].Landed? {
      SeenStays(h[..j], i);
    }
  }

  lemma {:induction false} SeenStays(h: seq<Mark>, i: nat)
    requires i < |h| && h[i].Landed? && h[i].seen && forall k | i < k < |h| :: h[k].Landed?
    ensures SeenSince(h) != []
    decreases |h|
  {
    if i == |h| - 1 {
    } else {
      SeenStays(h[..|h| - 1], i);
    }
  }

  /** The first waiting flow attempts its merge. */
  function ReleasedOne(cfg: Config, s: State, env: Env): State
    requires Inv(cfg, s, None) && CanRelease(s) && s.status == Looping
  {
    ReleaseOneKeeps(cfg, s, env);
    AdvanceFlow(cfg, Popped(s), s.waiting[0], Go, env)
  }

  /** The corner: a merge whose reply is lost and whose pull request cannot be read again leaves the
      branch settled on a commit nobody verified. Its ticket ends as an infrastructure failure. */
  lemma UnseenMergeGoesUnchecked(cfg: Config, s: State, env: Env)
    requires Inv(cfg, s, None) && s.status == Looping && CanRelease(s)
    requires env.merge == MergeReplyLost && !env.rereadOk
    ensures
      var t := s.waiting[0];
      var s' := ReleasedOne(cfg, s, env);
      && t in s'.world.cards && s'.Settled() && !OnGreen(cfg, s') && s'.world.tip !in s'.world.verified
      && s'.world.cards[t].pr == Merged && In(s'.world.cards[t], FailedSystemic)
  {
    hide Inv, Resume, CardOk, FlowOk, OnGreen, In, Absorb, AdvanceFlow, Fits, YieldFrame;
    ReleaseOneKeeps(cfg, s, env);
    PopKeeps(cfg, s);
    var p, t := Popped(s), s.waiting[0];
    FlowPlacedCard(cfg, p, t);
    UnseenEffects(p.running[t], cfg.maxRounds, env);
    UnseenCard(p.running[t], cfg.maxRounds, env, p.world.cards[t]);
    GreenFits(p.running[t]);
    IntegratedOnlyByMerge(p.running[t], Go, cfg.maxRounds, env);
    var step := Resume(p.running[t], Go, cfg.maxRounds, env);
    GreenHolds(cfg, s);
    AbsorbMerge(p.world, t, step.effects);
    AbsorbCards(p.world, t, step.effects);
    VerifiedStays(p.world, t, step.effects);
    UnseenTip(cfg, s, p, t, step);
    AdvanceIsYield(cfg, p, t, Go, env);
  }

  lemma GreenFits(f: Flow)
    requires f.at.AtGreen?
    ensures Fits(f.at, Go)
  {
  }

  lemma GreenHolds(cfg: Config, s: State)
    requires Inv(cfg, s, None)
    ensures GreenOk(cfg, s) && Fresh(s.world)
  {
  }

  lemma FlowPlacedCard(cfg: Config, s: State, t: nat)
    requires Inv(cfg, s, Some(t)) && t in s.running
    ensures t in s.world.cards && CardOk(s.running[t], s.world.cards[t]) && FlowOk(s.running[t], cfg.maxRounds)
  {
    assert t == CHECKER || FlowPlaced(cfg, s, Some(t), t);
  }

  lemma UnseenCard(f: Flow, maxRounds: nat, env: Env, card: Card)
    requires f.at.AtGreen? && FlowOk(f, maxRounds) && CardOk(f, card)
    requires env.merge == MergeReplyLost && !env.rereadOk
    ensures
      var after := ApplyAll(card, Resume(f, Go, maxRounds, env).effects);
      after.pr == Merged && In(after, FailedSystemic)
  {
    UnseenEffects(f, maxRounds, env);
    ResumeCard(f, Go, maxRounds, env, card);
    hide Resume, AlwaysLegit, FlowOk;
    var es := Resume(f, Go, maxRounds, env).effects;
    MergedStays(Apply(card, es[0]), es[1..]);
  }

  lemma UnseenEffects(f: Flow, maxRounds: nat, env: Env)
    requires f.at.AtGreen? && env.merge == MergeReplyLost && !env.rereadOk
    ensures
      var step := Resume(f, Go, maxRounds, env);
      && step.Step? && step.flow.at == Ended(StatusSystemic)
      && step.effects != [] && step.effects[0] == MergeCalled(f.headSha, true, false)
      && forall i | 0 < i < |step.effects| :: !step.effects[i].PrCreated? && !step.effects[i].Verified?
  {
  }

  lemma {:induction false} MergedStays(card: Card, es: seq<Effect>)
    requires card.pr == Merged && forall i | 0 <= i < |es| :: !es[i].PrCreated?
    ensures ApplyAll(card, es).pr == Merged
    decreases |es|
  {
    if es == [] {
    } else {
      MergedStays(Apply(card, es[0]), es[1..]);
    }
  }

  lemma {:induction false} VerifiedStays(w: World, t: nat, es: seq<Effect>)
    requires t in w.cards && forall i | 0 <= i < |es| :: !es[i].Verified?
    ensures Absorb(w, t, es).verified == w.verified
    decreases |es|
  {
    if es == [] {
    } else {
      VerifiedStays(Absorb1(w, t, es[0]), t, es[1..]);
    }
  }

  lemma UnseenTip(cfg: Config, s: State, p: State, t: nat, step: Step)
    requires s.waiting != [] && p == Popped(s) && s.Settled() && GreenOk(cfg, s) && t in p.running && t in p.world.cards
    requires step.Step? && step.flow.at == Ended(StatusSystemic)
    requires Absorb(p.world, t, step.effects).tip == p.world.next
    ensures
      var s' := Yielded(p, t, step);
      && s'.Settled() && !OnGreen(cfg, s') && s'.world.tip !in s.world.verified
      && s'.world == Absorb(p.world, t, step.effects)
  {
    hide Absorb, Orderly, GreenOf, SeenSince, UnseenSince;
  }

  // One place per flow.

  /** At the head of every pass: each running ticket either waits for its merge, once, or has exactly
      one job outstanding; the check has one exactly when it runs; nothing else is outstanding; at most
      `parallel` tickets run; a ticket was dispatched once, plus once per time it was requeued. */
  predicate OnePlace(cfg: Config, s: State) {
    && (forall t | t in s.running :: (t in s.waiting) != (s.outstanding[t] == 1))
    && (forall t | t in s.waiting :: t in s.running) && NoRepeats(s.waiting)
    && (forall n | n in s.outstanding :: s.outstanding[n] == 1 && (n in s.running || (n == CHECKER && s.checker.Some?)))
    && (s.checker.Some? <==> CHECKER in s.outstanding)
    && s.running.Keys <= s.dispatched && |s.running| <= cfg.parallel
    && (forall t | t in s.dispatched :: s.dispatches[t] == 1 + s.requeues[t])
    && (forall t | t in s.dispatches && t !in s.dispatched :: s.dispatches[t] == s.requeues[t])
  }

  lemma OnePlacePerFlow(cfg: Config, w: World, inputs: seq<Input>)
    requires WorldOk(cfg, w)
    ensures
      var s := RunOf(cfg, w, inputs);
      s.status == Looping ==> OnePlace(cfg, s)
  {
    hide RunOf, Inv, OnePlace;
    var s := RunOf(cfg, w, inputs);
    if s.status == Looping {
      InvPlaces(cfg, s);
    }
  }

  lemma InvPlaces(cfg: Config, s: State)
    requires Inv(cfg, s, None)
    ensures OnePlace(cfg, s)
  {
    hide CardsOk, GreenOk, FlowOk;
    forall t | t in s.running
      ensures t in s.dispatched && t != CHECKER && ((t in s.waiting) != (s.outstanding[t] == 1))
    {
      assert FlowPlaced(cfg, s, None, t);
      assert s.outstanding[t] == Expected(s, None, t);
    }
    forall n | n in s.outstanding
      ensures s.outstanding[n] == 1 && (n in s.running || (n == CHECKER && s.checker.Some?))
    {
      assert s.outstanding[n] == Expected(s, None, n);
    }
    assert s.outstanding[CHECKER] == Expected(s, None, CHECKER);
  }

  // Labels.

  /** In every state of every run, a ticket the conductor works on carries exactly one state label,
      one that fits its PR, and integrated only on a merged PR. */
  lemma LabelsFit(cfg: Config, w: World, inputs: seq<Input>, t: nat)
    requires WorldOk(cfg, w)
    requires t in RunOf(cfg, w, inputs).world.cards
    ensures
      var card := RunOf(cfg, w, inputs).world.cards[t];
      && (Untracked(card) || OneState(card)) && (Integrated in card.labels ==> card.pr == Merged)
  {
    hide RunOf, InvEnd, Inv, GreenOk;
    var s := RunOf(cfg, w, inputs);
    EndIsGreen(cfg, s);
    LegitLabels(s.world.cards[t]);
  }

  lemma LegitLabels(card: Card)
    requires Legit(card) || Untracked(card)
    ensures Untracked(card) || OneState(card)
    ensures Integrated in card.labels ==> card.pr == Merged
  {
    assert Integrated in card.labels ==> Integrated in card.labels * STATES;
    if l :| l in STATES && In(card, l) {
    }
  }
}

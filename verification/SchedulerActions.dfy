/** Parking, dispatching and delivering keep the scheduler's invariant. */
module SchedulerActions {
  import opened Wrappers
  import opened Board
  import opened Sorting
  import opened TicketFlow
  import opened TicketFlowProofs
  import opened Graph
  import opened Scheduler
  import opened SchedulerInvariant

  // Parking.

  lemma {:induction false} WithoutKeeps(xs: seq<nat>, x: nat)
    requires NoRepeats(xs)
    ensures NoRepeats(Without(xs, x)) && forall y :: y in Without(xs, x) <==> y in xs && y != x
  {
    if xs == [] {
    } else {
      var rest := xs[1..];
      assert xs == [xs[0]] + rest;
      assert forall j | 0 <= j < |rest| :: rest[j] == xs[1 + j];
      assert xs[0] !in rest && NoRepeats(rest);
      if xs[0] != x {
        WithoutKeeps(rest, x);
        assert xs[0] !in Without(rest, x);
      }
    }
  }

  /** A parked ticket goes back to where its PR says, and is never failed. */
  lemma ParkCardOk(f: Flow, card: Card, readable: bool)
    requires CardOk(f, card) && !f.at.Ended? && !f.at.Created?
    ensures Legit(ParkCard(card, readable)) && ParkCard(card, readable).pr == card.pr
    ensures !readable ==> ParkCard(card, readable) == card
    ensures readable && card.pr == Open ==> In(ParkCard(card, readable), InReview)
    ensures readable && card.pr != Open ==> In(ParkCard(card, readable), Queued)
  {
    if f.hasPr {
      Relabel(card, InReview, InReview, {InProgress});
    } else {
      Relabel(card, InProgress, Queued, {InProgress, InReview});
    }
  }

  /** A flow may be parked once its job has ended, or while it waits for its merge. */
  predicate Parkable(s: State, hand: Option<nat>, t: nat) {
    && t in s.running && t in s.world.cards && !s.running[t].at.Created?
    && (hand == Some(t) || (hand == None && t in s.waiting))
  }

  lemma ParkWaiting(cfg: Config, s: State, hand: Option<nat>, t: nat, readable: bool)
    requires Parkable(s, hand, t) && WaitingOk(s, hand) && JobsOk(s, hand) && CountsOk(s) && t in s.dispatched
    requires t != CHECKER
    ensures
      var s' := ParkFlow(s, t, readable);
      WaitingOk(s', None) && JobsOk(s', None) && CountsOk(s')
  {
    WithoutKeeps(s.waiting, t);
    hide NoRepeats, Without, ParkCard, Requeues;
    var s' := ParkFlow(s, t, readable);
    forall n: nat
      ensures s'.outstanding[n] == Expected(s', None, n)
    {
      assert s.outstanding[n] == Expected(s, hand, n);
    }
  }

  lemma ParkRunning(cfg: Config, s: State, hand: Option<nat>, t: nat, readable: bool)
    requires Parkable(s, hand, t) && RunningOk(cfg, s, hand) && NoRepeats(s.waiting)
    ensures RunningOk(cfg, ParkFlow(s, t, readable), None)
  {
    WithoutKeeps(s.waiting, t);
    hide NoRepeats, Without, ParkCard, Requeues, FlowOk;
    var s' := ParkFlow(s, t, readable);
    assert s'.running.Keys == s.running.Keys - {t};
    assert |s'.running| == |s'.running.Keys| && |s.running| == |s.running.Keys|;
    assert s'.world.cards.Keys == s.world.cards.Keys;
    forall u | u in s'.running
      ensures FlowPlaced(cfg, s', None, u)
    {
      assert FlowPlaced(cfg, s, hand, u);
    }
  }

  lemma ParkCards(cfg: Config, s: State, hand: Option<nat>, t: nat, readable: bool)
    requires Parkable(s, hand, t) && RunningOk(cfg, s, hand) && CardsOk(cfg, s)
    ensures CardsOk(cfg, ParkFlow(s, t, readable))
  {
    assert FlowPlaced(cfg, s, hand, t);
    var card := s.world.cards[t];
    assert CardOk(s.running[t], card);
    ParkCardOk(s.running[t], card, readable);
    assert t in cfg.resumes ==> s.running[t].hasPr && card.pr == Open;
    var s' := ParkFlow(s, t, readable);
    hide CardsOk, ParkCard, FlowOk, CardOk, Legit, Without;
    CardsUpdated(cfg, s, t, ParkCard(card, readable), s');
  }

  lemma ParkGreen(cfg: Config, s: State, t: nat, readable: bool)
    requires t in s.running && t in s.world.cards && GreenOk(cfg, s)
    ensures GreenOk(cfg, ParkFlow(s, t, readable))
  {
    BranchSameKeeps(cfg, s, ParkFlow(s, t, readable));
  }

  lemma ParkFlowKeeps(cfg: Config, s: State, hand: Option<nat>, t: nat, readable: bool)
    requires Inv(cfg, s, hand) && Parkable(s, hand, t)
    ensures Inv(cfg, ParkFlow(s, t, readable), None)
  {
    assert FlowPlaced(cfg, s, hand, t);
    assert NoRepeats(s.waiting);
    ParkWaiting(cfg, s, hand, t, readable);
    ParkRunning(cfg, s, hand, t, readable);
    ParkCards(cfg, s, hand, t, readable);
    ParkGreen(cfg, s, t, readable);
    hide ParkFlow, WaitingOk, RunningOk, JobsOk, CountsOk, CardsOk, GreenOk;
  }

  lemma ParkCheckKeeps(cfg: Config, s: State)
    requires Inv(cfg, s, Some(CHECKER))
    ensures Inv(cfg, ParkCheck(s), None)
  {
    ParkCheckPlaces(cfg, s);
    ParkCheckGreen(cfg, s);
    CardsSame(cfg, s, ParkCheck(s));
    hide WaitingOk, RunningOk, JobsOk, CountsOk, CardsOk, GreenOk;
  }

  lemma ParkCheckPlaces(cfg: Config, s: State)
    requires s.checker.Some?
    requires WaitingOk(s, Some(CHECKER)) && RunningOk(cfg, s, Some(CHECKER)) && JobsOk(s, Some(CHECKER)) && CountsOk(s)
    ensures
      var s' := ParkCheck(s);
      WaitingOk(s', None) && RunningOk(cfg, s', None) && JobsOk(s', None) && CountsOk(s')
  {
    var s' := ParkCheck(s);
    hide FlowOk;
    forall u | u in s'.running
      ensures FlowPlaced(cfg, s', None, u) && u != CHECKER
    {
      assert FlowPlaced(cfg, s, Some(CHECKER), u);
    }
    forall n: nat
      ensures s'.outstanding[n] == Expected(s', None, n)
    {
      assert s.outstanding[n] == Expected(s, Some(CHECKER), n);
    }
  }

  lemma ParkCheckGreen(cfg: Config, s: State)
    requires GreenOk(cfg, s)
    ensures GreenOk(cfg, ParkCheck(s))
  {
    hide Orderly, GreenOf, SeenSince, UnseenSince, Fresh;
  }

  // Dispatching.

  /** A ticket that may be dispatched now. */
  predicate PickOk(cfg: Config, s: State, p: Pick) {
    var t := p.number;
    && t in s.world.cards && t !in s.dispatched && t != CHECKER
    && CardOk(NewFlow(p.resume, s.world.cards[t].pr), s.world.cards[t])
    && (t in cfg.resumes ==> p.resume)
  }

  predicate PicksOk(cfg: Config, s: State, picks: seq<Pick>) {
    && (forall p | p in picks :: PickOk(cfg, s, p))
    && (forall i, j | 0 <= i < j < |picks| :: picks[i].number != picks[j].number)
    && |s.running| + |picks| <= cfg.parallel
  }

  /** The state between `dispatched.add` and the flow's first step. */
  function Claimed(s: State, p: Pick): State
    requires p.number in s.world.cards
  {
    var t := p.number;
    s.(dispatched := s.dispatched + {t}, dispatches := s.dispatches + multiset{t},
       running := s.running[t := NewFlow(p.resume, s.world.cards[t].pr)])
  }

  lemma NotRunning(cfg: Config, s: State, t: nat)
    requires RunningOk(cfg, s, None) && t !in s.dispatched
    ensures t !in s.running
  {
    forall u | u in s.running
      ensures u in s.dispatched
    {
      assert FlowPlaced(cfg, s, None, u);
    }
  }

  lemma ClaimWaiting(s: State, p: Pick)
    requires p.number in s.world.cards && p.number !in s.running && p.number !in s.dispatched && p.number != CHECKER
    requires WaitingOk(s, None) && JobsOk(s, None) && CountsOk(s)
    ensures
      var s' := Claimed(s, p);
      WaitingOk(s', Some(p.number)) && JobsOk(s', Some(p.number)) && CountsOk(s')
  {
    var t := p.number;
    var s' := Claimed(s, p);
    forall n: nat
      ensures s'.outstanding[n] == Expected(s', Some(t), n)
    {
      assert s.outstanding[n] == Expected(s, None, n);
    }
  }

  lemma OneMoreRuns(running: map<nat, Flow>, t: nat, f: Flow)
    requires t !in running
    ensures |running[t := f]| == |running| + 1
  {
    assert running[t := f].Keys == running.Keys + {t};
    assert |running[t := f]| == |running[t := f].Keys| && |running| == |running.Keys|;
  }

  lemma ClaimRunning(cfg: Config, s: State, p: Pick)
    requires p.number in s.world.cards && p.number !in s.running && p.number != CHECKER
    requires RunningOk(cfg, s, None) && |s.running| < cfg.parallel
    ensures RunningOk(cfg, Claimed(s, p), Some(p.number))
  {
    var t := p.number;
    var s' := Claimed(s, p);
    var f := NewFlow(p.resume, s.world.cards[t].pr);
    assert FlowOk(f, cfg.maxRounds) && f.at.Created?;
    hide FlowOk, NewFlow;
    OneMoreRuns(s.running, t, f);
    forall u | u in s'.running
      ensures FlowPlaced(cfg, s', Some(t), u)
    {
      if u != t {
        assert FlowPlaced(cfg, s, None, u);
      }
    }
  }

  lemma ClaimCards(cfg: Config, s: State, p: Pick)
    requires PickOk(cfg, s, p) && p.number !in s.running && CardsOk(cfg, s)
    ensures CardsOk(cfg, Claimed(s, p))
  {
    var t := p.number;
    var s' := Claimed(s, p);
    var card := s.world.cards[t];
    assert Legit(card);
    hide Legit, CardOk, CardsOk;
    assert s'.world.cards == s.world.cards[t := card];
    CardsUpdated(cfg, s, t, card, s');
  }

  lemma ClaimKeeps(cfg: Config, s: State, p: Pick)
    requires PickOk(cfg, s, p) && Inv(cfg, s, None) && |s.running| < cfg.parallel
    ensures Inv(cfg, Claimed(s, p), Some(p.number))
  {
    NotRunning(cfg, s, p.number);
    ClaimWaiting(s, p);
    ClaimRunning(cfg, s, p);
    ClaimCards(cfg, s, p);
    BranchSameKeeps(cfg, s, Claimed(s, p));
    hide WaitingOk, RunningOk, JobsOk, CountsOk, CardsOk, GreenOk;
  }

  lemma AdvanceIsYield(cfg: Config, s: State, t: nat, r: Reply, env: Env)
    requires t in s.running && t in s.world.cards && Fits(s.running[t].at, r)
    ensures AdvanceFlow(cfg, s, t, r, env) == Yielded(s, t, Resume(s.running[t], r, cfg.maxRounds, env))
  {
    hide Resume, Yielded;
  }

  lemma GoNeverCrashes(f: Flow, maxRounds: nat, env: Env)
    requires Fits(f.at, Go)
    ensures Resume(f, Go, maxRounds, env).Step?
  {
  }

  /** Advancing the flow in hand, with whatever its job answered. */
  lemma AdvanceKeeps(cfg: Config, s: State, t: nat, r: Reply, env: Env)
    requires Inv(cfg, s, Some(t)) && t != CHECKER && s.status != Crashed
    requires Fits(s.running[t].at, r) && (s.running[t].at.AtGreen? ==> s.Settled())
    ensures t in s.world.cards
    ensures
      var s' := AdvanceFlow(cfg, s, t, r, env);
      && Inv(cfg, s', HandAfter(s', t))
      && (r.Go? ==> s'.status == s.status)
      && (s.running[t].at.AtGreen? ==> s'.waiting == s.waiting)
      && YieldFrame(s, t, s') && s'.running.Keys <= s.running.Keys && s'.world.cards - {t} == s.world.cards - {t}
  {
    assert FlowPlaced(cfg, s, Some(t), t);
    var f := s.running[t];
    assert CardOk(f, s.world.cards[t]) && t !in s.waiting;
    ResumeStepOk(cfg, f, r, env, s.world.cards[t]);
    if r.Go? {
      GoNeverCrashes(f, cfg.maxRounds, env);
    }
    hide Resume, Inv, FlowOk, CardOk;
    var step := Resume(f, r, cfg.maxRounds, env);
    YieldKeeps(cfg, s, t, step);
    YieldSummary(cfg, s, t, step);
  }

  lemma YieldSummary(cfg: Config, s: State, t: nat, step: Step)
    requires InHand(cfg, s, t, step)
    ensures
      var s' := Yielded(s, t, step);
      && (step.Step? ==> s'.status == s.status)
      && (s.running[t].at.AtGreen? ==> s'.waiting == s.waiting)
      && YieldFrame(s, t, s') && s'.running.Keys <= s.running.Keys && s'.world.cards - {t} == s.world.cards - {t}
  {
    if step.Step? {
      AbsorbCards(s.world, t, step.effects);
    }
    YieldTouches(s, t, step);
    YieldCases(s, t, step);
    NotGreenTwice(cfg, s.running[t], s.world.cards[t], step);
    hide StepOk, Absorb, ApplyAll, Yielded;
  }

  lemma NotGreenTwice(cfg: Config, f: Flow, card: Card, step: Step)
    requires StepOk(cfg, f, card, step)
    ensures step.Step? && f.at.AtGreen? ==> !step.flow.at.AtGreen?
  {
  }

  // What `Ready` lists may be dispatched, each ticket once.

  lemma {:induction false} TwiceMeansTwo(xs: seq<Issue>, x: Issue) returns (i: nat, j: nat)
    requires multiset(xs)[x] >= 2
    ensures i < j < |xs| && xs[i] == x && xs[j] == x
  {
    assert xs == [xs[0]] + xs[1..];
    if xs[0] == x {
      assert x in multiset(xs[1..]);
      var k :| 0 <= k < |xs[1..]| && xs[1..][k] == x;
      return 0, k + 1;
    }
    i, j := TwiceMeansTwo(xs[1..], x);
    i, j := i + 1, j + 1;
  }

  lemma PermutedDistinct(xs: seq<Issue>, ys: seq<Issue>)
    requires multiset(xs) == multiset(ys) && NumbersDistinct(ys)
    ensures NumbersDistinct(xs)
  {
    forall i, j | 0 <= i < j < |xs|
      ensures xs[i].number != xs[j].number
    {
      if xs[i] == xs[j] {
        assert xs == xs[..j] + [xs[j]] + xs[j + 1..];
        assert xs[..j][i] == xs[i];
        var k, l := TwiceMeansTwo(ys, xs[i]);
      } else {
        assert xs[i] in multiset(ys) && xs[j] in multiset(ys);
        var k :| 0 <= k < |ys| && ys[k] == xs[i];
        var l :| 0 <= l < |ys| && ys[l] == xs[j];
        assert k < l || l < k;
      }
    }
  }

  lemma {:induction false} ReadyInDistinct(some: seq<Issue>, tickets: seq<Issue>, blockers: Blockers)
    requires NumbersDistinct(some)
    ensures NumbersDistinct(ReadyIn(some, tickets, blockers))
  {
    if some == [] {
    } else {
      assert forall j | 0 <= j < |some[1..]| :: some[1..][j] == some[1 + j];
      ReadyInDistinct(some[1..], tickets, blockers);
      var rest := ReadyIn(some[1..], tickets, blockers);
      forall j | 0 <= j < |rest|
        ensures rest[j].number != some[0].number
      {
        assert rest[j] in rest && rest[j] in some[1..];
      }
    }
  }

  lemma FrontierDistinct(cfg: Config, w: World)
    requires ConfigOk(cfg)
    ensures NoRepeats(IssueNumbers(Dispatchable(Issues(cfg, w), cfg.blockers)))
  {
    var issues := Issues(cfg, w);
    assert NumbersDistinct(issues);
    ReadyInDistinct(issues, issues, cfg.blockers);
    PermutedDistinct(Dispatchable(issues, cfg.blockers), ReadyIn(issues, issues, cfg.blockers));
  }

  lemma {:induction false} PicksDistinct(numbers: seq<nat>, resume: bool, dispatched: set<nat>)
    requires NoRepeats(numbers)
    ensures forall i, j | 0 <= i < j < |PicksOf(numbers, resume, dispatched)| ::
      PicksOf(numbers, resume, dispatched)[i].number != PicksOf(numbers, resume, dispatched)[j].number
  {
    if numbers == [] {
    } else {
      assert forall j | 0 <= j < |numbers[1..]| :: numbers[1..][j] == numbers[1 + j];
      assert numbers[0] !in numbers[1..];
      PicksDistinct(numbers[1..], resume, dispatched);
      var rest := PicksOf(numbers[1..], resume, dispatched);
      forall j | 0 <= j < |rest|
        ensures rest[j].number != numbers[0]
      {
        assert rest[j] in rest;
      }
    }
  }

  /** A ticket on the frontier is queued, and so without an open or merged PR. */
  lemma FrontierPick(cfg: Config, s: State, t: nat)
    requires CardsOk(cfg, s) && CHECKER !in s.world.cards && t !in s.dispatched
    requires t in IssueNumbers(Dispatchable(Issues(cfg, s.world), cfg.blockers))
    ensures PickOk(cfg, s, Pick(t, false)) && t !in cfg.resumes
  {
    var issues := Issues(cfg, s.world);
    var frontier := Dispatchable(issues, cfg.blockers);
    DispatchableMeaning(issues, cfg.blockers);
    var i :| 0 <= i < |frontier| && frontier[i].number == t;
    assert frontier[i] in frontier && frontier[i] in issues;
    assert t in s.world.cards && Queued in s.world.cards[t].labels;
    QueuedCard(s.world.cards[t]);
  }

  lemma QueuedCard(card: Card)
    requires (Legit(card) || Untracked(card)) && Queued in card.labels
    ensures In(card, Queued) && card.pr in {NoPr, Closed} && !In(card, InReview)
  {
    assert Queued in card.labels * STATES;
    if l :| l in STATES && In(card, l) {
      assert Queued in {l};
    }
  }

  lemma ResumePicks(cfg: Config, s: State)
    requires CardsOk(cfg, s) && CHECKER !in s.world.cards
    ensures forall p | p in PicksOf(cfg.resumes, true, s.dispatched) :: PickOk(cfg, s, p) && p.number in cfg.resumes
  {
  }

  /** What `Ready` lists may be dispatched: every ticket at most once, none that runs. */
  lemma ReadyOk(cfg: Config, s: State)
    requires ConfigOk(cfg) && CardsOk(cfg, s) && CHECKER !in s.world.cards
    ensures forall p | p in Ready(cfg, s) :: PickOk(cfg, s, p)
    ensures forall i, j | 0 <= i < j < |Ready(cfg, s)| :: Ready(cfg, s)[i].number != Ready(cfg, s)[j].number
  {
    var frontier := IssueNumbers(Dispatchable(Issues(cfg, s.world), cfg.blockers));
    var a, b := PicksOf(cfg.resumes, true, s.dispatched), PicksOf(frontier, false, s.dispatched);
    PicksDistinct(cfg.resumes, true, s.dispatched);
    FrontierDistinct(cfg, s.world);
    PicksDistinct(frontier, false, s.dispatched);
    assert Ready(cfg, s) == a + b;
    hide PicksOf, Ready, Dispatchable, PickOk, CardsOk, NoRepeats;
    ResumePicks(cfg, s);
    forall p | p in b
      ensures PickOk(cfg, s, p) && p.number !in cfg.resumes
    {
      FrontierPick(cfg, s, p.number);
    }
    forall i, j | 0 <= i < j < |a + b|
      ensures (a + b)[i].number != (a + b)[j].number
    {
      if i < |a| <= j {
        assert a[i] in a && b[j - |a|] in b;
      }
    }
    forall p | p in a + b
      ensures PickOk(cfg, s, p)
    {
    }
  }
}

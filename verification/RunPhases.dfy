/** The phases of a run around the frontier: what may start, and when the final stage is reached. */
module RunPhases {
  import opened Wrappers
  import opened Board
  import opened Graph
  import opened Scheduler
  import opened SchedulerInvariant
  import opened Frontier
  import opened FrontierTheorems
  import opened FrontierPause
  import Reconcile

  // Startup.

  datatype Startup =
    | NoSubIssues
    | UnreadableBlockers
    | Cycle(tickets: seq<nat>)
    | NothingQueued
    | Started(board: seq<Reconcile.Row>)

  function IssuesOf(rows: seq<Reconcile.Row>): seq<Issue> {
    seq(|rows|, i requires 0 <= i < |rows| => Issue(rows[i].number, rows[i].repo, rows[i].card.labels, rows[i].open))
  }

  predicate HasWork(rows: seq<Reconcile.Row>) {
    exists i | 0 <= i < |rows| :: {Queued, InReview, Integrated} * rows[i].card.labels != {}
  }

  lemma WorkMeaning(rows: seq<Reconcile.Row>)
    ensures HasWork(rows) <==>
      exists i | 0 <= i < |rows| ::
        Queued in rows[i].card.labels || InReview in rows[i].card.labels || Integrated in rows[i].card.labels
  {
    if i :| 0 <= i < |rows| && {Queued, InReview, Integrated} * rows[i].card.labels != {} {
      var l :| l in {Queued, InReview, Integrated} * rows[i].card.labels;
    }
    if i :| 0 <= i < |rows| && (Queued in rows[i].card.labels || InReview in rows[i].card.labels
                                || Integrated in rows[i].card.labels) {
      var l := if Queued in rows[i].card.labels then Queued
               else if InReview in rows[i].card.labels then InReview else Integrated;
      assert l in {Queued, InReview, Integrated} * rows[i].card.labels;
    }
  }

  /** Refuse a missing, unreadable or cyclic board, before any label is written; then reconcile it. */
  method Launch(rows: seq<Reconcile.Row>, blockers: Option<Blockers>, readable: nat -> bool)
    returns (r: Startup)
    ensures r.NoSubIssues? <==> rows == []
    ensures r.UnreadableBlockers? <==> rows != [] && blockers.None?
    ensures r.Cycle? <==> rows != [] && blockers.Some? && !Acyclic(EdgesOf(IssuesOf(rows), blockers.value))
    ensures r.Cycle? ==> IsCycle(EdgesOf(IssuesOf(rows), blockers.value), r.tickets)
    ensures r.Started? ==> Reconcile.IsReconciled(rows, readable, r.board)
    ensures r.Started? ==>
      exists i | 0 <= i < |r.board| ::
        Queued in r.board[i].card.labels || InReview in r.board[i].card.labels || Integrated in r.board[i].card.labels
    ensures r.NothingQueued? ==> forall board :: Reconcile.IsReconciled(rows, readable, board) ==> !HasWork(board)
  {
    hide Reconcile.Reconciled, IsCycle, Acyclic;
    if rows == [] {
      return NoSubIssues;
    }
    if blockers.None? {
      return UnreadableBlockers;
    }
    var cycle := FindCycle(IssuesOf(rows), blockers.value);
    if cycle != [] {
      return Cycle(cycle);
    }
    var board := Reconcile.ReconcileBoard(rows, readable);
    WorkMeaning(board);
    assert forall other :: Reconcile.IsReconciled(rows, readable, other) ==> other == board;
    r := if HasWork(board) then Started(board) else NothingQueued;
  }

  // The reasons a run ends with.

  datatype FinishReason =
    | Cascade
    | StillQueued
    | LeftForHuman
    | NoOpenTicket
    | NotIntegrated(pending: seq<nat>)
    | AllIntegrated

  predicate AnyOpen(tickets: seq<Issue>) {
    exists t | t in tickets :: t.open
  }

  predicate AllOpenIntegrated(tickets: seq<Issue>) {
    forall t | t in tickets && t.open :: Integrated in t.labels
  }

  /** The open tickets that are not integrated, as listed. */
  function Pending(tickets: seq<Issue>): (r: seq<nat>)
    ensures r == [] <==> AllOpenIntegrated(tickets)
    ensures forall n :: n in r <==> exists t | t in tickets :: t.open && Integrated !in t.labels && t.number == n
  {
    if tickets == [] then []
    else
      assert tickets == [tickets[0]] + tickets[1..];
      (if tickets[0].open && Integrated !in tickets[0].labels then [tickets[0].number] else []) + Pending(tickets[1..])
  }

  /** The first obstacle to the final stage, if there is one. */
  function NotStartedReason(tickets: seq<Issue>): Option<FinishReason> {
    if !AnyOpen(tickets) then Some(NoOpenTicket)
    else if Pending(tickets) != [] then Some(NotIntegrated(Pending(tickets)))
    else None
  }

  /** A queued ticket, open or closed, that depends on a failed or blocked one. */
  ghost predicate SomeCascade(tickets: seq<Issue>, blockers: Blockers) {
    exists t | t in tickets :: Waits(tickets, blockers, HALTED, t)
  }

  ghost function FinishOf(tickets: seq<Issue>, blockers: Blockers): FinishReason {
    if SomeCascade(tickets, blockers) then Cascade
    else if exists t | t in tickets :: t.open && Queued in t.labels then StillQueued
    else if exists t | t in tickets :: t.open && HALTED * t.labels != {} then LeftForHuman
    else match NotStartedReason(tickets)
         case Some(reason) => reason
         case None => AllIntegrated
  }

  method Finish(tickets: seq<Issue>, blockers: Blockers) returns (r: FinishReason)
    requires NumbersDistinct(tickets)
    ensures r == FinishOf(tickets, blockers)
  {
    hide Waits, Explains;
    var cascade := HaltedBlockers(tickets, blockers, HALTED);
    CascadeKeys(tickets, blockers, cascade);
    if cascade != map[] {
      return Cascade;
    }
    if exists t | t in tickets :: t.open && Queued in t.labels {
      return StillQueued;
    }
    if exists t | t in tickets :: t.open && HALTED * t.labels != {} {
      return LeftForHuman;
    }
    var reason := NotStartedReason(tickets);
    r := if reason.Some? then reason.value else AllIntegrated;
  }

  lemma CascadeKeys(tickets: seq<Issue>, blockers: Blockers, cascade: map<nat, seq<nat>>)
    requires forall t | t in tickets :: Explains(cascade, tickets, blockers, HALTED, t)
    requires forall n | n in cascade :: exists t | t in tickets :: t.number == n
    ensures cascade != map[] <==> SomeCascade(tickets, blockers)
  {
    hide Waits;
    if cascade != map[] {
      var n :| n in cascade;
      var t :| t in tickets && t.number == n;
      assert Explains(cascade, tickets, blockers, HALTED, t);
    }
    if SomeCascade(tickets, blockers) {
      var t :| t in tickets && Waits(tickets, blockers, HALTED, t);
      assert Explains(cascade, tickets, blockers, HALTED, t);
    }
  }

  ghost predicate OpenWith(tickets: seq<Issue>, labels: set<Label>) {
    exists t | t in tickets :: t.open && labels * t.labels != {}
  }

  /** When each reason is given. A cascade, a queued ticket and one left for a human come before the state of
      the final stage; a board without an open ticket is never done. */
  lemma FinishMeaning(tickets: seq<Issue>, blockers: Blockers)
    ensures
      var r := FinishOf(tickets, blockers);
      var quiet := !SomeCascade(tickets, blockers) && !OpenWith(tickets, {Queued}) && !OpenWith(tickets, HALTED);
      && (r == Cascade <==> SomeCascade(tickets, blockers))
      && (r == StillQueued <==> !SomeCascade(tickets, blockers) && OpenWith(tickets, {Queued}))
      && (r == LeftForHuman <==>
            !SomeCascade(tickets, blockers) && !OpenWith(tickets, {Queued}) && OpenWith(tickets, HALTED))
      && (r == NoOpenTicket <==> quiet && forall t | t in tickets :: !t.open)
      && (r.NotIntegrated? <==> quiet && exists t | t in tickets :: t.open && Integrated !in t.labels)
      && (r.NotIntegrated? ==> r.pending == Pending(tickets))
      && (r == AllIntegrated <==>
            && quiet && (exists t | t in tickets :: t.open)
            && forall t | t in tickets && t.open :: Integrated in t.labels)
  {
    hide SomeCascade, Pending;
    OpenQueued(tickets);
  }

  lemma OpenQueued(tickets: seq<Issue>)
    ensures OpenWith(tickets, {Queued}) <==> exists t | t in tickets :: t.open && Queued in t.labels
  {
    if t :| t in tickets && t.open && Queued in t.labels {
      assert Queued in {Queued} * t.labels;
    }
    if t :| t in tickets && t.open && {Queued} * t.labels != {} {
      var l :| l in {Queued} * t.labels;
    }
  }

  predicate OneStateEach(tickets: seq<Issue>) {
    forall t | t in tickets :: t.labels * STATES == {} || exists l | l in STATES :: t.labels * STATES == {l}
  }

  /** On a board with at most one state label per ticket, the frontier is done exactly when the final
      review can start and no closed ticket cascades. */
  lemma DoneMeaning(tickets: seq<Issue>, blockers: Blockers)
    requires OneStateEach(tickets)
    ensures FinishOf(tickets, blockers) == AllIntegrated <==>
      NotStartedReason(tickets) == None && !exists t | t in tickets :: !t.open && Waits(tickets, blockers, HALTED, t)
  {
    hide DependsOnHalted;
    if NotStartedReason(tickets) == None {
      forall t | t in tickets && t.open
        ensures Queued !in t.labels && HALTED * t.labels == {}
      {
        OnlyIntegrated(t);
      }
    }
  }

  lemma OnlyIntegrated(t: Issue)
    requires t.labels * STATES == {} || exists l | l in STATES :: t.labels * STATES == {l}
    requires Integrated in t.labels
    ensures Queued !in t.labels && HALTED * t.labels == {}
  {
    assert Integrated in t.labels * STATES;
    assert forall l | l in STATES && l in t.labels :: l in t.labels * STATES;
  }

  /** The corner: the cascade also counts closed tickets. With every open ticket integrated, a closed
      queued ticket behind a closed failed one still keeps the final stage from starting. */
  lemma ClosedTicketsCascade()
    ensures
      var done := Issue(1, "r", {Integrated}, true);
      var queued := Issue(2, "r", {Queued}, false);
      var failed := Issue(3, "r", {FailedIssue}, false);
      var tickets := [done, queued, failed];
      NotStartedReason(tickets) == None && FinishOf(tickets, map[2 := [Blocker("r", 3, false)]]) == Cascade
  {
    hide Waits, AllOpenIntegrated;
    var done := Issue(1, "r", {Integrated}, true);
    var queued := Issue(2, "r", {Queued}, false);
    var failed := Issue(3, "r", {FailedIssue}, false);
    var tickets := [done, queued, failed];
    var blocker := Blocker("r", 3, false);
    var blockers: Blockers := map[2 := [blocker]];
    ListHas(done, queued, failed);
    assert BlockersOf(blockers, 2) == [blocker] && blocker in [blocker];
    assert Lookup(tickets, Key("r", 3)) == Some(failed);
    assert FailedIssue in HALTED * failed.labels;
    WaitsDirectly(tickets, blockers, queued, blocker);
    OpenIntegrated(done, queued, failed);
  }

  lemma OpenIntegrated(a: Issue, b: Issue, c: Issue)
    requires Integrated in a.labels && !b.open && !c.open
    ensures AllOpenIntegrated([a, b, c])
  {
  }

  lemma ListHas(a: Issue, b: Issue, c: Issue)
    ensures a in [a, b, c] && b in [a, b, c] && c in [a, b, c]
  {
    assert [a, b, c][0] == a && [a, b, c][1] == b && [a, b, c][2] == c;
  }

  lemma WaitsDirectly(tickets: seq<Issue>, blockers: Blockers, t: Issue, b: Blocker)
    requires Queued in t.labels && b in BlockersOf(blockers, t.number) && b.KeyOf() != t.KeyOf()
    requires IsHalted(tickets, HALTED, b.KeyOf())
    ensures Waits(tickets, blockers, HALTED, t)
  {
    var p := [b.KeyOf()];
    assert b.KeyOf() in Next(tickets, blockers, t.number);
    assert IsChain(tickets, blockers, HALTED, t.number, p) && p[|p| - 1] == b.KeyOf();
    assert Reaches(tickets, blockers, HALTED, t.number, b.KeyOf());
    assert DependsOnHalted(tickets, blockers, HALTED, t, b.number);
  }

  // The final stage is reached.

  /** Whether the run goes on to the final stage after a frontier that ended in `s`. */
  ghost predicate ReachesFinal(cfg: Config, s: State) {
    && s.status == Returned && !s.Draining()
    && FinishOf(Issues(cfg, s.world), cfg.blockers) == AllIntegrated
  }

  lemma {:induction false} RunReturns(cfg: Config, s: State, inputs: seq<Input>)
    requires Inv(cfg, s, None) && s.status == Looping
    ensures
      var r := Run(cfg, s, inputs);
      r.status == Returned && !r.Draining() ==> Inv(cfg, r, None) && r.Settled() && r.running == map[] && !r.limited
    decreases |inputs|
  {
    hide Inv, InvEnd, Pass;
    if inputs == [] {
    } else {
      var s' := Pass(cfg, s, inputs[0]);
      if s'.status == Looping {
        RunReturns(cfg, s', inputs[1..]);
      } else if s'.status == Returned && !s'.Draining() {
        ReturnIsSettled(cfg, s, inputs[0]);
      }
    }
  }

  /** The final stage starts only with no stop requested, nothing running, the branch settled and on a
      commit that passed verify (or the untouched baseline), and every open ticket integrated; and its
      own start check, on the same board, does not refuse. An unseen merge is again the exception. */
  lemma FinalStageIsEarned(cfg: Config, w: World, inputs: seq<Input>)
    requires WorldOk(cfg, w) && ReachesFinal(cfg, RunOf(cfg, w, inputs))
    ensures
      var s := RunOf(cfg, w, inputs);
      && s.Settled() && s.running == map[] && !s.limited
      && (OnGreen(cfg, s) <==> !UnseenSince(s.world.history))
      && NotStartedReason(Issues(cfg, s.world)) == None
  {
    hide InvEnd, Inv, OnGreen, SomeCascade, Issues, RunOf, Pending, AnyOpen;
    SettledIsGreen(cfg, w, inputs);
    WholeRunReturns(cfg, w, inputs);
  }

  lemma WholeRunReturns(cfg: Config, w: World, inputs: seq<Input>)
    requires WorldOk(cfg, w)
    ensures
      var s := RunOf(cfg, w, inputs);
      s.status == Returned && !s.Draining() ==> Inv(cfg, s, None) && s.Settled() && s.running == map[] && !s.limited
  {
    BeginOk(cfg, w);
    BeginsLooping(cfg, w);
    hide Inv, InvEnd, Run, Begin;
    RunReturns(cfg, Begin(cfg, w), inputs);
  }

  /** Every open ticket then has a merged pull request. */
  lemma FinalTicketsMerged(cfg: Config, w: World, inputs: seq<Input>, i: nat)
    requires WorldOk(cfg, w) && ReachesFinal(cfg, RunOf(cfg, w, inputs))
    requires i < |cfg.heads| && cfg.heads[i].open
    ensures
      var s, t := RunOf(cfg, w, inputs), cfg.heads[i].number;
      t in s.world.cards && In(s.world.cards[t], Integrated) && s.world.cards[t].pr == Merged
  {
    hide InvEnd, Inv, SomeCascade, RunOf;
    var s, t := RunOf(cfg, w, inputs), cfg.heads[i].number;
    var issues := Issues(cfg, s.world);
    assert issues[i] in issues && issues[i].open;
    assert Integrated in issues[i].labels;
    LabelsFit(cfg, w, inputs, t);
    var card := s.world.cards[t];
    assert Integrated in card.labels * STATES;
  }
}

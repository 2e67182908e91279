/** The life of a conductor on one PRD: run, end or crash, reconcile, run again. Every run starts as the
    theorems about a run assume, whatever happened before it. */
module Lifetime {
  import opened Board
  import opened Sorting
  import opened Graph
  import opened Reconcile
  import opened Scheduler
  import opened SchedulerInvariant
  import opened Frontier
  import opened FrontierTheorems
  import opened FrontierTermination
  import opened FrontierPause
  import opened FrontierSucceeds
  import opened FrontierEngine
  import opened Recovery

  // The board between two runs.

  /** A ticket left half-way, by its label. */
  predicate HalfWay(card: Card) {
    In(card, InProgress) || In(card, InReview)
  }

  /** What the next startup can put right: a card a run may leave, or one left half-way whose PR a human
      merged or closed since, as long as the ticket is open and its PR can be read. */
  predicate RowOk(row: Row, readable: bool) {
    && row.number != CHECKER
    && (Legit(row.card) || Untracked(row.card) || (row.open && readable && HalfWay(row.card)))
  }

  predicate RowsOk(rows: seq<Row>, readable: nat -> bool) {
    NoRepeats(Numbers(rows)) && forall i | 0 <= i < |rows| :: RowOk(rows[i], readable(rows[i].number))
  }

  lemma UntrackedHas(card: Card, l: Label)
    requires Untracked(card) && l in STATES
    ensures l !in card.labels
  {
    assert l in card.labels ==> l in card.labels * STATES;
  }

  lemma UntrackedStays(row: Row, readable: bool)
    requires Untracked(row.card)
    ensures Reconciled(row, readable) == row
  {
    UntrackedHas(row.card, InProgress);
    UntrackedHas(row.card, InReview);
  }

  /** A ticket left half-way ends where its PR says, whatever that is. */
  lemma HalfWaySettles(row: Row)
    requires row.open && HalfWay(row.card)
    ensures
      var after := Reconciled(row, true).card;
      after.pr == row.card.pr && Legit(after) && MatchesPr(after)
  {
    var card := row.card;
    var l := if In(card, InProgress) then InProgress else InReview;
    HasOnly(card, l);
    var gone := LEFT_BY_A_RUN * card.labels;
    assert l in gone;
    var after := Reconciled(row, true).card;
    var to := if card.pr == Merged then Integrated else if card.pr == Open then InReview else Queued;
    if card.pr == Open && l == InReview {
      assert after == card;
    } else if card.pr == Open {
      Relabel(card, l, to, {InProgress});
    } else {
      Relabel(card, l, to, gone);
    }
    HasOnly(after, to);
  }

  /** One startup puts the row right. */
  lemma RowSettles(row: Row, readable: bool)
    requires RowOk(row, readable)
    ensures
      var after := Reconciled(row, readable);
      && after.number == row.number && after.repo == row.repo && after.open == row.open
      && after.card.pr == row.card.pr && (Legit(after.card) || Untracked(after.card))
  {
    hide Legit, Settle;
    if Untracked(row.card) {
      UntrackedStays(row, readable);
    } else if row.open && readable && HalfWay(row.card) {
      HalfWaySettles(row);
    } else if row.open && readable {
      SettleLegit(row);
    } else {
      assert Reconciled(row, readable) == row;
    }
  }

  /** A row that shows a ticket as a run left it. */
  predicate ShowsTicket(row: Row, cards: map<nat, Card>) {
    row.number in cards && row.card == cards[row.number]
  }

  /** What a human may do to it in between: merge or close its open PR, and open or close the ticket. */
  predicate Touched(row: Row, cards: map<nat, Card>) {
    && row.number in cards && row.card.labels == cards[row.number].labels
    && (row.card.pr == cards[row.number].pr || (cards[row.number].pr == Open && row.card.pr in {Merged, Closed}))
  }

  lemma LegitTouched(card: Card, after: Card)
    requires Legit(card) && after.labels == card.labels
    requires after.pr == card.pr || (card.pr == Open && after.pr in {Merged, Closed})
    ensures Legit(after) || HalfWay(after)
  {
  }

  /** What the conductor leaves on the board when a run is over, or died between two passes. */
  function LeftBy(cfg: Config, w: World, inputs: seq<Input>, readable: nat -> bool): World
    requires WorldOk(cfg, w)
  {
    Abandon(RunOf(cfg, w, inputs), readable).world
  }

  lemma AbandonsCards(s: State, readable: nat -> bool)
    ensures Abandon(s, readable).world.(cards := s.world.cards) == s.world
    ensures Abandon(s, readable).world.cards.Keys == s.world.cards.Keys
  {
    hide ParkCard;
  }

  lemma LeftCard(cfg: Config, w: World, inputs: seq<Input>, readable: nat -> bool, t: nat)
    requires WorldOk(cfg, w) && t in LeftBy(cfg, w, inputs, readable).cards
    ensures
      var card := LeftBy(cfg, w, inputs, readable).cards[t];
      t != CHECKER && (Legit(card) || Untracked(card))
  {
    hide InvEnd, Legit, Abandon;
    var s := RunOf(cfg, w, inputs);
    CrashedRun(cfg, w, inputs);
    hide RunOf;
    AbandonsCards(s, readable);
    AbandonedLegit(cfg, s, readable, t);
    NoChecker(cfg, s);
  }

  lemma NoChecker(cfg: Config, s: State)
    requires InvEnd(cfg, s)
    ensures CHECKER !in s.world.cards
  {
  }

  /** Whatever a run left, and whatever a human merged or closed since, can be put right. A ticket a human
      touched must be open and readable if it was left half-way. */
  lemma LeftRowsOk(cfg: Config, w: World, inputs: seq<Input>, stopped: nat -> bool, row: Row, readable: bool)
    requires WorldOk(cfg, w)
    requires
      var cards := LeftBy(cfg, w, inputs, stopped).cards;
      ShowsTicket(row, cards) || (Touched(row, cards) && row.open && readable)
    ensures RowOk(row, readable)
  {
    hide LeftBy, Legit;
    LeftCard(cfg, w, inputs, stopped, row.number);
    var card := LeftBy(cfg, w, inputs, stopped).cards[row.number];
    if Legit(card) {
      LegitTouched(card, row.card);
    }
  }

  // The next run.

  function CardsOf(rows: seq<Row>): (r: map<nat, Card>)
    requires NoRepeats(Numbers(rows))
    ensures forall n :: n in r <==> n in Numbers(rows)
    ensures forall i | 0 <= i < |rows| :: rows[i].number in r && r[rows[i].number] == rows[i].card
  {
    var numbers := Numbers(rows);
    assert forall i | 0 <= i < |rows| :: numbers[i] == rows[i].number && IndexOf(numbers, numbers[i]) == i;
    map n | n in numbers :: rows[IndexOf(numbers, n)].card
  }

  /** The board and the remote the next run finds: its tickets as reconciled, the branch as it was left. */
  function NextWorld(left: World, board: seq<Row>): World
    requires NoRepeats(Numbers(board))
  {
    left.(cards := CardsOf(board), history := [], log := [])
  }

  /** A configuration for the next run: its sub-issues and the tickets to resume come from the board, and a
      green baseline is the tip. All other settings are free. */
  ghost predicate Configures(cfg: Config, board: seq<Row>, readable: nat -> bool, tip: Commit) {
    && cfg.parallel >= 1 && |cfg.heads| == |board|
    && (forall i | 0 <= i < |board| :: cfg.heads[i] == Head(board[i].number, board[i].repo, board[i].open))
    && Increasing(cfg.resumes) && (forall n :: n in cfg.resumes <==> ResumesIn(board, readable, n))
    && (cfg.Baseline().Some? ==> cfg.Baseline().value == tip)
  }

  lemma SameNumbers(rows: seq<Row>, readable: nat -> bool, board: seq<Row>)
    requires RowsOk(rows, readable) && IsReconciled(rows, readable, board)
    ensures Numbers(board) == Numbers(rows)
    ensures forall i | 0 <= i < |board| ::
      board[i].number != CHECKER && (Legit(board[i].card) || Untracked(board[i].card))
  {
    hide Reconciled, Legit, NoRepeats;
    forall i | 0 <= i < |board|
      ensures board[i].number == rows[i].number != CHECKER && (Legit(board[i].card) || Untracked(board[i].card))
    {
      RowSettles(rows[i], readable(rows[i].number));
    }
  }

  lemma ResumedCard(row: Row, readable: nat -> bool)
    requires Resumes(row, readable) && (Legit(row.card) || Untracked(row.card))
    ensures In(row.card, InReview) && row.card.pr == Open
  {
    assert InReview in row.card.labels * STATES;
  }

  lemma HeadsDistinct(cfg: Config, board: seq<Row>, readable: nat -> bool, tip: Commit)
    requires Configures(cfg, board, readable, tip) && NoRepeats(Numbers(board))
    ensures ConfigOk(cfg)
  {
    forall i, j | 0 <= i < j < |cfg.heads|
      ensures cfg.heads[i].number != cfg.heads[j].number
    {
      assert Numbers(board)[i] != Numbers(board)[j];
    }
  }

  /** After a startup on rows that can be put right, the next run starts well. */
  lemma StartsWell(left: World, rows: seq<Row>, readable: nat -> bool, board: seq<Row>, again: nat -> bool, cfg: Config)
    requires Fresh(left) && RowsOk(rows, readable) && IsReconciled(rows, readable, board)
    requires Configures(cfg, board, again, left.tip)
    ensures NoRepeats(Numbers(board)) && WorldOk(cfg, NextWorld(left, board))
  {
    SameNumbers(rows, readable, board);
    HeadsDistinct(cfg, board, again, left.tip);
    hide NoRepeats, Legit, Untracked, Reconciled, Resumes, ConfigOk, RowOk;
    var cards := CardsOf(board);
    forall t | t in cards
      ensures t != CHECKER && (Legit(cards[t]) || Untracked(cards[t]))
    {
      var i :| 0 <= i < |board| && board[i].number == t;
    }
    forall t | t in cfg.resumes
      ensures t in cards && In(cards[t], InReview) && cards[t].pr == Open
    {
      var i :| 0 <= i < |board| && board[i].number == t && Resumes(board[i], again);
      ResumedCard(board[i], again);
    }
  }

  lemma LeftFresh(cfg: Config, w: World, inputs: seq<Input>, readable: nat -> bool)
    requires WorldOk(cfg, w)
    ensures Fresh(LeftBy(cfg, w, inputs, readable))
  {
    hide InvEnd, GreenOk, Abandon, RunOf;
    var s := RunOf(cfg, w, inputs);
    AbandonsCards(s, readable);
    EndFresh(cfg, s);
  }

  lemma EndFresh(cfg: Config, s: State)
    requires InvEnd(cfg, s)
    ensures Fresh(s.world)
  {
    EndIsGreen(cfg, s);
  }

  // A life.

  /** One run, what a human then left on the board, and what could be read at the startup after it. */
  datatype Stretch = Stretch(
    cfg: Config, world: World, inputs: seq<Input>, stopped: nat -> bool,
    rows: seq<Row>, readable: nat -> bool, board: seq<Row>, again: nat -> bool)

  /** Run `b` follows run `a`: the board as it was found was reconciled, and the next run configured. */
  ghost predicate Follows(a: Stretch, b: Stretch) {
    && WorldOk(a.cfg, a.world) && RowsOk(a.rows, a.readable)
    && IsReconciled(a.rows, a.readable, a.board) && NoRepeats(Numbers(a.board))
    && var left := LeftBy(a.cfg, a.world, a.inputs, a.stopped);
       Configures(b.cfg, a.board, a.again, left.tip) && b.world == NextWorld(left, a.board)
  }

  ghost predicate IsLife(life: seq<Stretch>) {
    && (life != [] ==> WorldOk(life[0].cfg, life[0].world))
    && forall i: nat | i + 1 < |life| && WorldOk(life[i].cfg, life[i].world) :: Follows(life[i], life[i + 1])
  }

  /** Every run of a life starts well, so all that holds of every run holds of each of them. */
  lemma {:induction false} EveryRunStartsWell(life: seq<Stretch>, i: nat)
    requires IsLife(life) && i < |life|
    ensures WorldOk(life[i].cfg, life[i].world)
  {
    hide WorldOk;
    if i == 0 {
    } else {
      EveryRunStartsWell(life, i - 1);
      var a := life[i - 1];
      assert Follows(a, life[i]);
      hide Follows, RowsOk, Fresh, Configures, LeftBy;
      FollowsWell(a, life[i]);
    }
  }

  lemma FollowsWell(a: Stretch, b: Stretch)
    requires Follows(a, b)
    ensures WorldOk(b.cfg, b.world)
  {
    hide WorldOk, RowsOk, Fresh, Configures, LeftBy, IsReconciled, NextWorld;
    LeftFresh(a.cfg, a.world, a.inputs, a.stopped);
    StartsWell(LeftBy(a.cfg, a.world, a.inputs, a.stopped), a.rows, a.readable, a.board, a.again, b.cfg);
  }

  // What a life is for.

  /** An open ticket the next run can work on: not left for a human, opted in, and readable at the startup. */
  predicate Workable(row: Row, readable: nat -> bool, again: nat -> bool) {
    row.open ==> !Halted(row.card) && !Untracked(row.card) && readable(row.number) && again(row.number)
  }

  lemma RowMatches(row: Row)
    requires RowOk(row, true) && row.open && !Halted(row.card) && !Untracked(row.card)
    ensures MatchesPr(Reconciled(row, true).card)
  {
    hide Legit, Settle, MatchesPr;
    if Legit(row.card) {
      SettleLegit(row);
    } else {
      HalfWaySettles(row);
    }
  }

  lemma MatchedHas(row: Row, again: nat -> bool)
    requires row.open && again(row.number) && MatchesPr(row.card)
    ensures In(row.card, Queued) || In(row.card, Integrated) || Resumes(row, again)
  {
    if In(row.card, InReview) {
      HasOnly(row.card, InReview);
    }
  }

  /** After the startup every open ticket is queued, resumed or integrated. */
  lemma StartTracks(left: World, rows: seq<Row>, readable: nat -> bool, board: seq<Row>, again: nat -> bool,
                    cfg: Config, k: nat)
    requires RowsOk(rows, readable) && IsReconciled(rows, readable, board) && NoRepeats(Numbers(board))
    requires Configures(cfg, board, again, left.tip)
    requires k < |rows| && rows[k].open && Workable(rows[k], readable, again)
    ensures Tracked(cfg, NextWorld(left, board), cfg.heads[k]) && cfg.heads[k].open
  {
    hide Reconciled, NoRepeats, Resumes, Legit, MatchesPr, In, Halted, Untracked;
    RowSettles(rows[k], readable(rows[k].number));
    RowMatches(rows[k]);
    MatchedHas(board[k], again);
  }

  /** Recovery. Whatever an earlier run did and however it ended: if no open ticket was left for a human,
      one startup and one good run integrate every open ticket and merge its PR. */
  lemma RecoversAndIntegrates(a: Stretch, b: Stretch, tickets: seq<nat>)
    requires Follows(a, b) && forall i | 0 <= i < |a.rows| :: Workable(a.rows[i], a.readable, a.again)
    requires NoRepeats(tickets) && forall t | t in b.world.cards :: t in tickets
    requires forall input | input in b.inputs :: GoodInput(input)
    requires WorldOk(b.cfg, b.world) ==> RunAnswers(b.cfg, b.world, b.inputs)
    requires |b.inputs| >=
      |tickets| * (6 * b.cfg.maxRounds + 3) + (|tickets| + 1) * (2 * b.cfg.maxRounds + 1) + 2
    requires Acyclic(EdgesOf(Issues(b.cfg, b.world), b.cfg.blockers))
    requires forall n: nat, x | x in BlockersOf(b.cfg.blockers, n) && x.open ::
      exists j | 0 <= j < |b.cfg.heads| :: HasKey(b.cfg.heads[j], x.KeyOf())
    ensures WorldOk(b.cfg, b.world) && RunOf(b.cfg, b.world, b.inputs).status == Returned
    ensures
      var cards := RunOf(b.cfg, b.world, b.inputs).world.cards;
      forall row | row in a.rows && row.open ::
        row.number in cards && In(cards[row.number], Integrated) && cards[row.number].pr == Merged
  {
    hide WorldOk, RowsOk, LeftBy, IsReconciled, NextWorld, GoodInput, RunAnswers, Acyclic, EdgesOf, Issues, In,
         BlockersOf, NoRepeats, Workable, RunOf, Tracked, InvEnd;
    FollowsWell(a, b);
    AllTracked(a, b);
    GoodRunIntegratesAll(b.cfg, b.world, b.inputs, tickets);
    forall row | row in a.rows && row.open
      ensures exists h :: h in b.cfg.heads && h.open && h.number == row.number
    {
      RowIsHead(a, b, row);
    }
  }

  lemma AllTracked(a: Stretch, b: Stretch)
    requires Follows(a, b) && forall i | 0 <= i < |a.rows| :: Workable(a.rows[i], a.readable, a.again)
    ensures forall h | h in b.cfg.heads && h.open :: Tracked(b.cfg, b.world, h)
  {
    hide WorldOk, RowsOk, LeftBy, NextWorld, NoRepeats, Workable, Tracked;
    forall h | h in b.cfg.heads && h.open
      ensures Tracked(b.cfg, b.world, h)
    {
      var k :| 0 <= k < |b.cfg.heads| && b.cfg.heads[k] == h;
      assert a.board[k].open && a.rows[k].open;
      StartTracks(LeftBy(a.cfg, a.world, a.inputs, a.stopped), a.rows, a.readable, a.board, a.again, b.cfg, k);
    }
  }

  lemma RowIsHead(a: Stretch, b: Stretch, row: Row)
    requires Follows(a, b) && row in a.rows && row.open
    ensures exists h :: h in b.cfg.heads && h.open && h.number == row.number
  {
    hide WorldOk, RowsOk, LeftBy, NextWorld, NoRepeats;
    var k :| 0 <= k < |a.rows| && a.rows[k] == row;
    assert a.board[k].number == row.number && a.board[k].open;
    assert b.cfg.heads[k] in b.cfg.heads;
  }
}

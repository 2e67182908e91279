/** Startup: settle the labels an earlier run left behind from the state of each ticket's PR. */
module Reconcile {
  import opened Board
  import opened Sorting
  import opened TicketFlow
  import opened TicketFlowProofs

  /** A ticket as the board lists it. */
  datatype Row = Row(number: nat, repo: string, open: bool, card: Card)

  predicate LeftByARun(card: Card) {
    LEFT_BY_A_RUN * card.labels != {}
  }

  /** The label write for one ticket whose PR could be read. */
  function Settle(card: Card): Card {
    var gone := LEFT_BY_A_RUN * card.labels;
    if card.pr == Merged then Apply(card, Labelled({Integrated}, gone))
    else if card.pr == Open then
      if InProgress in card.labels then Apply(card, Labelled({InReview}, {InProgress})) else card
    else Apply(card, Labelled({Queued}, gone))
  }

  /** An unreadable PR leaves the ticket as it is, and so does a ticket no run was working on. */
  function Reconciled(row: Row, readable: bool): Row {
    if !row.open || !LeftByARun(row.card) || !readable then row else row.(card := Settle(row.card))
  }

  predicate IsReconciled(rows: seq<Row>, readable: nat -> bool, board: seq<Row>) {
    && |board| == |rows|
    && forall i | 0 <= i < |rows| :: board[i] == Reconciled(rows[i], readable(rows[i].number))
  }

  /** Only an open ticket that a run left behind, and whose PR can be read, is touched; its number, repository
      and PR stay. */
  lemma LeavesAlone(row: Row, readable: bool)
    ensures
      var after := Reconciled(row, readable);
      && after == row.(card := after.card) && after.card.pr == row.card.pr
      && (after != row ==>
            row.open && readable && (InProgress in row.card.labels || InReview in row.card.labels))
  {
  }

  method ReconcileBoard(rows: seq<Row>, readable: nat -> bool) returns (board: seq<Row>)
    ensures IsReconciled(rows, readable, board)
  {
    board := rows;
    for k := 0 to |rows|
      invariant |board| == |rows|
      invariant forall i | 0 <= i < k :: board[i] == Reconciled(rows[i], readable(rows[i].number))
      invariant forall i | k <= i < |rows| :: board[i] == rows[i]
    {
      var row := rows[k];
      if !row.open || !LeftByARun(row.card) {
        continue;
      }
      if readable(row.number) {
        board := board[k := row.(card := Settle(row.card))];
      }
    }
  }

  predicate Resumes(row: Row, readable: nat -> bool) {
    row.open && InReview in row.card.labels && readable(row.number) && row.card.pr == Open
  }

  predicate ResumesIn(rows: seq<Row>, readable: nat -> bool, n: nat) {
    exists i | 0 <= i < |rows| :: rows[i].number == n && Resumes(rows[i], readable)
  }

  function Numbers(rows: seq<Row>): seq<nat> {
    seq(|rows|, i requires 0 <= i < |rows| => rows[i].number)
  }

  /** The tickets to resume, in ascending order. */
  method Resumable(rows: seq<Row>, readable: nat -> bool) returns (found: seq<nat>)
    ensures forall n :: n in found <==>
      exists i | 0 <= i < |rows| ::
        && rows[i].number == n && rows[i].open && InReview in rows[i].card.labels
        && readable(n) && rows[i].card.pr == Open
    ensures Ordered(found, AtMost)
    ensures NoRepeats(Numbers(rows)) ==> Increasing(found)
  {
    var listed: seq<nat> := [];
    for k := 0 to |rows|
      invariant forall n :: n in listed <==> ResumesIn(rows[..k], readable, n)
      invariant NoRepeats(Numbers(rows)) ==> NoRepeats(listed)
    {
      var row := rows[k];
      NextRow(rows, readable, k);
      if !row.open || InReview !in row.card.labels || !readable(row.number) {
        continue;
      }
      if row.card.pr == Open {
        listed := listed + [row.number];
      }
    }
    assert rows[..|rows|] == rows;
    assert forall n :: n in listed <==> ResumesIn(rows, readable, n);
    found := SortBy(listed, AtMost);
    SortKeeps(listed, AtMost);
    SortOrdered(listed, AtMost);
    if NoRepeats(Numbers(rows)) {
      SortDistinct(listed);
    }
  }

  lemma NextRow(rows: seq<Row>, readable: nat -> bool, k: nat)
    requires k < |rows|
    ensures NoRepeats(Numbers(rows)) ==> !ResumesIn(rows[..k], readable, rows[k].number)
    ensures forall n :: ResumesIn(rows[..k + 1], readable, n) <==>
      ResumesIn(rows[..k], readable, n) || (n == rows[k].number && Resumes(rows[k], readable))
  {
    forall i | 0 <= i < k
      ensures NoRepeats(Numbers(rows)) ==> rows[..k][i].number != rows[k].number
    {
      assert NoRepeats(Numbers(rows)) ==> Numbers(rows)[i] != Numbers(rows)[k];
    }
    var before, after := rows[..k], rows[..k + 1];
    assert after[k] == rows[k] && forall i | 0 <= i < k :: after[i] == before[i];
    hide Resumes;
    forall n
      ensures ResumesIn(after, readable, n) <==>
        ResumesIn(before, readable, n) || (n == rows[k].number && Resumes(rows[k], readable))
    {
      if i :| 0 <= i < |before| && before[i].number == n && Resumes(before[i], readable) {
        assert after[i].number == n && Resumes(after[i], readable);
      }
      if i :| 0 <= i < |after| && after[i].number == n && Resumes(after[i], readable) {
        assert i < k ==> before[i].number == n && Resumes(before[i], readable);
      }
    }
  }

  predicate Halted(card: Card) {
    HALTED * card.labels != {}
  }

  /** Where a settled ticket stands is exactly what its PR says. */
  predicate MatchesPr(card: Card) {
    && (In(card, Integrated) <==> card.pr == Merged)
    && (In(card, InReview) <==> card.pr == Open)
    && (In(card, Queued) <==> card.pr in {NoPr, Closed})
  }

  lemma HasOnly(card: Card, l: Label)
    requires In(card, l)
    ensures forall m | m in STATES :: m in card.labels <==> m == l
  {
    forall m | m in STATES
      ensures m in card.labels <==> m == l
    {
      assert m in card.labels <==> m in card.labels * STATES;
    }
  }

  /** From anything a conductor may leave behind, one reconciliation restores the board. */
  lemma SettleLegit(row: Row)
    requires row.open && Legit(row.card)
    ensures
      var card, after := row.card, Reconciled(row, true).card;
      && after.pr == card.pr && Legit(after)
      && (if Halted(card) then after == card else MatchesPr(after))
  {
    var card := row.card;
    var l :| l in STATES && In(card, l);
    HasOnly(card, l);
    var gone := LEFT_BY_A_RUN * card.labels;
    var after := Reconciled(row, true).card;
    if l in LEFT_BY_A_RUN {
      assert l in gone;
      var to := if card.pr == Merged then Integrated else if card.pr == Open then InReview else Queued;
      if card.pr == Open && l == InReview {
        assert after == card;
      } else if card.pr == Open {
        Relabel(card, l, to, {InProgress});
      } else {
        Relabel(card, l, to, gone);
      }
      HasOnly(after, to);
      assert !Halted(card);
    } else {
      assert gone == {};
      assert after == card;
      assert Halted(card) <==> l in HALTED;
    }
  }

  /** A second reconciliation changes nothing. */
  lemma SettleOnce(row: Row)
    requires row.open && Legit(row.card)
    ensures
      var once := Reconciled(row, true);
      Reconciled(once, true) == once
  {
    var once := Reconciled(row, true);
    SettleLegit(row);
    if LeftByARun(once.card) {
      var l :| l in STATES && In(once.card, l);
      HasOnly(once.card, l);
      assert once.card.pr == Open && l == InReview by {
        if Halted(row.card) {
          var m :| m in STATES && In(row.card, m);
          HasOnly(row.card, m);
        }
      }
    }
  }

  /** Crash recovery. If a run dies after any prefix of a ticket flow's writes, reconciling leaves the
      ticket integrated exactly when its PR merged, in review exactly when it is open, queued
      otherwise, and a halted ticket untouched; reconciling again changes nothing. */
  lemma CrashRecovery(row: Row, resumed: bool, maxRounds: nat, script: seq<(Reply, Env)>, k: nat)
    requires row.open && CardOk(NewFlow(resumed, row.card.pr), row.card)
    requires k <= |Drive(NewFlow(resumed, row.card.pr), [], maxRounds, script).1|
    ensures
      var log := Drive(NewFlow(resumed, row.card.pr), [], maxRounds, script).1;
      var left := ApplyAll(row.card, log[..k]);
      var after := Reconciled(row.(card := left), true);
      && after.card.pr == left.pr
      && (if Halted(left) then after.card == left else MatchesPr(after.card))
      && Reconciled(after, true) == after
  {
    var f := NewFlow(resumed, row.card.pr);
    var log := Drive(f, [], maxRounds, script).1;
    assert FlowOk(f, maxRounds);
    DriveCard(f, [], maxRounds, script, row.card);
    LegitPrefix(row.card, log, k);
    SettleLegit(row.(card := ApplyAll(row.card, log[..k])));
    SettleOnce(row.(card := ApplyAll(row.card, log[..k])));
  }
}

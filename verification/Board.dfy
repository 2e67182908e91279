/** The part of GitHub the conductor decides on: a ticket's labels and the state of its latest PR. */
module Board {

  datatype Label =
    | Queued | InProgress | InReview | Integrated
    | FailedIssue | FailedSystemic | Blocked
    | HitlArch | Other

  /** The labels that say where a ticket is. A ticket is meant to carry exactly one of them. */
  const STATES: set<Label> := {Queued, InProgress, InReview, Integrated, FailedIssue, FailedSystemic, Blocked}
  const HALTED: set<Label> := {FailedIssue, FailedSystemic, Blocked}
  const LEFT_BY_A_RUN: set<Label> := {InProgress, InReview}

  datatype PrState = NoPr | Open | Merged | Closed

  datatype Card = Card(labels: set<Label>, pr: PrState)

  /** A commit of the repository. */
  type Commit = nat

  /** What a ticket flow did, in order: to the board, to git, or learned from a job. */
  datatype Effect =
    | Labelled(add: set<Label>, remove: set<Label>)
    | BranchDeleted
    | PrCreated
    | Wrote(commit: Commit)
    | Verified(commit: Commit)
    | Pushed(commit: Commit)
    | GatePassed(commit: Commit)
    | MergeCalled(pin: Commit, landed: bool, seen: bool)

  function Apply(card: Card, e: Effect): Card {
    match e
    case Labelled(add, remove) => card.(labels := (card.labels - remove) + add)
    case PrCreated => card.(pr := Open)
    case MergeCalled(_, landed, _) => if landed then card.(pr := Merged) else card
    case _ => card
  }

  function ApplyAll(card: Card, es: seq<Effect>): Card
    decreases |es|
  {
    if es == [] then card else ApplyAll(Apply(card, es[0]), es[1..])
  }

  lemma {:induction false} ApplyAllAppend(card: Card, a: seq<Effect>, b: seq<Effect>)
    ensures ApplyAll(card, a + b) == ApplyAll(ApplyAll(card, a), b)
    decreases |a|
  {
    if a == [] {
      assert a + b == b;
    } else {
      assert (a + b)[1..] == a[1..] + b;
      ApplyAllAppend(Apply(card, a[0]), a[1..], b);
    }
  }

  /** Exactly one state label, namely `l`. */
  predicate In(card: Card, l: Label) {
    card.labels * STATES == {l}
  }

  predicate OneState(card: Card) {
    exists l | l in STATES :: In(card, l)
  }

  /** What a conductor may leave behind, at any instant: one state label, and one that fits the PR. */
  predicate Legit(card: Card) {
    || (In(card, Queued) && card.pr in {NoPr, Closed})
    || (In(card, InProgress) && card.pr in {NoPr, Closed, Open})
    || (In(card, InReview) && card.pr in {Open, Merged})
    || (In(card, Integrated) && card.pr == Merged)
    || In(card, FailedIssue) || In(card, FailedSystemic) || In(card, Blocked)
  }

  /** Every instant of a sequence of effects is legit, the start and the end included. */
  predicate AlwaysLegit(card: Card, es: seq<Effect>)
    decreases |es|
  {
    Legit(card) && (es != [] ==> AlwaysLegit(Apply(card, es[0]), es[1..]))
  }

  lemma {:induction false} AlwaysLegitAppend(card: Card, a: seq<Effect>, b: seq<Effect>)
    requires AlwaysLegit(card, a) && AlwaysLegit(ApplyAll(card, a), b)
    ensures AlwaysLegit(card, a + b)
    decreases |a|
  {
    if a == [] {
      assert a + b == b;
    } else {
      assert (a + b)[1..] == a[1..] + b;
      AlwaysLegitAppend(Apply(card, a[0]), a[1..], b);
    }
  }

  /** So every prefix, i.e. every instant a run can die at, leaves a legit card. */
  lemma {:induction false} LegitPrefix(card: Card, es: seq<Effect>, k: nat)
    requires k <= |es| && AlwaysLegit(card, es)
    ensures Legit(ApplyAll(card, es[..k]))
    decreases k
  {
    if k == 0 {
    } else {
      LegitPrefix(Apply(card, es[0]), es[1..], k - 1);
      assert es[..k][1..] == es[1..][..k - 1];
    }
  }

  /** One label write moves a card from one state label to another. */
  lemma Relabel(card: Card, from: Label, to: Label, remove: set<Label>)
    requires In(card, from) && to in STATES && (from in remove || from == to)
    ensures In(Apply(card, Labelled({to}, remove)), to)
  {
    var after := Apply(card, Labelled({to}, remove));
    assert after.labels * STATES == (card.labels * STATES - remove) + {to};
  }
}

/** What a run leaves on the board, however it ended. */
module Recovery {
  import opened Wrappers
  import opened Board
  import opened TicketFlow
  import opened TicketFlowProofs
  import opened IntegrationCheck
  import opened Scheduler
  import opened SchedulerInvariant
  import opened SchedulerActions
  import opened Frontier
  import opened FrontierTheorems
  import opened FrontierProgress
  import opened FrontierEngine
  import Reconcile

  lemma EndPlaced(cfg: Config, s: State, t: nat)
    requires InvEnd(cfg, s) && t in s.running
    ensures t in s.world.cards && CardOk(s.running[t], s.world.cards[t]) && !s.running[t].at.Ended?
    ensures s.status != Crashed ==> !s.running[t].at.Created?
  {
    if Inv(cfg, s, None) {
      assert FlowPlaced(cfg, s, None, t);
    } else {
      var n :| Inv(cfg, s, Some(n));
      assert FlowPlaced(cfg, s, Some(n), t);
    }
  }

  /** An immediate stop, and only that, gives every ticket in flight back: in review with an open PR, queued
      without one, untouched if its PR is unreadable; never failed, and nothing else on the board moves. */
  lemma StopGivesBack(cfg: Config, s: State, readable: nat -> bool, t: nat)
    requires InvEnd(cfg, s) && s.status != Crashed && t in s.world.cards
    ensures !s.immediate ==> Abandon(s, readable) == s
    ensures s.immediate ==>
      var before, after := s.world.cards[t], Abandon(s, readable).world.cards[t];
      && after.pr == before.pr
      && (t !in s.running || !readable(t) ==> after == before)
      && (t in s.running && readable(t) ==> In(after, if before.pr == Open then InReview else Queued))
      && (t in s.running ==> !Reconcile.Halted(after))
  {
    if s.immediate && t in s.running {
      EndPlaced(cfg, s, t);
      ParkCardOk(s.running[t], s.world.cards[t], readable(t));
      NotHalted(s.running[t], s.world.cards[t]);
      NotHaltedIn(Abandon(s, readable).world.cards[t]);
    }
  }

  lemma NotHalted(f: Flow, card: Card)
    requires CardOk(f, card) && !f.at.Ended?
    ensures !Reconcile.Halted(card)
  {
    var l :=
      if f.at.Created? then (if f.resumed then InReview else Queued)
      else if f.hasPr then InReview else InProgress;
    Reconcile.HasOnly(card, l);
  }

  lemma NotHaltedIn(card: Card)
    ensures In(card, InReview) || In(card, Queued) ==> !Reconcile.Halted(card)
  {
    if In(card, InReview) {
      Reconcile.HasOnly(card, InReview);
    } else if In(card, Queued) {
      Reconcile.HasOnly(card, Queued);
    }
  }

  lemma AbandonedLegit(cfg: Config, s: State, readable: nat -> bool, t: nat)
    requires InvEnd(cfg, s) && t in s.world.cards && (s.status == Crashed ==> !s.immediate)
    ensures
      var card := Abandon(s, readable).world.cards[t];
      (Legit(card) || Untracked(card)) && card.pr == s.world.cards[t].pr
  {
    hide Inv;
    EndIsGreen(cfg, s);
    if t in s.running && s.immediate {
      EndPlaced(cfg, s, t);
      ParkCardOk(s.running[t], s.world.cards[t], readable(t));
    }
  }

  lemma {:induction false} NoCrashWhileStopping(cfg: Config, s: State, inputs: seq<Input>)
    requires Inv(cfg, s, None) && s.status == Looping
    ensures Run(cfg, s, inputs).status == Crashed ==> !Run(cfg, s, inputs).immediate
    decreases |inputs|
  {
    hide Inv, InvEnd, Pass;
    if inputs == [] {
    } else {
      PassCrash(cfg, s, inputs[0]);
      var s' := Pass(cfg, s, inputs[0]);
      if s'.status == Looping {
        NoCrashWhileStopping(cfg, s', inputs[1..]);
      }
    }
  }

  lemma PassCrash(cfg: Config, s: State, input: Input)
    requires Inv(cfg, s, None) && s.status == Looping
    ensures Pass(cfg, s, input).status == Crashed ==> !Pass(cfg, s, input).immediate
  {
    hide Inv, Prepare, Deliver;
    PrepareLimit(cfg, s, input);
    PrepareEnds(cfg, s, input);
    var r := Prepare(cfg, s, input);
    if r.status == Looping {
      DeliverCrash(cfg, r, input);
    }
  }

  lemma PrepareEnds(cfg: Config, s: State, input: Input)
    requires Inv(cfg, s, None) && s.status == Looping
    ensures Prepare(cfg, s, input).status in {Looping, Returned}
  {
    hide Inv, Release, GiveBack, CheckIfDue, FillSlots;
    PollKeeps(cfg, s, input.stop);
  }

  lemma DeliverCrash(cfg: Config, s: State, input: Input)
    requires Inv(cfg, s, None) && s.status == Looping && !s.immediate
    ensures Deliver(cfg, s, input).status == Crashed ==> !Deliver(cfg, s, input).immediate
  {
    hide Inv, Resume, ResumeCheck, Absorb, AbsorbCheck, ParkCard, Without, IsLimited;
  }

  lemma CrashedRun(cfg: Config, w: World, inputs: seq<Input>)
    requires WorldOk(cfg, w)
    ensures RunOf(cfg, w, inputs).status == Crashed ==> !RunOf(cfg, w, inputs).immediate
  {
    BeginOk(cfg, w);
    hide Inv, Run, Begin, InvEnd;
    BeginsLooping(cfg, w);
    NoCrashWhileStopping(cfg, Begin(cfg, w), inputs);
  }

  /** However a run ends (return, usage limit, exception, or killed between two passes), reconciling its
      board puts every tracked ticket where its PR says, except the ones left for a human. */
  lemma RunThenReconcile(cfg: Config, w: World, inputs: seq<Input>, readable: nat -> bool, t: nat, repo: string)
    requires WorldOk(cfg, w) && t in RunOf(cfg, w, inputs).world.cards
    ensures t in Abandon(RunOf(cfg, w, inputs), readable).world.cards
    ensures
      var card := Abandon(RunOf(cfg, w, inputs), readable).world.cards[t];
      var after := Reconcile.Reconciled(Reconcile.Row(t, repo, true, card), true).card;
      || Untracked(card)
      || (after.pr == card.pr && if Reconcile.Halted(card) then after == card else Reconcile.MatchesPr(after))
  {
    CrashedRun(cfg, w, inputs);
    hide RunOf, InvEnd, ParkCard, Legit, Reconcile.MatchesPr, Reconcile.Halted, Reconcile.Settle;
    AbandonedLegit(cfg, RunOf(cfg, w, inputs), readable, t);
    var card := Abandon(RunOf(cfg, w, inputs), readable).world.cards[t];
    if Legit(card) {
      Reconcile.SettleLegit(Reconcile.Row(t, repo, true, card));
    }
  }
}

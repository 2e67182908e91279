/** What every end of the final stage says, by the text of its sessions and the calls that failed; and what
    a merge then rests on. */
module FinalMeaning {
  import opened Wrappers
  import opened Markers
  import opened FinalReview

  ghost predicate JudgedAs(a: RoundAnswers, v: Verdict) {
    (v == Pass <==> ReviewSays(a, PASS_LINE, FAIL_LINE)) && (v == Fail <==> ReviewSays(a, FAIL_LINE, PASS_LINE))
  }

  /** The reviews as their sessions judged them, the first of the head as it was read, each later one of the
      commit that the fix round before it put on the branch. */
  ghost predicate Told(answers: nat -> RoundAnswers, h: History) {
    && (forall k | 0 <= k < |h.reviews| :: JudgedAs(answers(k + 1), h.reviews[k].verdict))
    && (|h.reviews| > 0 ==> answers(1).headRead == Some(h.reviews[0].head))
    && (forall k | 0 < k < |h.reviews| :: FixLands(answers(k).fix) && h.reviews[k].head == answers(k).fix.commit)
  }

  predicate LastIs(h: History, v: Verdict) {
    |h.reviews| > 0 && h.reviews[|h.reviews| - 1].verdict == v
  }

  ghost predicate ReviewLimited(a: RoundAnswers) {
    (if Retried(a) then a.second else a.first).usageLimit
  }

  /** Before a review: as many fix rounds as reviews, the last of them on the branch. */
  ghost predicate Going(answers: nat -> RoundAnswers, pushed: Sha, h: History) {
    && Told(answers, h) && |h.reviews| == |h.fixes| && h.merge.None?
    && (if h.fixes == [] then pushed == ""
        else LastIs(h, Fail) && FixLands(answers(|h.fixes|).fix) && pushed == answers(|h.fixes|).fix.commit)
  }

  /** What an end of the rounds says. */
  ghost predicate Because(maxRounds: nat, answers: nat -> RoundAnswers, end: FinalEnd, h: History) {
    var n := |h.reviews|;
    match end
    case Escaped =>
      || (n == |h.fixes| && ((n == 0 && answers(1).headRead.None?) || !answers(n + 1).reviewTreeOk))
      || (n == |h.fixes| + 1 && LastIs(h, Fail) && !answers(n).fix.treeOk)
    case HeadNeverReported =>
      n == |h.fixes| && n > 0 && !Reported(answers(n + 1).waitHeads, answers(n).fix.commit, ATTEMPTS)
    case HeadUnknown => n == |h.fixes| == 0 && answers(1).headRead.Some? && !IsSha(answers(1).headRead.value)
    case LimitHit =>
      n == |h.fixes| && (ReviewLimited(answers(n + 1)) ||
                         (LastIs(h, Fail) && answers(n).fix.treeOk && answers(n).fix.session.usageLimit))
    case NeverJudged => n == |h.fixes| + 1 && LastIs(h, Unparsable)
    case StillFailing => n == |h.fixes| + 1 == maxRounds + 1 && LastIs(h, Fail)
    case FixEnded(status) =>
      && n == |h.fixes| && LastIs(h, Fail) && answers(n).fix.treeOk && !answers(n).fix.session.usageLimit
      && !FixLands(answers(n).fix) && status in {FixBlocked, FixFailed}
      && (status == FixBlocked <==> Reports(answers(n).fix.session, BLOCKED_LINE, DONE_LINE))
    case Passed(head) => n == |h.fixes| + 1 && LastIs(h, Pass) && h.reviews[n - 1].head == head
    case _ => false
  }

  lemma NextReviewTold(answers: nat -> RoundAnswers, pushed: Sha, h: History, review: Review)
    requires Going(answers, pushed, h) && JudgedAs(answers(|h.fixes| + 1), review.verdict)
    requires HeadToReview(answers(|h.fixes| + 1), pushed) == Some(review.head)
    ensures Told(answers, h.(reviews := h.reviews + [review]))
  {
    hide JudgedAs, FixLands, IsSha;
    var g := h.(reviews := h.reviews + [review]);
    forall k | 0 < k < |g.reviews|
      ensures FixLands(answers(k).fix) && g.reviews[k].head == answers(k).fix.commit
    {
      if k == |h.reviews| {
        LandsNamed(answers(k).fix);
      }
    }
  }

  lemma LandsNamed(a: FixAnswers)
    ensures FixLands(a) ==> a.commit != "" && IsSha(a.commit)
  {
    hide Reports;
  }

  lemma FixOnRecord(answers: nat -> RoundAnswers, g: History, acts: seq<FixAct>)
    requires Told(answers, g)
    ensures Told(answers, g.(fixes := g.fixes + [acts]))
  {
    hide JudgedAs, FixLands;
  }

  lemma FixGoesOn(answers: nat -> RoundAnswers, g: History, acts: seq<FixAct>)
    requires Told(answers, g) && |g.reviews| == |g.fixes| + 1 && LastIs(g, Fail) && g.merge.None?
    requires FixLands(answers(|g.reviews|).fix)
    ensures Going(answers, answers(|g.reviews|).fix.commit, g.(fixes := g.fixes + [acts]))
  {
    FixOnRecord(answers, g, acts);
    hide Told, FixLands;
  }

  lemma FixNotBegun(maxRounds: nat, answers: nat -> RoundAnswers, g: History)
    requires |g.reviews| == |g.fixes| + 1 && LastIs(g, Fail) && !answers(|g.reviews|).fix.treeOk
    ensures Because(maxRounds, answers, Escaped, g)
  {
    hide LastIs;
  }

  lemma FixStopped(maxRounds: nat, answers: nat -> RoundAnswers, g: History, status: FixStatus, acts: seq<FixAct>)
    requires |g.reviews| == |g.fixes| + 1 && LastIs(g, Fail) && answers(|g.reviews|).fix.treeOk
    requires !answers(|g.reviews|).fix.session.usageLimit && !FixLands(answers(|g.reviews|).fix)
    requires status in {FixBlocked, FixFailed}
    requires status == FixBlocked <==> Reports(answers(|g.reviews|).fix.session, BLOCKED_LINE, DONE_LINE)
    ensures Because(maxRounds, answers, FixEnded(status), g.(fixes := g.fixes + [acts]))
  {
    hide FixLands, Reports;
  }

  lemma FixLimit(maxRounds: nat, answers: nat -> RoundAnswers, g: History, acts: seq<FixAct>)
    requires |g.reviews| == |g.fixes| + 1 && LastIs(g, Fail)
    requires answers(|g.reviews|).fix.treeOk && answers(|g.reviews|).fix.session.usageLimit
    ensures Because(maxRounds, answers, LimitHit, g.(fixes := g.fixes + [acts]))
  {
    hide ReviewLimited;
  }

  lemma FixKinds(a: FixAnswers)
    ensures
      var (status, commit, acts) := FixRound(a);
      && (status == Fixed ==> FixLands(a) && commit == a.commit)
      && (status == FixRaised ==> !a.treeOk)
      && (status == FixLimited ==> a.treeOk && a.session.usageLimit)
      && (status in {FixBlocked, FixFailed} ==>
            && a.treeOk && !a.session.usageLimit && !FixLands(a)
            && (status == FixBlocked <==> Reports(a.session, BLOCKED_LINE, DONE_LINE)))
  {
    FixRoundMeaning(a);
    hide FixRound, FixLands, Reports;
  }

  /** The fix round after a FAIL. */
  lemma FixTells(maxRounds: nat, answers: nat -> RoundAnswers, g: History)
    requires Told(answers, g) && |g.reviews| == |g.fixes| + 1 && LastIs(g, Fail) && g.merge.None?
    ensures
      var (status, commit, acts) := FixRound(answers(|g.reviews|).fix);
      var f := g.(fixes := g.fixes + [acts]);
      && Told(answers, f)
      && (status == FixRaised ==> Because(maxRounds, answers, Escaped, g))
      && (status == FixLimited ==> Because(maxRounds, answers, LimitHit, f))
      && (status == Fixed ==> Going(answers, commit, f))
      && (status in {FixBlocked, FixFailed} ==> Because(maxRounds, answers, FixEnded(status), f))
  {
    hide FixRound, FixLands, Reports, Told, Because, Going, LastIs;
    var a := answers(|g.reviews|).fix;
    var (status, commit, acts) := FixRound(a);
    FixKinds(a);
    FixOnRecord(answers, g, acts);
    match status
    case Fixed => FixGoesOn(answers, g, acts);
    case FixRaised => FixNotBegun(maxRounds, answers, g);
    case FixLimited => FixLimit(maxRounds, answers, g, acts);
    case _ => FixStopped(maxRounds, answers, g, status, acts);
  }

  /** The rounds from a review on. */
  lemma {:induction false} RoundsTell(maxRounds: nat, answers: nat -> RoundAnswers, prev: Sha, saved: Saved,
                                       pushed: Sha, h: History)
    requires Going(answers, pushed, h) && |h.fixes| <= maxRounds
    ensures
      var (end, g) := Rounds(maxRounds, answers, prev, saved, pushed, h);
      Told(answers, g) && Because(maxRounds, answers, end, g) && g.merge.None?
    decreases maxRounds - |h.fixes|
  {
    hide IsSha, ReviewOf, FixRound, ResolveScope, Reported, Going, Told, Because, FixLands, JudgedAs, LastIs;
    var a := answers(|h.fixes| + 1);
    var (end, last) := Rounds(maxRounds, answers, prev, saved, pushed, h);
    if !CanReview(answers, pushed, h) {
      NoReviewTells(maxRounds, answers, prev, saved, pushed, h);
    } else if ReviewOf(a).0.usageLimit {
      LimitTells(maxRounds, answers, pushed, h);
    } else {
      var review := NewReview(answers, prev, saved, pushed, h);
      var g := h.(reviews := h.reviews + [review]);
      ReviewTells(answers, prev, saved, pushed, h);
      if review.verdict != Fail || |h.fixes| >= maxRounds {
        ReviewEnds(maxRounds, answers, g, review, end);
      } else {
        FixTells(maxRounds, answers, g);
        var (status, commit, acts) := FixRound(a.fix);
        if status == Fixed {
          RoundsTell(maxRounds, answers, review.head, a.saved, commit, g.(fixes := g.fixes + [acts]));
        } else {
          assert status in {FixRaised, FixLimited, FixBlocked, FixFailed};
        }
      }
    }
  }

  lemma GoingTold(answers: nat -> RoundAnswers, pushed: Sha, h: History)
    requires Going(answers, pushed, h)
    ensures Told(answers, h) && |h.reviews| == |h.fixes| && h.merge.None?
  {
  }

  lemma NoReviewTells(maxRounds: nat, answers: nat -> RoundAnswers, prev: Sha, saved: Saved, pushed: Sha, h: History)
    requires Going(answers, pushed, h) && |h.fixes| <= maxRounds && !CanReview(answers, pushed, h)
    ensures
      var (end, g) := Rounds(maxRounds, answers, prev, saved, pushed, h);
      g == h && Told(answers, h) && Because(maxRounds, answers, end, h) && h.merge.None?
  {
    GoingTold(answers, pushed, h);
    RoundsUnread(maxRounds, answers, prev, saved, pushed, h);
    GoingHead(answers, pushed, h);
    hide Rounds, IsSha, Reported, Told, Because, Going, CanReview;
    if h.fixes == [] {
      FirstHead(maxRounds, answers, h);
    } else {
      LaterHead(maxRounds, answers, h);
    }
  }

  lemma GoingHead(answers: nat -> RoundAnswers, pushed: Sha, h: History)
    requires Going(answers, pushed, h)
    ensures if h.fixes == [] then pushed == ""
            else pushed != "" && pushed == answers(|h.fixes|).fix.commit && IsSha(pushed)
  {
    hide IsSha, FixLands, Told;
    LandsNamed(answers(|h.fixes|).fix);
  }

  lemma RoundsUnread(maxRounds: nat, answers: nat -> RoundAnswers, prev: Sha, saved: Saved, pushed: Sha, h: History)
    requires |h.fixes| <= maxRounds && !CanReview(answers, pushed, h)
    ensures
      var a := answers(|h.fixes| + 1);
      Rounds(maxRounds, answers, prev, saved, pushed, h) ==
        (if pushed != "" && !Reported(a.waitHeads, pushed, ATTEMPTS) then HeadNeverReported
         else if HeadToReview(a, pushed).Some? && !IsSha(HeadToReview(a, pushed).value) then HeadUnknown
         else Escaped, h)
    ensures
      var a := answers(|h.fixes| + 1);
      var head := HeadToReview(a, pushed);
      (pushed == "" || Reported(a.waitHeads, pushed, ATTEMPTS)) && (head.None? || IsSha(head.value)) ==>
        head.None? || !a.reviewTreeOk
  {
    hide IsSha, Reported, ReviewOf, FixRound, ResolveScope;
  }

  lemma FirstHead(maxRounds: nat, answers: nat -> RoundAnswers, h: History)
    requires |h.reviews| == |h.fixes| == 0
    ensures answers(1).headRead.None? || !answers(1).reviewTreeOk ==> Because(maxRounds, answers, Escaped, h)
    ensures answers(1).headRead.Some? && !IsSha(answers(1).headRead.value) ==>
      Because(maxRounds, answers, HeadUnknown, h)
  {
    hide IsSha;
  }

  lemma LaterHead(maxRounds: nat, answers: nat -> RoundAnswers, h: History)
    requires |h.reviews| == |h.fixes| > 0
    ensures !answers(|h.fixes| + 1).reviewTreeOk ==> Because(maxRounds, answers, Escaped, h)
    ensures !Reported(answers(|h.fixes| + 1).waitHeads, answers(|h.fixes|).fix.commit, ATTEMPTS) ==>
      Because(maxRounds, answers, HeadNeverReported, h)
  {
    hide Reported;
  }

  lemma LimitTells(maxRounds: nat, answers: nat -> RoundAnswers, pushed: Sha, h: History)
    requires Going(answers, pushed, h) && ReviewOf(answers(|h.fixes| + 1)).0.usageLimit
    ensures Told(answers, h) && Because(maxRounds, answers, LimitHit, h) && h.merge.None?
  {
    ReviewMeaning(answers(|h.fixes| + 1));
    hide ReviewOf, Told, FixLands, LastIs, Retried;
  }

  lemma ReviewTells(answers: nat -> RoundAnswers, prev: Sha, saved: Saved, pushed: Sha, h: History)
    requires Going(answers, pushed, h) && CanReview(answers, pushed, h)
    ensures
      var review := NewReview(answers, prev, saved, pushed, h);
      var g := h.(reviews := h.reviews + [review]);
      && Told(answers, g) && |g.reviews| == |g.fixes| + 1 && g.merge.None? && LastIs(g, review.verdict)
  {
    ReviewMeaning(answers(|h.fixes| + 1));
    CanReviewHead(answers, prev, saved, pushed, h);
    GoingTold(answers, pushed, h);
    hide ReviewOf, Told, ReviewSays, Retried, Going, CanReview, NewReview, HeadToReview;
    NextReviewTold(answers, pushed, h, NewReview(answers, prev, saved, pushed, h));
  }

  lemma CanReviewHead(answers: nat -> RoundAnswers, prev: Sha, saved: Saved, pushed: Sha, h: History)
    requires CanReview(answers, pushed, h)
    ensures
      var a, review := answers(|h.fixes| + 1), NewReview(answers, prev, saved, pushed, h);
      HeadToReview(a, pushed) == Some(review.head) && review.verdict == ReviewOf(a).1
  {
    hide IsSha, Reported, ReviewOf, ResolveScope;
  }

  lemma ReviewEnds(maxRounds: nat, answers: nat -> RoundAnswers, g: History, review: Review, end: FinalEnd)
    requires |g.reviews| == |g.fixes| + 1 && g.reviews[|g.reviews| - 1] == review && |g.fixes| <= maxRounds
    requires
      end == if review.verdict == Unparsable then NeverJudged
             else if review.verdict == Pass then Passed(review.head) else StillFailing
    requires review.verdict == Fail ==> |g.fixes| >= maxRounds
    ensures Because(maxRounds, answers, end, g)
  {
    hide Reported, FixLands, ReviewLimited, Reports, IsSha;
  }

  // The whole stage.

  /** A merge without a human may be asked for: see `MergeNeedsProof`. */
  predicate MayMerge(cfg: Settings, c: Closing) {
    && c.hitl == Some(false)
    && (cfg.autonomy == RespectHitlArch || (cfg.autonomy == Yolo && InsideAllowlist(cfg.allowlist, c.changed)))
  }

  lemma MayMergeMeaning(cfg: Settings, c: Closing)
    ensures MayMerge(cfg, c) <==>
      DecideMerge(cfg.autonomy, c.hitl, cfg.allowlist, if cfg.autonomy == Yolo then c.changed else None)
  {
    MergeNeedsProof(cfg.autonomy, c.hitl, cfg.allowlist, if cfg.autonomy == Yolo then c.changed else None);
    hide DecideMerge, Allowed;
  }

  /** Every end of the stage. After a PASS: the head could not be read, it moved, the mode withholds, or the
      squash merge of that head was asked for and the forge took it or not. */
  ghost predicate EndsBecause(cfg: Settings, answers: nat -> RoundAnswers, c: Closing, end: FinalEnd, h: History) {
    match end
    case FinalMerged => Asked(cfg, c, h) && c.mergeOk
    case MergeRefused => Asked(cfg, c, h) && !c.mergeOk
    case Withheld => LastIs(h, Pass) && HeadStays(c, h) && !MayMerge(cfg, c) && h.merge.None?
    case HeadMoved => LastIs(h, Pass) && c.headRead.Some? && !HeadStays(c, h) && h.merge.None?
    case Passed(_) => false
    case Escaped =>
      h.merge.None? && ((LastIs(h, Pass) && c.headRead.None?) || Because(cfg.maxRounds, answers, Escaped, h))
    case _ => h.merge.None? && Because(cfg.maxRounds, answers, end, h)
  }

  predicate HeadStays(c: Closing, h: History) {
    |h.reviews| > 0 && c.headRead == Some(h.reviews[|h.reviews| - 1].head)
  }

  predicate Asked(cfg: Settings, c: Closing, h: History) {
    LastIs(h, Pass) && HeadStays(c, h) && MayMerge(cfg, c) && h.merge == Some(h.reviews[|h.reviews| - 1].head)
  }

  /** Every end of the final stage says why, in the words of its sessions; and the reviews on record are as
      those sessions judged: a FAIL stays a FAIL, and only the commit of a fix that said DONE, verified and
      was pushed is reviewed after it. */
  lemma StageTells(cfg: Settings, answers: nat -> RoundAnswers, c: Closing)
    ensures
      var (end, h) := Final(cfg, answers, c);
      Told(answers, h) && EndsBecause(cfg, answers, c, end, h)
  {
    hide Rounds, Because, Close, Told;
    var start := History([], [], None);
    NothingTold(answers);
    RoundsTell(cfg.maxRounds, answers, "", NotSaved, "", start);
    var (end, h) := Rounds(cfg.maxRounds, answers, "", NotSaved, "", start);
    OnlyTheseEnds(cfg.maxRounds, answers, end, h);
    if end.Passed? {
      PassedIsLast(cfg.maxRounds, answers, end, h);
      hide Told;
      CloseTells(cfg, answers, c, h);
      ClosedTold(cfg, answers, c, end.head, h);
    }
  }

  lemma NothingTold(answers: nat -> RoundAnswers)
    ensures Going(answers, "", History([], [], None))
  {
  }

  lemma CloseTells(cfg: Settings, answers: nat -> RoundAnswers, c: Closing, h: History)
    requires LastIs(h, Pass) && h.merge.None?
    ensures
      var (end, g) := Close(cfg, h.reviews[|h.reviews| - 1].head, c, h);
      EndsBecause(cfg, answers, c, end, g)
  {
    MayMergeMeaning(cfg, c);
    hide DecideMerge, MayMerge, Because;
  }

  lemma ClosedTold(cfg: Settings, answers: nat -> RoundAnswers, c: Closing, head: Sha, h: History)
    requires Told(answers, h)
    ensures Told(answers, Close(cfg, head, c, h).1)
  {
    hide DecideMerge, JudgedAs, FixLands;
  }

  lemma OnlyTheseEnds(maxRounds: nat, answers: nat -> RoundAnswers, end: FinalEnd, h: History)
    requires Because(maxRounds, answers, end, h)
    ensures !end.FinalMerged? && !end.MergeRefused? && !end.Withheld? && !end.HeadMoved?
  {
  }

  lemma PassedIsLast(maxRounds: nat, answers: nat -> RoundAnswers, end: FinalEnd, h: History)
    requires Because(maxRounds, answers, end, h) && end.Passed?
    ensures LastIs(h, Pass) && h.reviews[|h.reviews| - 1].head == end.head
  {
  }

  /** Review `k` said FAIL; its fix said DONE, verified and was pushed, and is what was reviewed next. */
  ghost predicate FixedNext(answers: nat -> RoundAnswers, h: History, k: nat) {
    && k + 1 < |h.reviews| && ReviewSays(answers(k + 1), FAIL_LINE, PASS_LINE)
    && FixLands(answers(k + 1).fix) && h.reviews[k + 1].head == answers(k + 1).fix.commit
  }

  /** What is merged: the sessions of the last review said PASS, and each review before it said FAIL and was
      followed by a fix that said DONE and whose commit, verified and pushed, was reviewed next. */
  lemma MergedWasPassed(cfg: Settings, answers: nat -> RoundAnswers, c: Closing)
    requires Final(cfg, answers, c).1.merge.Some?
    ensures
      var h := Final(cfg, answers, c).1;
      var n := |h.reviews|;
      && n > 0 && h.merge.value == h.reviews[n - 1].head && c.headRead == h.merge && MayMerge(cfg, c)
      && ReviewSays(answers(n), PASS_LINE, FAIL_LINE)
      && (forall k: nat | k + 1 < n :: FixedNext(answers, h, k))
  {
    hide Final, Because, MayMerge, ReviewSays, FixLands, Scoped, IsSha, Lands, Reported, DecideMerge;
    StageTells(cfg, answers, c);
    MergeIsCovered(cfg, answers, c);
    var h := Final(cfg, answers, c).1;
    forall k: nat | k + 1 < |h.reviews|
      ensures FixedNext(answers, h, k)
    {
      assert JudgedAs(answers(k + 1), h.reviews[k].verdict) && h.reviews[k].verdict == Fail;
    }
  }

  // What the reviews covered.

  /** Review `k` covers only what the last fix changed exactly if the verdict before it was kept, it starts at
      the commit reviewed then, both commits are known and differ, and git reported the one an ancestor of
      the other. */
  predicate ScopeRight(answers: nat -> RoundAnswers, reviews: seq<Review>, k: nat)
    requires k < |reviews|
  {
    var r := reviews[k];
    && r.prev == (if k == 0 then "" else reviews[k - 1].head)
    && (r.scope == FixDiff <==>
          && k > 0 && answers(k).saved == SavedFile && IsSha(r.prev) && IsSha(r.head) && r.prev != r.head
          && answers(k + 1).ancestry == IsAncestor)
  }

  predicate ScopesRight(answers: nat -> RoundAnswers, reviews: seq<Review>) {
    forall k: nat | k < |reviews| :: ScopeRight(answers, reviews, k)
  }

  lemma NextScope(answers: nat -> RoundAnswers, reviews: seq<Review>, prev: Sha, saved: Saved, review: Review)
    requires ScopesRight(answers, reviews)
    requires prev == (if reviews == [] then "" else reviews[|reviews| - 1].head)
    requires saved == (if reviews == [] then NotSaved else answers(|reviews|).saved)
    requires review.prev == prev
    requires review.scope == ResolveScope(|reviews| + 1, prev, review.head, saved, answers(|reviews| + 1).ancestry)
    ensures ScopesRight(answers, reviews + [review])
  {
    ScopeMeaning(|reviews| + 1, prev, review.head, saved, answers(|reviews| + 1).ancestry);
    hide IsSha, ResolveScope;
    var more := reviews + [review];
    forall k: nat | k < |more|
      ensures ScopeRight(answers, more, k)
    {
      if k < |reviews| {
        assert ScopeRight(answers, reviews, k);
      }
    }
  }

  lemma {:induction false} RoundsScope(maxRounds: nat, answers: nat -> RoundAnswers, prev: Sha, saved: Saved,
                                        pushed: Sha, h: History)
    requires ScopesRight(answers, h.reviews) && |h.reviews| == |h.fixes| <= maxRounds
    requires prev == (if h.reviews == [] then "" else h.reviews[|h.reviews| - 1].head)
    requires saved == (if h.reviews == [] then NotSaved else answers(|h.reviews|).saved)
    ensures ScopesRight(answers, Rounds(maxRounds, answers, prev, saved, pushed, h).1.reviews)
    decreases maxRounds - |h.fixes|
  {
    hide IsSha, ReviewOf, FixRound, ResolveScope, Reported, ScopesRight;
    var a := answers(|h.fixes| + 1);
    if !CanReview(answers, pushed, h) || ReviewOf(a).0.usageLimit {
    } else {
      var review := NewReview(answers, prev, saved, pushed, h);
      NextScope(answers, h.reviews, prev, saved, review);
      var (status, commit, acts) := FixRound(a.fix);
      var next := h.(reviews := h.reviews + [review], fixes := h.fixes + [acts]);
      if review.verdict == Fail && |h.fixes| < maxRounds && status == Fixed {
        RoundsScope(maxRounds, answers, review.head, a.saved, commit, next);
      }
    }
  }

  lemma StageScopes(cfg: Settings, answers: nat -> RoundAnswers, c: Closing)
    ensures ScopesRight(answers, Final(cfg, answers, c).1.reviews)
  {
    hide Rounds, DecideMerge, ScopeRight;
    RoundsScope(cfg.maxRounds, answers, "", NotSaved, "", History([], [], None));
  }
}

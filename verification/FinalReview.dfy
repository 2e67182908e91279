/** The final stage: review the integration branch, fix what a review refuses, merge what it passed. */
module FinalReview {
  import opened Wrappers
  import opened Markers

  type Sha = string

  predicate IsHex(c: char) {
    '0' <= c <= '9' || 'a' <= c <= 'f'
  }

  /** Forty hexadecimal digits. The pattern's `$` also matches before one trailing newline. */
  predicate IsSha(s: Sha) {
    && 40 <= |s| <= 41 && (forall i | 0 <= i < 40 :: IsHex(s[i]))
    && (|s| == 41 ==> s[40] == '\n')
  }

  /** As a shape: forty hexadecimal digits, and perhaps a newline. */
  lemma ShaShape(s: Sha)
    ensures IsSha(s) <==>
      exists digits: string :: |digits| == 40 && (forall c | c in digits :: IsHex(c)) && s in {digits, digits + "\n"}
  {
    if IsSha(s) {
      var digits := s[..40];
      assert s == digits || s == digits + "\n";
    }
    if digits: string :| |digits| == 40 && (forall c | c in digits :: IsHex(c)) && s in {digits, digits + "\n"} {
      assert forall i | 0 <= i < 40 :: s[i] == digits[i];
    }
  }

  // How much a review covers.

  datatype Scope = Full | FixDiff

  /** The last verdict as the conductor kept it: not written, unreadable or empty, or a file to re-read. */
  datatype Saved = NotSaved | SavedEmpty | SavedFile

  /** Whether the reviewed commit is an ancestor of the head, if git can tell. */
  datatype Ancestry = IsAncestor | NotAncestor | Unknown

  function ResolveScope(round: nat, prev: Sha, head: Sha, saved: Saved, ancestry: Ancestry): Scope {
    if round <= 1 || saved == NotSaved then Full
    else if saved == SavedEmpty then Full
    else if !(IsSha(prev) && IsSha(head)) then Full
    else if prev == head then Full
    else if ancestry != IsAncestor then Full
    else FixDiff
  }

  /** The exact condition for a narrow re-review. */
  lemma ScopeMeaning(round: nat, prev: Sha, head: Sha, saved: Saved, ancestry: Ancestry)
    ensures ResolveScope(round, prev, head, saved, ancestry) == FixDiff <==>
      round > 1 && saved == SavedFile && IsSha(prev) && IsSha(head) && prev != head && ancestry == IsAncestor
  {
    hide IsSha;
  }

  // Waiting for a pushed commit.

  const ATTEMPTS: nat := 7

  /** Reads up to `attempts` times for `expected`; a failed read counts as another commit. */
  method WaitForHead(heads: nat -> Option<Sha>, expected: Sha, attempts: nat) returns (seen: bool, pauses: nat)
    ensures seen <==> Reported(heads, expected, attempts)
    ensures pauses < attempts || (attempts == 0 && pauses == 0)
    ensures seen ==> heads(pauses) == Some(expected) && !Reported(heads, expected, pauses)
  {
    pauses := 0;
    for n := 0 to attempts
      invariant !Reported(heads, expected, n)
      invariant pauses == if n == attempts && n > 0 then n - 1 else n
    {
      if heads(n) == Some(expected) {
        return true, pauses;
      }
      if n < attempts - 1 {
        pauses := pauses + 1;
      }
    }
    seen := false;
  }

  predicate Reported(heads: nat -> Option<Sha>, expected: Sha, attempts: nat) {
    exists n | 0 <= n < attempts :: heads(n) == Some(expected)
  }

  // A fix round.

  /** `FixRaised`: the fix worktree could not be added, and the exception escapes. */
  datatype FixStatus = Fixed | FixBlocked | FixFailed | FixLimited | FixRaised

  /** The answers one fix round meets. The session leaves its worktree at `commit`. */
  datatype FixAnswers = FixAnswers(
    treeOk: bool, session: SessionResult, commit: Sha, verifyOk: bool, headOk: bool, pushOk: bool)

  datatype FixAct = FixSession | FixVerified(commit: Sha) | FixPushed(commit: Sha)

  /** The fix is on the branch: the session reported done, its worktree passed verify, the push went through. */
  ghost predicate FixLands(a: FixAnswers) {
    && a.treeOk && Reports(a.session, DONE_LINE, BLOCKED_LINE)
    && a.verifyOk && a.headOk && IsSha(a.commit) && a.pushOk
  }

  method RunFixRound(a: FixAnswers) returns (status: FixStatus, pushed: Sha, acts: seq<FixAct>)
    ensures (status, pushed, acts) == FixRound(a)
  {
    hide OutcomeOf, IsSha;
    if !a.treeOk {
      return FixRaised, "", [];
    }
    pushed, acts := "", [FixSession];
    if a.session.usageLimit {
      return FixLimited, pushed, acts;
    }
    var outcome := OutcomeOf(a.session);
    if outcome == OutcomeBlocked {
      return FixBlocked, pushed, acts;
    }
    if outcome != OutcomeDone {
      return FixFailed, pushed, acts;
    }
    if !a.verifyOk {
      return FixFailed, pushed, acts;
    }
    acts := acts + [FixVerified(a.commit)];
    assert acts == [FixSession, FixVerified(a.commit)];
    if !a.headOk || !IsSha(a.commit) || !a.pushOk {
      return FixFailed, pushed, acts;
    }
    acts := acts + [FixPushed(a.commit)];
    assert acts == [FixSession, FixVerified(a.commit), FixPushed(a.commit)];
    return Fixed, a.commit, acts;
  }

  function FixRound(a: FixAnswers): (FixStatus, Sha, seq<FixAct>) {
    if !a.treeOk then (FixRaised, "", [])
    else if a.session.usageLimit then (FixLimited, "", [FixSession])
    else
      match OutcomeOf(a.session)
      case OutcomeBlocked => (FixBlocked, "", [FixSession])
      case OutcomeUnparsable => (FixFailed, "", [FixSession])
      case OutcomeDone =>
        if !a.verifyOk then (FixFailed, "", [FixSession])
        else if !a.headOk || !IsSha(a.commit) || !a.pushOk then (FixFailed, "", [FixSession, FixVerified(a.commit)])
        else (Fixed, a.commit, [FixSession, FixVerified(a.commit), FixPushed(a.commit)])
  }

  /** A fix round pushes exactly when everything went well, and only a commit that passed verify first; its
      other ends are told apart by the worktree and by what the session wrote. */
  lemma FixRoundMeaning(a: FixAnswers)
    ensures
      var (status, pushed, acts) := FixRound(a);
      && (status == Fixed <==> FixLands(a))
      && (status == FixRaised <==> !a.treeOk)
      && (status == FixLimited <==> a.treeOk && a.session.usageLimit)
      && (status == FixBlocked <==> a.treeOk && Reports(a.session, BLOCKED_LINE, DONE_LINE))
      && (status == Fixed ==> pushed == a.commit && IsSha(pushed))
      && (forall i | 0 <= i < |acts| && acts[i].FixPushed? ::
            status == Fixed && 0 < i && acts[i - 1] == FixVerified(acts[i].commit) && acts[i].commit == pushed)
  {
    hide OutcomeOf, IsSha, Window;
    OutcomeMeaning(a.session);
    LimitSaysNothing(a.session);
  }

  lemma LimitSaysNothing(result: SessionResult)
    ensures result.usageLimit ==>
      OutcomeOf(result) == OutcomeUnparsable && !Reports(result, BLOCKED_LINE, DONE_LINE)
      && !Reports(result, DONE_LINE, BLOCKED_LINE)
  {
    hide ParseOutcome, Window, IsOutcomeLine;
  }

  // Whether a passed pull request is merged without a human.

  datatype Autonomy = HaltEachPr | RespectHitlArch | Yolo | OtherMode

  /** A pattern of the allowlist, as a predicate on paths; None does not compile. */
  type Pattern = Option<string -> bool>

  predicate DecideMerge(autonomy: Autonomy, hitl: Option<bool>, allowlist: seq<Pattern>, changed: Option<seq<string>>) {
    if autonomy == HaltEachPr then false
    else if autonomy == OtherMode then false
    else if hitl.None? then false
    else if hitl.value then false
    else if autonomy == RespectHitlArch then true
    else if allowlist == [] then false
    else if changed.None? || changed.value == [] then false
    else if exists i | 0 <= i < |allowlist| :: allowlist[i].None? then false
    else !exists j | 0 <= j < |changed.value| :: !Allowed(allowlist, changed.value[j])
  }

  predicate Allowed(allowlist: seq<Pattern>, path: string) {
    exists i | 0 <= i < |allowlist| :: allowlist[i].Some? && allowlist[i].value(path)
  }

  predicate InsideAllowlist(allowlist: seq<Pattern>, changed: Option<seq<string>>) {
    && |allowlist| > 0 && (forall i | 0 <= i < |allowlist| :: allowlist[i].Some?)
    && changed.Some? && |changed.value| > 0
    && forall path | path in changed.value :: Allowed(allowlist, path)
  }

  /** Every unknown withholds: a merge needs readable labels without a flag and, in the `yolo` mode,
      a readable, non-empty diff that lies inside a valid, non-empty allowlist. */
  lemma MergeNeedsProof(autonomy: Autonomy, hitl: Option<bool>, allowlist: seq<Pattern>, changed: Option<seq<string>>)
    ensures DecideMerge(autonomy, hitl, allowlist, changed) <==>
      && hitl == Some(false)
      && (autonomy == RespectHitlArch || (autonomy == Yolo && InsideAllowlist(allowlist, changed)))
  {
    hide Allowed;
    if DecideMerge(autonomy, hitl, allowlist, changed) && autonomy == Yolo {
      forall path | path in changed.value
        ensures Allowed(allowlist, path)
      {
        var j :| 0 <= j < |changed.value| && changed.value[j] == path;
      }
    }
  }

  // The whole stage.

  /** How the world answers one round: the pull request's head as read before the first review, the
      reads of the wait for a pushed head, the review's two sessions, and the fix round. */
  datatype RoundAnswers = RoundAnswers(
    headRead: Option<Sha>, waitHeads: nat -> Option<Sha>, ancestry: Ancestry,
    reviewTreeOk: bool, first: SessionResult, second: SessionResult,
    fix: FixAnswers, saved: Saved)

  datatype Closing = Closing(
    headRead: Option<Sha>, changed: Option<seq<string>>, hitl: Option<bool>, mergeOk: bool)

  datatype Settings = Settings(maxRounds: nat, autonomy: Autonomy, allowlist: seq<Pattern>)

  datatype Review = Review(scope: Scope, prev: Sha, head: Sha, verdict: Verdict)

  /** What the stage did: its reviews, its fix rounds, and the commit it asked to merge. */
  datatype History = History(reviews: seq<Review>, fixes: seq<seq<FixAct>>, merge: Option<Sha>)

  datatype FinalEnd =
    | Escaped
    | HeadNeverReported
    | HeadUnknown
    | LimitHit
    | NeverJudged
    | StillFailing
    | FixEnded(status: FixStatus)
    | Passed(head: Sha)
    | HeadMoved
    | Withheld
    | MergeRefused
    | FinalMerged

  /** The review that counts: the second one, if the first is unparsable and hit no limit. */
  function ReviewOf(a: RoundAnswers): (SessionResult, Verdict) {
    if VerdictOf(a.first) != Unparsable || a.first.usageLimit then (a.first, VerdictOf(a.first))
    else (a.second, VerdictOf(a.second))
  }

  /** A second session is run exactly if the first hit no limit and said neither PASS nor FAIL. */
  ghost predicate Retried(a: RoundAnswers) {
    && !a.first.usageLimit
    && !Judges(a.first, PASS_LINE, FAIL_LINE) && !Judges(a.first, FAIL_LINE, PASS_LINE)
  }

  /** The review says PASS (or, with the markers swapped, FAIL), by the text of its sessions. */
  ghost predicate ReviewSays(a: RoundAnswers, marker: string, other: string) {
    Judges(a.first, marker, other) || (Retried(a) && Judges(a.second, marker, other))
  }

  /** A FAIL is never reviewed again, and neither is a PASS or a limited session. */
  lemma ReviewMeaning(a: RoundAnswers)
    ensures
      var (result, verdict) := ReviewOf(a);
      && result == (if Retried(a) then a.second else a.first)
      && (verdict == Pass <==> ReviewSays(a, PASS_LINE, FAIL_LINE))
      && (verdict == Fail <==> ReviewSays(a, FAIL_LINE, PASS_LINE))
  {
    VerdictMeaning(a.first);
    VerdictMeaning(a.second);
    hide VerdictOf, Judges;
  }

  method ReviewTwice(a: RoundAnswers) returns (result: SessionResult, verdict: Verdict)
    ensures (result, verdict) == ReviewOf(a)
    ensures result == if VerdictOf(a.first) == Unparsable && !a.first.usageLimit then a.second else a.first
    ensures verdict == VerdictOf(result)
  {
    hide VerdictOf;
    result, verdict := a.first, Unparsable;
    for attempt := 0 to 2
      invariant attempt == 1 ==> VerdictOf(a.first) == Unparsable && !a.first.usageLimit
      invariant attempt == 2 ==> (result, verdict) == ReviewOf(a)
    {
      result := if attempt == 0 then a.first else a.second;
      verdict := VerdictOf(result);
      if verdict != Unparsable || result.usageLimit {
        break;
      }
    }
  }

  /** What the round reviews: a pushed fix if there is one, else the head as it was read. */
  function HeadToReview(a: RoundAnswers, pushed: Sha): Option<Sha> {
    if pushed != "" then Some(pushed) else a.headRead
  }

  /** The review rounds from round `|fixes| + 1` on. */
  function Rounds(maxRounds: nat, answers: nat -> RoundAnswers, prev: Sha, saved: Saved, pushed: Sha, h: History)
    : (FinalEnd, History)
    requires |h.fixes| <= maxRounds
    decreases maxRounds - |h.fixes|
  {
    var round := |h.fixes| + 1;
    var a := answers(round);
    if pushed != "" && !Reported(a.waitHeads, pushed, ATTEMPTS) then (HeadNeverReported, h)
    else if HeadToReview(a, pushed).None? then (Escaped, h)
    else
      var head := HeadToReview(a, pushed).value;
      if !IsSha(head) then (HeadUnknown, h)
      else if !a.reviewTreeOk then (Escaped, h)
      else
        var (result, verdict) := ReviewOf(a);
        var scope := ResolveScope(round, prev, head, saved, a.ancestry);
        var g := h.(reviews := h.reviews + [Review(scope, prev, head, verdict)]);
        if result.usageLimit then (LimitHit, h)
        else if verdict == Unparsable then (NeverJudged, g)
        else if verdict == Pass then (Passed(head), g)
        else if |h.fixes| >= maxRounds then (StillFailing, g)
        else
          var (status, commit, acts) := FixRound(a.fix);
          var f := g.(fixes := g.fixes + [acts]);
          if status == FixRaised then (Escaped, g)
          else if status == FixLimited then (LimitHit, f)
          else if status != Fixed then (FixEnded(status), f)
          else Rounds(maxRounds, answers, head, a.saved, commit, f)
  }

  /** After a PASS: the head must still be the reviewed one; then the mode decides. */
  function Close(cfg: Settings, head: Sha, c: Closing, h: History): (FinalEnd, History) {
    if c.headRead.None? then (Escaped, h)
    else if c.headRead.value != head then (HeadMoved, h)
    else if !DecideMerge(cfg.autonomy, c.hitl, cfg.allowlist, if cfg.autonomy == Yolo then c.changed else None) then
      (Withheld, h)
    else (if c.mergeOk then FinalMerged else MergeRefused, h.(merge := Some(head)))
  }

  function Final(cfg: Settings, answers: nat -> RoundAnswers, c: Closing): (FinalEnd, History) {
    var (end, h) := Rounds(cfg.maxRounds, answers, "", NotSaved, "", History([], [], None));
    if end.Passed? then Close(cfg, end.head, c, h) else (end, h)
  }

  method RunFinal(cfg: Settings, answers: nat -> RoundAnswers, c: Closing) returns (end: FinalEnd, h: History)
    ensures (end, h) == Final(cfg, answers, c)
  {
    hide IsSha, ReviewOf, FixRound, ResolveScope, DecideMerge, Reported;
    h := History([], [], None);
    var fixes, prev, saved, pushed := 0, "", NotSaved, "";
    var head := "";
    while true
      invariant fixes == |h.fixes| <= cfg.maxRounds
      invariant Rounds(cfg.maxRounds, answers, prev, saved, pushed, h)
             == Rounds(cfg.maxRounds, answers, "", NotSaved, "", History([], [], None))
      decreases cfg.maxRounds - fixes
    {
      var a := answers(fixes + 1);
      if pushed != "" {
        var seen, _ := WaitForHead(a.waitHeads, pushed, ATTEMPTS);
        if !seen {
          return HeadNeverReported, h;
        }
        head := pushed;
      } else {
        if a.headRead.None? {
          return Escaped, h;
        }
        head := a.headRead.value;
      }
      if !IsSha(head) {
        return HeadUnknown, h;
      }
      var scope := ResolveScope(fixes + 1, prev, head, saved, a.ancestry);
      if !a.reviewTreeOk {
        return Escaped, h;
      }
      var result, verdict := ReviewTwice(a);
      if result.usageLimit {
        return LimitHit, h;
      }
      h := h.(reviews := h.reviews + [Review(scope, prev, head, verdict)]);
      if verdict == Unparsable {
        return NeverJudged, h;
      }
      if verdict != Fail {
        break;
      }
      if fixes >= cfg.maxRounds {
        return StillFailing, h;
      }
      fixes := fixes + 1;
      var status, commit, acts := RunFixRound(a.fix);
      if status == FixRaised {
        return Escaped, h;
      }
      h := h.(fixes := h.fixes + [acts]);
      if status == FixLimited {
        return LimitHit, h;
      }
      if status != Fixed {
        return FixEnded(status), h;
      }
      prev, pushed, saved := head, commit, a.saved;
    }
    end, h := CloseOut(cfg, head, c, h);
  }

  method CloseOut(cfg: Settings, head: Sha, c: Closing, before: History) returns (end: FinalEnd, h: History)
    ensures (end, h) == Close(cfg, head, c, before)
  {
    hide DecideMerge;
    h := before;
    if c.headRead.None? {
      return Escaped, h;
    }
    if c.headRead.value != head {
      return HeadMoved, h;
    }
    var changed := if cfg.autonomy == Yolo then c.changed else None;
    if !DecideMerge(cfg.autonomy, c.hitl, cfg.allowlist, changed) {
      return Withheld, h;
    }
    h := h.(merge := Some(head));
    end := if c.mergeOk then FinalMerged else MergeRefused;
  }

  // What a merge rests on.

  /** A scoped review starts at the commit the review before it looked at, and git reported that commit
      as an ancestor of this head. */
  predicate LinksTo(answers: nat -> RoundAnswers, reviews: seq<Review>, k: nat)
    requires 0 < k < |reviews|
  {
    && reviews[k].prev == reviews[k - 1].head && reviews[k].prev != reviews[k].head
    && answers(k + 1).ancestry == IsAncestor
  }

  /** Each review is full, or continues the one before it; the first is full. */
  predicate Scoped(answers: nat -> RoundAnswers, reviews: seq<Review>) {
    forall k | 0 <= k < |reviews| :: reviews[k].scope == Full || (0 < k && LinksTo(answers, reviews, k))
  }

  /** A fix round that put `commit` on the branch: verified, then pushed, and nothing after. */
  predicate Lands(acts: seq<FixAct>, commit: Sha) {
    acts == [FixSession, FixVerified(commit), FixPushed(commit)]
  }

  /** Every reviewed head after the first is what the fix round before it verified and pushed, and was
      reported as the pull request's head; every review but the last failed. */
  predicate Pinned(answers: nat -> RoundAnswers, h: History) {
    && (forall k | 0 <= k < |h.reviews| :: IsSha(h.reviews[k].head))
    && (forall k | 0 < k < |h.reviews| ::
          && k - 1 < |h.fixes| && Lands(h.fixes[k - 1], h.reviews[k].head)
          && Reported(answers(k + 1).waitHeads, h.reviews[k].head, ATTEMPTS))
    && (forall k | 0 <= k < |h.reviews| - 1 :: h.reviews[k].verdict == Fail)
  }

  /** What the rounds keep: as many reviews as fix rounds before each review, linked and pinned. */
  predicate RoundsOk(maxRounds: nat, answers: nat -> RoundAnswers, prev: Sha, pushed: Sha, h: History) {
    && |h.reviews| == |h.fixes| <= maxRounds
    && Scoped(answers, h.reviews) && Pinned(answers, h) && h.merge.None?
    && (forall k | 0 <= k < |h.reviews| :: h.reviews[k].verdict == Fail)
    && (if h.fixes == [] then pushed == "" else
          pushed != "" && prev == h.reviews[|h.reviews| - 1].head && Lands(h.fixes[|h.fixes| - 1], pushed))
  }

  /** What holds at the end of the rounds, however they end. */
  predicate EndOk(maxRounds: nat, answers: nat -> RoundAnswers, end: FinalEnd, h: History) {
    && |h.reviews| <= maxRounds + 1 && |h.fixes| <= maxRounds
    && Scoped(answers, h.reviews) && Pinned(answers, h) && h.merge.None?
    && (end.Passed? <==> |h.reviews| > 0 && h.reviews[|h.reviews| - 1].verdict == Pass)
    && (end.Passed? ==> h.reviews[|h.reviews| - 1].head == end.head)
    && (end.NeverJudged? <==> |h.reviews| > 0 && h.reviews[|h.reviews| - 1].verdict == Unparsable)
    && (end.StillFailing? ==> |h.fixes| == maxRounds && |h.reviews| == maxRounds + 1)
    && !end.FinalMerged? && !end.MergeRefused? && !end.Withheld?
  }

  /** The next review: its scope was resolved, and its head is the reported pushed commit. */
  lemma ReviewKeeps(maxRounds: nat, answers: nat -> RoundAnswers, prev: Sha, saved: Saved, pushed: Sha, h: History,
                    verdict: Verdict)
    requires RoundsOk(maxRounds, answers, prev, pushed, h)
    requires
      var a := answers(|h.fixes| + 1);
      && (pushed != "" ==> Reported(a.waitHeads, pushed, ATTEMPTS))
      && HeadToReview(a, pushed).Some? && IsSha(HeadToReview(a, pushed).value)
    ensures
      var a := answers(|h.fixes| + 1);
      var head := HeadToReview(a, pushed).value;
      var review := Review(ResolveScope(|h.fixes| + 1, prev, head, saved, a.ancestry), prev, head, verdict);
      var g := h.(reviews := h.reviews + [review]);
      Scoped(answers, g.reviews) && Pinned(answers, g)
  {
    hide IsSha, Reported, Lands;
    var a := answers(|h.fixes| + 1);
    var head := HeadToReview(a, pushed).value;
    var review := Review(ResolveScope(|h.fixes| + 1, prev, head, saved, a.ancestry), prev, head, verdict);
    var reviews := h.reviews + [review];
    forall k | 0 <= k < |reviews|
      ensures reviews[k].scope == Full || (0 < k && LinksTo(answers, reviews, k))
    {
      if k < |h.reviews| {
        assert reviews[k] == h.reviews[k];
        assert h.reviews[k].scope == Full || LinksTo(answers, h.reviews, k);
      }
    }
  }

  lemma FixKeeps(answers: nat -> RoundAnswers, g: History, acts: seq<FixAct>)
    requires Pinned(answers, g)
    ensures Pinned(answers, g.(fixes := g.fixes + [acts]))
  {
    hide IsSha, Reported, Lands;
  }

  lemma FixLanded(a: FixAnswers)
    ensures
      var (status, commit, acts) := FixRound(a);
      status == Fixed ==> Lands(acts, commit) && commit != ""
  {
    hide OutcomeOf;
  }

  predicate Merging(end: FinalEnd) {
    end.FinalMerged? || end.MergeRefused? || end.Withheld?
  }

  lemma EndsEarly(maxRounds: nat, answers: nat -> RoundAnswers, prev: Sha, pushed: Sha, h: History, end: FinalEnd)
    requires RoundsOk(maxRounds, answers, prev, pushed, h) && !Merging(end)
    requires !end.Passed? && !end.NeverJudged? && !end.StillFailing?
    ensures EndOk(maxRounds, answers, end, h)
  {
    hide Scoped, Pinned, Lands;
  }

  /** The state right after a review. */
  predicate ReviewedOk(maxRounds: nat, answers: nat -> RoundAnswers, head: Sha, verdict: Verdict, g: History) {
    && |g.fixes| + 1 == |g.reviews| && |g.fixes| <= maxRounds
    && Scoped(answers, g.reviews) && Pinned(answers, g) && g.merge.None?
    && g.reviews[|g.reviews| - 1].head == head && g.reviews[|g.reviews| - 1].verdict == verdict
  }

  lemma EndsReviewed(maxRounds: nat, answers: nat -> RoundAnswers, head: Sha, verdict: Verdict, g: History,
                    end: FinalEnd)
    requires ReviewedOk(maxRounds, answers, head, verdict, g) && !Merging(end)
    requires (end.Passed? <==> verdict == Pass) && (end.NeverJudged? <==> verdict == Unparsable)
    requires end.StillFailing? ==> |g.fixes| == maxRounds
    requires end.Passed? ==> end.head == head
    ensures EndOk(maxRounds, answers, end, g)
  {
    hide Scoped, Pinned, Lands;
  }

  lemma FixedOn(maxRounds: nat, answers: nat -> RoundAnswers, head: Sha, g: History, a: FixAnswers, end: FinalEnd)
    requires ReviewedOk(maxRounds, answers, head, Fail, g) && |g.fixes| < maxRounds
    requires !Merging(end) && !end.Passed? && !end.NeverJudged? && !end.StillFailing?
    ensures
      var (status, commit, acts) := FixRound(a);
      var f := g.(fixes := g.fixes + [acts]);
      && EndOk(maxRounds, answers, end, f)
      && (status == Fixed ==> RoundsOk(maxRounds, answers, head, commit, f))
  {
    hide FixRound, Lands, Scoped;
    FixLanded(a);
    FixKeeps(answers, g, FixRound(a).2);
    assert forall k | 0 <= k < |g.reviews| - 1 :: g.reviews[k].verdict == Fail;
  }

  function NewReview(answers: nat -> RoundAnswers, prev: Sha, saved: Saved, pushed: Sha, h: History): Review
    requires HeadToReview(answers(|h.fixes| + 1), pushed).Some?
  {
    var a := answers(|h.fixes| + 1);
    var head := HeadToReview(a, pushed).value;
    Review(ResolveScope(|h.fixes| + 1, prev, head, saved, a.ancestry), prev, head, ReviewOf(a).1)
  }

  predicate CanReview(answers: nat -> RoundAnswers, pushed: Sha, h: History) {
    var a := answers(|h.fixes| + 1);
    && (pushed != "" ==> Reported(a.waitHeads, pushed, ATTEMPTS))
    && HeadToReview(a, pushed).Some? && IsSha(HeadToReview(a, pushed).value) && a.reviewTreeOk
  }

  lemma Reviews(maxRounds: nat, answers: nat -> RoundAnswers, prev: Sha, saved: Saved, pushed: Sha, h: History)
    requires RoundsOk(maxRounds, answers, prev, pushed, h) && CanReview(answers, pushed, h)
    ensures
      var review := NewReview(answers, prev, saved, pushed, h);
      ReviewedOk(maxRounds, answers, review.head, review.verdict, h.(reviews := h.reviews + [review]))
  {
    hide IsSha, Reported, ReviewOf, ResolveScope;
    ReviewKeeps(maxRounds, answers, prev, saved, pushed, h, ReviewOf(answers(|h.fixes| + 1)).1);
    hide Scoped, Pinned;
  }

  lemma {:induction false} RoundsKeep(maxRounds: nat, answers: nat -> RoundAnswers, prev: Sha, saved: Saved,
                                      pushed: Sha, h: History)
    requires RoundsOk(maxRounds, answers, prev, pushed, h) && |h.fixes| <= maxRounds
    ensures
      var (end, g) := Rounds(maxRounds, answers, prev, saved, pushed, h);
      EndOk(maxRounds, answers, end, g)
    decreases maxRounds - |h.fixes|
  {
    hide IsSha, ReviewOf, FixRound, ResolveScope, Reported, RoundsOk, EndOk, ReviewedOk;
    var (end, last) := Rounds(maxRounds, answers, prev, saved, pushed, h);
    if !CanReview(answers, pushed, h) || ReviewOf(answers(|h.fixes| + 1)).0.usageLimit {
      EndsEarly(maxRounds, answers, prev, pushed, h, end);
    } else {
      var a := answers(|h.fixes| + 1);
      var review := NewReview(answers, prev, saved, pushed, h);
      var g := h.(reviews := h.reviews + [review]);
      Reviews(maxRounds, answers, prev, saved, pushed, h);
      if review.verdict != Fail || |h.fixes| >= maxRounds || FixRound(a.fix).0 == FixRaised {
        EndsReviewed(maxRounds, answers, review.head, review.verdict, g, end);
      } else {
        var (status, commit, acts) := FixRound(a.fix);
        FixedOn(maxRounds, answers, review.head, g, a.fix, FixEnded(status));
        if status == Fixed {
          RoundsKeep(maxRounds, answers, review.head, a.saved, commit, g.(fixes := g.fixes + [acts]));
        } else {
          FixedOn(maxRounds, answers, review.head, g, a.fix, end);
        }
      }
    }
  }

  lemma {:induction false} RoundsExtend(maxRounds: nat, answers: nat -> RoundAnswers, prev: Sha, saved: Saved,
                                        pushed: Sha, h: History)
    requires |h.fixes| <= maxRounds
    ensures h.reviews <= Rounds(maxRounds, answers, prev, saved, pushed, h).1.reviews
    decreases maxRounds - |h.fixes|
  {
    hide IsSha, ReviewOf, FixRound, ResolveScope, Reported;
    if !CanReview(answers, pushed, h) || |h.fixes| == maxRounds {
    } else {
      var a := answers(|h.fixes| + 1);
      var review := NewReview(answers, prev, saved, pushed, h);
      var (status, commit, acts) := FixRound(a.fix);
      var next := h.(reviews := h.reviews + [review], fixes := h.fixes + [acts]);
      RoundsExtend(maxRounds, answers, review.head, a.saved, commit, next);
    }
  }

  /** The review happens: with a readable head and a worktree, the first review judges that head in
      full, and its verdict is the first session's, or a fresh one's if it gave none. */
  lemma FirstReviewJudges(cfg: Settings, answers: nat -> RoundAnswers, c: Closing)
    requires answers(1).headRead.Some? && IsSha(answers(1).headRead.value) && answers(1).reviewTreeOk
    requires !ReviewOf(answers(1)).0.usageLimit
    ensures
      var (end, h) := Final(cfg, answers, c);
      |h.reviews| > 0 && h.reviews[0] == Review(Full, "", answers(1).headRead.value, ReviewOf(answers(1)).1)
  {
    hide IsSha, ReviewOf, Reported, Rounds;
    var start := History([], [], None);
    RoundReviews(cfg.maxRounds, answers, "", NotSaved, "", start);
    assert start.reviews + [NewReview(answers, "", NotSaved, "", start)]
        == [NewReview(answers, "", NotSaved, "", start)];
  }

  lemma RoundReviews(maxRounds: nat, answers: nat -> RoundAnswers, prev: Sha, saved: Saved, pushed: Sha, h: History)
    requires |h.fixes| <= maxRounds && CanReview(answers, pushed, h) && !ReviewOf(answers(|h.fixes| + 1)).0.usageLimit
    ensures h.reviews + [NewReview(answers, prev, saved, pushed, h)]
         <= Rounds(maxRounds, answers, prev, saved, pushed, h).1.reviews
  {
    hide IsSha, ReviewOf, FixRound, ResolveScope, Reported;
    if |h.fixes| < maxRounds {
      var a := answers(|h.fixes| + 1);
      var review := NewReview(answers, prev, saved, pushed, h);
      var (status, commit, acts) := FixRound(a.fix);
      var next := h.(reviews := h.reviews + [review], fixes := h.fixes + [acts]);
      RoundsExtend(maxRounds, answers, review.head, a.saved, commit, next);
    }
  }

  /** The reviews from `i` on: a full one, then each from the commit last reviewed to a descendant. */
  predicate CoversFrom(answers: nat -> RoundAnswers, reviews: seq<Review>, i: nat) {
    && i < |reviews| && reviews[i].scope == Full
    && forall k | i < k < |reviews| :: reviews[k].scope == FixDiff && LinksTo(answers, reviews, k)
  }

  lemma {:induction false} LastFull(answers: nat -> RoundAnswers, reviews: seq<Review>, n: nat) returns (i: nat)
    requires Scoped(answers, reviews) && 0 < n <= |reviews|
    ensures i < n && reviews[i].scope == Full
    ensures forall k | i < k < n :: reviews[k].scope == FixDiff && LinksTo(answers, reviews, k)
    decreases n
  {
    hide LinksTo;
    i := n - 1;
    if reviews[i].scope == Full {
    } else {
      i := LastFull(answers, reviews, n - 1);
    }
  }

  /** What the commit given to the merge rests on. */
  ghost predicate Justified(cfg: Settings, answers: nat -> RoundAnswers, c: Closing, h: History, merged: Sha) {
    && |h.reviews| > 0 && h.reviews[|h.reviews| - 1].head == merged && h.reviews[|h.reviews| - 1].verdict == Pass
    && (exists i :: CoversFrom(answers, h.reviews, i)) && Pinned(answers, h)
    && c.headRead == Some(merged)
    && DecideMerge(cfg.autonomy, c.hitl, cfg.allowlist, if cfg.autonomy == Yolo then c.changed else None)
  }

  lemma FinalEnds(cfg: Settings, answers: nat -> RoundAnswers)
    ensures
      var (end, h) := Rounds(cfg.maxRounds, answers, "", NotSaved, "", History([], [], None));
      EndOk(cfg.maxRounds, answers, end, h)
  {
    RoundsKeep(cfg.maxRounds, answers, "", NotSaved, "", History([], [], None));
  }

  lemma MergeUnpinned(answers: nat -> RoundAnswers, h: History)
    ensures Pinned(answers, h) <==> Pinned(answers, h.(merge := None))
  {
    hide IsSha, Lands, Reported;
  }

  /** The squash merge. The merged commit is the one the last review passed, and still the head; every
      review before that failed and its fix was verified before it was pushed; and since some full review,
      each review went on from the commit reviewed before it to a descendant. Conversely a PASS on the
      head that is still there is merged, if the autonomy mode allows it. */
  lemma MergeIsCovered(cfg: Settings, answers: nat -> RoundAnswers, c: Closing)
    ensures
      var (end, h) := Final(cfg, answers, c);
      && |h.reviews| <= cfg.maxRounds + 1 && |h.fixes| <= cfg.maxRounds
      && (h.merge.Some? <==> end.FinalMerged? || end.MergeRefused?)
      && (h.merge.Some? ==> Justified(cfg, answers, c, h, h.merge.value))
      && (|h.reviews| > 0 && Justified(cfg, answers, c, h, h.reviews[|h.reviews| - 1].head) ==> h.merge.Some?)
  {
    hide Rounds, Pinned, DecideMerge, LinksTo;
    FinalEnds(cfg, answers);
    var (end, h) := Final(cfg, answers, c);
    MergeUnpinned(answers, h);
    if h.reviews != [] {
      var i := LastFull(answers, h.reviews, |h.reviews|);
      assert CoversFrom(answers, h.reviews, i);
    }
  }

  /** Ancestry of commits, and answers that tell the truth about it. */
  ghost predicate Truthful(answers: nat -> RoundAnswers, reviews: seq<Review>, isAncestor: (Sha, Sha) -> bool) {
    && (forall a :: isAncestor(a, a))
    && (forall a, b, c :: isAncestor(a, b) && isAncestor(b, c) ==> isAncestor(a, c))
    && (forall k | 0 < k < |reviews| && answers(k + 1).ancestry == IsAncestor ::
          isAncestor(reviews[k - 1].head, reviews[k].head))
  }

  /** So a commit reviewed in full is an ancestor of every commit reviewed since, the merged one last. */
  lemma {:induction false} FullReviewIsBelow(answers: nat -> RoundAnswers, reviews: seq<Review>, i: nat, k: nat,
                                             isAncestor: (Sha, Sha) -> bool)
    requires CoversFrom(answers, reviews, i) && Truthful(answers, reviews, isAncestor) && i <= k < |reviews|
    ensures isAncestor(reviews[i].head, reviews[k].head)
    decreases k
  {
    if i >= k {
    } else {
      FullReviewIsBelow(answers, reviews, i, k - 1, isAncestor);
      assert LinksTo(answers, reviews, k);
    }
  }
}

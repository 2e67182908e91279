/** Session output: which marker line a session ended with, and whether it may be believed. */
module Markers {
  import opened Text

  datatype Verdict = Pass | Fail | Unparsable
  datatype Outcome = OutcomeDone | OutcomeBlocked | OutcomeUnparsable

  /** What a session returns, as far as a decision reads it. */
  datatype SessionResult = SessionResult(text: string, returnCode: int, timedOut: bool, usageLimit: bool)

  const WINDOW := 5

  /** Python's line boundaries and its whitespace (`str.splitlines`, `str.isspace`). */
  const BREAKS: set<char> :=
    {'\n', '\r', '\U{0B}', '\U{0C}', '\U{1C}', '\U{1D}', '\U{1E}', '\U{85}', '\U{2028}', '\U{2029}'}
  const SPACES: set<char> :=
    BREAKS + {' ', '\t', '\U{1F}', '\U{A0}', '\U{1680}', '\U{202F}', '\U{205F}', '\U{3000}',
              '\U{2000}', '\U{2001}', '\U{2002}', '\U{2003}', '\U{2004}', '\U{2005}', '\U{2006}',
              '\U{2007}', '\U{2008}', '\U{2009}', '\U{200A}'}

  predicate Blank(s: string) {
    forall c | c in s :: c in SPACES
  }

  /** Zero, one or two backticks. */
  predicate Ticks(s: string) {
    |s| <= 2 && forall c | c in s :: c == '`'
  }

  function NonBlank(lines: seq<string>): seq<string> {
    if lines == [] then []
    else if Blank(lines[0]) then NonBlank(lines[1..])
    else [lines[0]] + NonBlank(lines[1..])
  }

  function LastOf(lines: seq<string>, n: nat): seq<string> {
    if |lines| <= n then lines else lines[|lines| - n..]
  }

  /** A "\r\n" splits into one more, empty, line here; empty lines are dropped anyway. */
  function Window(text: string): seq<string> {
    LastOf(NonBlank(Split(text, BREAKS)), WINDOW)
  }

  // The matcher: what the regular expressions do, left to right.

  function DropSpace(s: string): string {
    if s != "" && s[0] in SPACES then DropSpace(s[1..]) else s
  }

  function DropTicks(s: string, upTo: nat): string {
    if upTo > 0 && s != "" && s[0] == '`' then DropTicks(s[1..], upTo - 1) else s
  }

  predicate IsTail(s: string) {
    Blank(DropTicks(s, 2))
  }

  predicate Matches(line: string, marker: string) {
    var body := DropTicks(DropSpace(line), 2);
    marker <= body && IsTail(body[|marker|..])
  }

  /** The shape of a marker line: the marker alone, in up to two backticks, in whitespace. */
  ghost predicate IsMarkerLine(line: string, marker: string) {
    exists lead, open, close, trail :: Composed(line, lead, open, marker, close, trail)
  }

  predicate Composed(line: string, lead: string, open: string, marker: string, close: string, trail: string) {
    line == lead + open + marker + close + trail && Blank(lead) && Ticks(open) && Ticks(close) && Blank(trail)
  }

  function DropBlanks(s: string): string {
    if s != "" && s[0] in {' ', '\t'} then DropBlanks(s[1..]) else s
  }

  /** At least one blank, then something that starts with no whitespace. */
  predicate TakesReason(rest: string) {
    |DropBlanks(rest)| < |rest| && DropBlanks(rest) != "" && DropBlanks(rest)[0] !in SPACES
  }

  /** An outcome marker may also be followed by blanks and a reason. */
  predicate MatchesOutcome(line: string, marker: string) {
    var body := DropTicks(DropSpace(line), 2);
    marker <= body &&
    var rest := body[|marker|..];
    IsTail(rest) || TakesReason(rest)
  }

  predicate AnyMatches(lines: seq<string>, marker: string) {
    exists line | line in lines :: Matches(line, marker)
  }

  predicate AnyOutcome(lines: seq<string>, marker: string) {
    exists line | line in lines :: MatchesOutcome(line, marker)
  }

  const PASS_LINE := "GATE:PASS"
  const FAIL_LINE := "GATE:FAIL"
  const DONE_LINE := "RALPH:DONE"
  const BLOCKED_LINE := "RALPH:BLOCKED"

  function ParseVerdict(text: string): Verdict {
    var pass, fail := AnyMatches(Window(text), PASS_LINE), AnyMatches(Window(text), FAIL_LINE);
    if pass && !fail then Pass else if fail && !pass then Fail else Unparsable
  }

  function ParseOutcome(text: string): Outcome {
    var done, blocked := AnyOutcome(Window(text), DONE_LINE), AnyOutcome(Window(text), BLOCKED_LINE);
    if done && !blocked then OutcomeDone else if blocked && !done then OutcomeBlocked else OutcomeUnparsable
  }

  predicate Usable(result: SessionResult) {
    result.returnCode == 0 && !result.timedOut && !result.usageLimit
  }

  function VerdictOf(result: SessionResult): Verdict {
    if Usable(result) then ParseVerdict(result.text) else Unparsable
  }

  function OutcomeOf(result: SessionResult): Outcome {
    if Usable(result) then ParseOutcome(result.text) else OutcomeUnparsable
  }

  // The matcher agrees with the shape.

  lemma {:induction false} DropSpaceSplits(s: string) returns (lead: string)
    ensures s == lead + DropSpace(s) && Blank(lead)
  {
    if s != "" && s[0] in SPACES {
      var rest := DropSpaceSplits(s[1..]);
      lead := [s[0]] + rest;
    } else {
      lead := "";
    }
  }

  lemma {:induction false} DropSpaceOver(lead: string, rest: string)
    requires Blank(lead) && (rest == "" || rest[0] !in SPACES)
    ensures DropSpace(lead + rest) == rest
  {
    if lead == "" {
      assert lead + rest == rest;
    } else {
      assert (lead + rest)[1..] == lead[1..] + rest;
      assert forall c | c in lead[1..] :: c in lead;
      DropSpaceOver(lead[1..], rest);
    }
  }

  lemma {:induction false} DropTicksSplits(s: string, n: nat) returns (ticks: string)
    ensures s == ticks + DropTicks(s, n) && |ticks| <= n && forall c | c in ticks :: c == '`'
  {
    if n > 0 && s != "" && s[0] == '`' {
      var rest := DropTicksSplits(s[1..], n - 1);
      ticks := ['`'] + rest;
    } else {
      ticks := "";
    }
  }

  lemma {:induction false} DropTicksOver(ticks: string, rest: string, n: nat)
    requires |ticks| <= n && (forall c | c in ticks :: c == '`') && (rest == "" || rest[0] != '`')
    ensures DropTicks(ticks + rest, n) == rest
  {
    if ticks == "" {
      assert ticks + rest == rest;
    } else {
      assert (ticks + rest)[1..] == ticks[1..] + rest;
      assert (ticks + rest)[0] == ticks[0] && ticks[0] in ticks;
      assert forall c | c in ticks[1..] :: c in ticks;
      DropTicksOver(ticks[1..], rest, n - 1);
    }
  }

  lemma Assemble(a: string, b: string, c: string, d: string, e: string)
    ensures a + (b + (c + (d + e))) == a + b + c + d + e
  {
  }

  lemma MatchHasShape(line: string, marker: string)
    requires Matches(line, marker)
    ensures IsMarkerLine(line, marker)
  {
    var lead := DropSpaceSplits(line);
    var open := DropTicksSplits(DropSpace(line), 2);
    var body := DropTicks(DropSpace(line), 2);
    var rest := body[|marker|..];
    var close := DropTicksSplits(rest, 2);
    Assemble(lead, open, marker, close, DropTicks(rest, 2));
    assert body == marker + rest;
    assert Composed(line, lead, open, marker, close, DropTicks(rest, 2));
  }

  lemma ShapeMatches(marker: string, lead: string, open: string, close: string, trail: string)
    requires marker != "" && marker[0] != '`' && marker[0] !in SPACES
    requires Blank(lead) && Ticks(open) && Ticks(close) && Blank(trail)
    ensures Matches(lead + open + marker + close + trail, marker)
  {
    var body := marker + (close + trail);
    assert lead + open + marker + close + trail == lead + (open + body);
    LeadsAway(open, body);
    DropSpaceOver(lead, open + body);
    DropTicksOver(open, body, 2);
    hide DropSpace, DropTicks;
    assert body[|marker|..] == close + trail;
    TicksThenBlank(close, trail);
  }

  lemma LeadsAway(open: string, body: string)
    requires Ticks(open) && body != "" && body[0] !in SPACES
    ensures (open + body)[0] !in SPACES
  {
    assert open != "" ==> open[0] in open;
  }

  lemma TicksThenBlank(close: string, trail: string)
    requires Ticks(close) && Blank(trail)
    ensures DropTicks(close + trail, 2) == trail
  {
    assert trail != "" ==> trail[0] in trail;
    DropTicksOver(close, trail, 2);
  }

  lemma MatchesIffShape(line: string, marker: string)
    requires marker != "" && marker[0] != '`' && marker[0] !in SPACES
    ensures Matches(line, marker) <==> IsMarkerLine(line, marker)
  {
    if Matches(line, marker) {
      MatchHasShape(line, marker);
    }
    if IsMarkerLine(line, marker) {
      var lead, open, close, trail :| Composed(line, lead, open, marker, close, trail);
      ShapeMatches(marker, lead, open, close, trail);
    }
  }

  /** A gate passes exactly when the session is healthy and its last five non-blank lines hold a
      whole-line PASS and no whole-line FAIL. */
  lemma PassMeaning(result: SessionResult)
    ensures VerdictOf(result) == Pass <==>
      && result.returnCode == 0 && !result.timedOut && !result.usageLimit
      && (exists line | line in Window(result.text) :: IsMarkerLine(line, PASS_LINE))
      && !(exists line | line in Window(result.text) :: IsMarkerLine(line, FAIL_LINE))
  {
    hide Matches, IsMarkerLine, Window;
    forall line | line in Window(result.text)
      ensures Matches(line, PASS_LINE) <==> IsMarkerLine(line, PASS_LINE)
      ensures Matches(line, FAIL_LINE) <==> IsMarkerLine(line, FAIL_LINE)
    {
      MatchesIffShape(line, PASS_LINE);
      MatchesIffShape(line, FAIL_LINE);
    }
  }

  /** And it fails exactly when these hold a whole-line FAIL and no whole-line PASS. */
  lemma FailMeaning(result: SessionResult)
    ensures VerdictOf(result) == Fail <==>
      && result.returnCode == 0 && !result.timedOut && !result.usageLimit
      && (exists line | line in Window(result.text) :: IsMarkerLine(line, FAIL_LINE))
      && !(exists line | line in Window(result.text) :: IsMarkerLine(line, PASS_LINE))
  {
    hide Matches, IsMarkerLine, Window;
    forall line | line in Window(result.text)
      ensures Matches(line, PASS_LINE) <==> IsMarkerLine(line, PASS_LINE)
      ensures Matches(line, FAIL_LINE) <==> IsMarkerLine(line, FAIL_LINE)
    {
      MatchesIffShape(line, PASS_LINE);
      MatchesIffShape(line, FAIL_LINE);
    }
  }

  /** A healthy session whose window holds a verdict line of `marker` and none of `other`. */
  ghost predicate Judges(result: SessionResult, marker: string, other: string) {
    && result.returnCode == 0 && !result.timedOut && !result.usageLimit
    && (exists line | line in Window(result.text) :: IsMarkerLine(line, marker))
    && !(exists line | line in Window(result.text) :: IsMarkerLine(line, other))
  }

  lemma VerdictMeaning(result: SessionResult)
    ensures VerdictOf(result) == Pass <==> Judges(result, PASS_LINE, FAIL_LINE)
    ensures VerdictOf(result) == Fail <==> Judges(result, FAIL_LINE, PASS_LINE)
  {
    PassMeaning(result);
    FailMeaning(result);
    hide VerdictOf, Window, IsMarkerLine;
  }

  // The same for the outcome marker, which a reason may follow.

  /** What may follow an outcome marker: backticks and whitespace, or blanks and a reason. */
  ghost predicate OutcomeRest(rest: string) {
    || (exists close, trail :: rest == close + trail && Ticks(close) && Blank(trail))
    || (exists blanks, reason :: ReasonAfter(rest, blanks, reason))
  }

  predicate ReasonAfter(rest: string, blanks: string, reason: string) {
    && rest == blanks + reason && blanks != "" && (forall c | c in blanks :: c in {' ', '\t'})
    && reason != "" && reason[0] !in SPACES
  }

  ghost predicate IsOutcomeLine(line: string, marker: string) {
    exists lead, open, rest :: OutcomeComposed(line, lead, open, marker, rest)
  }

  ghost predicate OutcomeComposed(line: string, lead: string, open: string, marker: string, rest: string) {
    line == lead + open + marker + rest && Blank(lead) && Ticks(open) && OutcomeRest(rest)
  }

  lemma {:induction false} DropBlanksSplits(s: string) returns (blanks: string)
    ensures s == blanks + DropBlanks(s) && forall c | c in blanks :: c in {' ', '\t'}
  {
    if s != "" && s[0] in {' ', '\t'} {
      var rest := DropBlanksSplits(s[1..]);
      blanks := [s[0]] + rest;
    } else {
      blanks := "";
    }
  }

  lemma {:induction false} DropBlanksOver(blanks: string, reason: string)
    requires (forall c | c in blanks :: c in {' ', '\t'}) && reason != "" && reason[0] !in SPACES
    ensures DropBlanks(blanks + reason) == reason
  {
    if blanks == "" {
      assert blanks + reason == reason;
    } else {
      assert (blanks + reason)[1..] == blanks[1..] + reason;
      assert (blanks + reason)[0] == blanks[0] && blanks[0] in blanks;
      assert forall c | c in blanks[1..] :: c in blanks;
      DropBlanksOver(blanks[1..], reason);
    }
  }

  lemma TailIffShape(rest: string)
    ensures IsTail(rest) <==> exists close, trail :: rest == close + trail && Ticks(close) && Blank(trail)
  {
    if IsTail(rest) {
      var close := DropTicksSplits(rest, 2);
      assert rest == close + DropTicks(rest, 2) && Ticks(close) && Blank(DropTicks(rest, 2));
    }
    if close, trail :| rest == close + trail && Ticks(close) && Blank(trail) {
      assert trail != "" ==> trail[0] in trail;
      DropTicksOver(close, trail, 2);
    }
  }

  lemma ReasonIffShape(rest: string)
    ensures TakesReason(rest) <==> exists blanks, reason :: ReasonAfter(rest, blanks, reason)
  {
    if TakesReason(rest) {
      var blanks := DropBlanksSplits(rest);
      assert ReasonAfter(rest, blanks, DropBlanks(rest));
    }
    if blanks, reason :| ReasonAfter(rest, blanks, reason) {
      DropBlanksOver(blanks, reason);
    }
  }

  lemma OutcomeHasShape(line: string, marker: string)
    requires MatchesOutcome(line, marker)
    ensures IsOutcomeLine(line, marker)
  {
    hide OutcomeRest, IsTail, DropBlanks, DropTicks, DropSpace, TakesReason;
    var lead := DropSpaceSplits(line);
    var open := DropTicksSplits(DropSpace(line), 2);
    var rest := DropTicks(DropSpace(line), 2)[|marker|..];
    RestIff(rest);
    assert line == lead + open + marker + rest;
    assert OutcomeComposed(line, lead, open, marker, rest);
  }

  lemma OutcomeIffShape(line: string, marker: string)
    requires marker != "" && marker[0] != '`' && marker[0] !in SPACES
    ensures MatchesOutcome(line, marker) <==> IsOutcomeLine(line, marker)
  {
    if MatchesOutcome(line, marker) {
      OutcomeHasShape(line, marker);
    }
    if IsOutcomeLine(line, marker) {
      hide MatchesOutcome, OutcomeRest, Blank, Ticks;
      var lead, open, rest :| OutcomeComposed(line, lead, open, marker, rest);
      ShapeIsOutcome(marker, lead, open, rest);
    }
  }

  lemma ShapeIsOutcome(marker: string, lead: string, open: string, rest: string)
    requires marker != "" && marker[0] != '`' && marker[0] !in SPACES && Blank(lead) && Ticks(open) && OutcomeRest(rest)
    ensures MatchesOutcome(lead + open + marker + rest, marker)
  {
    hide OutcomeRest, IsTail, DropBlanks, DropTicks, DropSpace, TakesReason, Blank, Ticks;
    RestIff(rest);
    BodyOf(lead, open, marker, rest);
    Reassemble(lead, open, marker, rest);
  }

  lemma Reassemble(a: string, b: string, c: string, d: string)
    ensures a + b + c + d == a + (b + (c + d))
  {
  }

  lemma RestIff(rest: string)
    ensures OutcomeRest(rest) <==> IsTail(rest) || TakesReason(rest)
  {
    TailIffShape(rest);
    ReasonIffShape(rest);
    hide IsTail, TakesReason, ReasonAfter, Ticks, Blank;
  }

  lemma BodyOf(lead: string, open: string, marker: string, rest: string)
    requires marker != "" && marker[0] != '`' && marker[0] !in SPACES && Blank(lead) && Ticks(open)
    ensures
      var body := DropTicks(DropSpace(lead + (open + (marker + rest))), 2);
      body == marker + rest && body[|marker|..] == rest
  {
    assert (open + (marker + rest))[0] == if open == "" then marker[0] else open[0];
    assert open != "" ==> open[0] in open;
    DropSpaceOver(lead, open + (marker + rest));
    DropTicksOver(open, marker + rest, 2);
  }

  /** A session is done exactly when it is healthy and its last five non-blank lines hold a DONE outcome
      and no BLOCKED one. */
  lemma DoneMeaning(result: SessionResult)
    ensures OutcomeOf(result) == OutcomeDone <==>
      && result.returnCode == 0 && !result.timedOut && !result.usageLimit
      && (exists line | line in Window(result.text) :: IsOutcomeLine(line, DONE_LINE))
      && !(exists line | line in Window(result.text) :: IsOutcomeLine(line, BLOCKED_LINE))
  {
    hide MatchesOutcome, IsOutcomeLine, Window;
    forall line | line in Window(result.text)
      ensures MatchesOutcome(line, DONE_LINE) <==> IsOutcomeLine(line, DONE_LINE)
      ensures MatchesOutcome(line, BLOCKED_LINE) <==> IsOutcomeLine(line, BLOCKED_LINE)
    {
      OutcomeIffShape(line, DONE_LINE);
      OutcomeIffShape(line, BLOCKED_LINE);
    }
  }

  /** It is blocked exactly when these hold a BLOCKED outcome and no DONE one. */
  lemma BlockedMeaning(result: SessionResult)
    ensures OutcomeOf(result) == OutcomeBlocked <==>
      && result.returnCode == 0 && !result.timedOut && !result.usageLimit
      && (exists line | line in Window(result.text) :: IsOutcomeLine(line, BLOCKED_LINE))
      && !(exists line | line in Window(result.text) :: IsOutcomeLine(line, DONE_LINE))
  {
    hide MatchesOutcome, IsOutcomeLine, Window;
    forall line | line in Window(result.text)
      ensures MatchesOutcome(line, DONE_LINE) <==> IsOutcomeLine(line, DONE_LINE)
      ensures MatchesOutcome(line, BLOCKED_LINE) <==> IsOutcomeLine(line, BLOCKED_LINE)
    {
      OutcomeIffShape(line, DONE_LINE);
      OutcomeIffShape(line, BLOCKED_LINE);
    }
  }

  /** A healthy session whose window holds an outcome line of `marker` and none of `other`. */
  ghost predicate Reports(result: SessionResult, marker: string, other: string) {
    && result.returnCode == 0 && !result.timedOut && !result.usageLimit
    && (exists line | line in Window(result.text) :: IsOutcomeLine(line, marker))
    && !(exists line | line in Window(result.text) :: IsOutcomeLine(line, other))
  }

  lemma OutcomeMeaning(result: SessionResult)
    ensures OutcomeOf(result) == OutcomeDone <==> Reports(result, DONE_LINE, BLOCKED_LINE)
    ensures OutcomeOf(result) == OutcomeBlocked <==> Reports(result, BLOCKED_LINE, DONE_LINE)
  {
    DoneMeaning(result);
    BlockedMeaning(result);
    hide OutcomeOf, Window, IsOutcomeLine;
  }

  // The window.

  /** How many lines of text come at or after `i`. */
  function TextLines(lines: seq<string>, i: nat): nat
    requires i <= |lines|
    decreases |lines| - i
  {
    if i == |lines| then 0 else (if Blank(lines[i]) then 0 else 1) + TextLines(lines, i + 1)
  }

  lemma {:induction false} NonBlankCount(lines: seq<string>, i: nat)
    requires i <= |lines|
    ensures |NonBlank(lines[i..])| == TextLines(lines, i)
    decreases |lines| - i
  {
    if i == |lines| {
    } else {
      assert lines[i..][1..] == lines[i + 1..];
      NonBlankCount(lines, i + 1);
    }
  }

  /** Line `k` holds text, and at most five lines with text, itself counted, are left. */
  predicate Decides(lines: seq<string>, k: nat, line: string) {
    k < |lines| && lines[k] == line && !Blank(line) && TextLines(lines, k) <= 5
  }

  ghost predicate DecidesFrom(lines: seq<string>, i: nat, line: string) {
    exists k: nat :: i <= k && Decides(lines, k, line)
  }

  lemma DecidesNext(lines: seq<string>, i: nat, line: string)
    ensures DecidesFrom(lines, i, line) <==> Decides(lines, i, line) || DecidesFrom(lines, i + 1, line)
  {
    hide Decides;
    if DecidesFrom(lines, i, line) {
      var k: nat :| i <= k && Decides(lines, k, line);
      assert k == i || i + 1 <= k;
    }
  }

  lemma NextInWindow(lines: seq<string>, i: nat, line: string)
    requires i < |lines|
    ensures line in LastOf(NonBlank(lines[i..]), WINDOW) <==>
      Decides(lines, i, line) || line in LastOf(NonBlank(lines[i + 1..]), WINDOW)
  {
    assert lines[i..][1..] == lines[i + 1..];
    NonBlankCount(lines, i);
    NonBlankCount(lines, i + 1);
    hide Blank, TextLines;
    var rest := NonBlank(lines[i + 1..]);
    if Blank(lines[i]) {
      assert NonBlank(lines[i..]) == rest;
    } else {
      assert NonBlank(lines[i..]) == [lines[i]] + rest;
      hide NonBlank;
      LastOfNext(lines[i], rest, line);
    }
  }

  lemma LastOfNext(first: string, rest: seq<string>, line: string)
    ensures line in LastOf([first] + rest, WINDOW) <==>
      (line == first && |rest| + 1 <= WINDOW) || line in LastOf(rest, WINDOW)
  {
    var all := [first] + rest;
    if |all| > WINDOW {
      assert LastOf(all, WINDOW) == LastOf(rest, WINDOW);
    }
  }

  lemma {:induction false} LastNonBlank(lines: seq<string>, i: nat, line: string)
    requires i <= |lines|
    ensures line in LastOf(NonBlank(lines[i..]), WINDOW) <==> DecidesFrom(lines, i, line)
    decreases |lines| - i
  {
    if i == |lines| {
    } else {
      hide NonBlank, LastOf, Decides, DecidesFrom;
      LastNonBlank(lines, i + 1, line);
      NextInWindow(lines, i, line);
      DecidesNext(lines, i, line);
    }
  }

  /** Exactly the lines that decide are in the window. */
  lemma WindowMeaning(text: string, line: string)
    ensures line in Window(text) <==> DecidesFrom(Split(text, BREAKS), 0, line)
  {
    hide Split, LastOf, NonBlank, DecidesFrom;
    LastNonBlank(Split(text, BREAKS), 0, line);
    assert Split(text, BREAKS)[0..] == Split(text, BREAKS);
  }

  /** Text before the window never changes a verdict: five or more non-blank lines settle it. */
  lemma WindowIsSuffix(earlier: seq<string>, later: seq<string>)
    requires |NonBlank(later)| >= WINDOW
    ensures LastOf(NonBlank(earlier + later), WINDOW) == LastOf(NonBlank(later), WINDOW)
  {
    NonBlankAppend(earlier, later);
  }

  lemma {:induction false} NonBlankAppend(a: seq<string>, b: seq<string>)
    ensures NonBlank(a + b) == NonBlank(a) + NonBlank(b)
  {
    if a == [] {
      assert a + b == b;
    } else {
      assert (a + b)[1..] == a[1..] + b;
      NonBlankAppend(a[1..], b);
    }
  }
}

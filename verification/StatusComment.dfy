/** The one status comment of a run: an entry per transition, edited in place, trimmed to fit. */
module StatusComment {
  import opened Wrappers
  import opened Text

  const HEADER := "## ralph-gh status"
  const MAX_BODY := 60000

  /** An entry is one line. */
  predicate Entry(e: string) {
    e != "" && Free(e, '\n')
  }

  predicate Entries(es: seq<string>) {
    forall e | e in es :: Entry(e)
  }

  // The simple form: all entries at once, then the longest suffix that fits.

  function Render(es: seq<string>): string {
    Join([HEADER, ""] + es, '\n')
  }

  function Keep(es: seq<string>): seq<string> {
    if |es| <= 1 || |Render(es)| <= MAX_BODY then es else Keep(es[1..])
  }

  // The program's form.

  function Stripped(s: string): string {
    if s != "" && s[|s| - 1] == '\n' then Stripped(s[..|s| - 1]) else s
  }

  function TrimLines(lines: seq<string>): seq<string> {
    if |Join(lines, '\n')| > MAX_BODY && |lines| > 3 then TrimLines(lines[..2] + lines[3..]) else lines
  }

  /** Deletes the third line again and again, as long as the body is too long and more than three remain. */
  method Trim(body: string) returns (trimmed: string)
    ensures trimmed == Join(TrimLines(Split(body, {'\n'})), '\n')
  {
    hide Join, Split;
    var lines := Split(body, {'\n'});
    while |Join(lines, '\n')| > MAX_BODY && |lines| > 3
      invariant TrimLines(lines) == TrimLines(Split(body, {'\n'}))
      decreases |lines|
    {
      lines := lines[..2] + lines[3..];
    }
    trimmed := Join(lines, '\n');
  }

  datatype Comment = Comment(id: nat, body: string)

  /** How a write ends: taken and answered, not taken, or taken without an answer. */
  datatype WriteAnswer = Accepted | Refused | ReplyLost

  /** How the forge answers one post. `twice`: the retry of a call whose first attempt had landed too, so
      that a create leaves a comment `firstId` before the one with `newId`. */
  datatype Answers = Answers(readOk: bool, write: WriteAnswer, twice: bool, firstId: nat, newId: nat)

  predicate IsOurs(c: Comment) {
    HEADER <= c.body
  }

  function LastOurs(comments: seq<Comment>): Option<Comment> {
    if comments == [] then None
    else if IsOurs(comments[|comments| - 1]) then Some(comments[|comments| - 1])
    else LastOurs(comments[..|comments| - 1])
  }

  function Updated(comments: seq<Comment>, id: nat, body: string): (r: seq<Comment>)
    ensures |r| == |comments|
    ensures forall i | 0 <= i < |r| :: r[i] == if comments[i].id == id then Comment(id, body) else comments[i]
  {
    if comments == [] then []
    else [if comments[0].id == id then Comment(id, body) else comments[0]] + Updated(comments[1..], id, body)
  }

  /** The fields of the status comment. */
  datatype Fields = Fields(id: Option<nat>, body: string)

  const FRESH := Fields(None, "")

  function Located(f: Fields, comments: seq<Comment>): Fields {
    match LastOurs(comments)
    case Some(c) => Fields(Some(c.id), c.body)
    case None => Fields(None, HEADER + ['\n'])
  }

  function Written(f: Fields, comments: seq<Comment>, entry: string, a: Answers): (Fields, seq<Comment>) {
    var raw := Stripped(f.body) + (if f.id.Some? then ['\n'] else ['\n', '\n']) + entry;
    var body := Join(TrimLines(Split(raw, {'\n'})), '\n');
    if a.write.Refused? then (f, comments)
    else
      var id := if f.id.Some? then f.id else Some(a.newId);
      (if a.write.Accepted? then Fields(id, body) else f,
       if f.id.Some? then Updated(comments, f.id.value, body) else Created(comments, body, a))
  }

  function Created(comments: seq<Comment>, body: string, a: Answers): seq<Comment> {
    comments + (if a.twice then [Comment(a.firstId, body)] else []) + [Comment(a.newId, body)]
  }

  function Posted(f: Fields, comments: seq<Comment>, entry: string, a: Answers): (Fields, seq<Comment>) {
    if f.id.Some? then Written(f, comments, entry, a)
    else if !a.readOk then (f, comments)
    else Written(Located(f, comments), comments, entry, a)
  }

  class StatusLine {
    var id: Option<nat>
    var body: string

    function View(): Fields
      reads this
    {
      Fields(id, body)
    }

    constructor ()
      ensures View() == FRESH
    {
      id, body := None, "";
    }

    /** Post one entry; reading fails closed, writing fails open. */
    method Post(entry: string, comments: seq<Comment>, a: Answers) returns (after: seq<Comment>)
      modifies this
      ensures (View(), after) == Posted(old(View()), comments, entry, a)
    {
      hide Join, TrimLines, Split, LastOurs, Updated, Created, Stripped;
      after := comments;
      if id.None? {
        if !a.readOk {
          return;
        }
        match LastOurs(comments) {
          case Some(c) => id, body := Some(c.id), c.body;
          case None => body := HEADER + ['\n'];
        }
      }
      var next := Trim(Stripped(body) + (if id.Some? then ['\n'] else ['\n', '\n']) + entry);
      if a.write.Refused? {
        return;
      }
      after := if id.None? then Created(comments, next, a) else Updated(comments, id.value, next);
      if a.write.Accepted? {
        if id.None? {
          id := Some(a.newId);
        }
        body := next;
      }
    }
  }

  // The trimming.

  lemma {:induction false} JoinStep(a: string, rest: seq<string>)
    requires rest != []
    ensures Join([a] + rest, '\n') == a + ['\n'] + Join(rest, '\n')
  {
    assert ([a] + rest)[1..] == rest;
  }

  lemma RenderIsText(es: seq<string>)
    requires es != [] && Entries(es)
    ensures Render(es) == HEADER + ['\n', '\n'] + Join(es, '\n')
    ensures Split(Render(es), {'\n'}) == [HEADER, ""] + es
  {
    hide Join, Split;
    JoinStep("", es);
    JoinStep(HEADER, [""] + es);
    assert [HEADER] + ([""] + es) == [HEADER, ""] + es;
    HeaderIsFree();
    SplitJoin([HEADER, ""] + es, '\n');
  }

  lemma HeaderIsFree()
    ensures Free(HEADER, '\n') && Free("", '\n')
  {
  }

  lemma {:induction false} TrimKeeps(es: seq<string>)
    requires es != []
    ensures TrimLines([HEADER, ""] + es) == [HEADER, ""] + Keep(es)
    decreases |es|
  {
    hide Join;
    if |es| <= 1 {
    } else {
      var lines := [HEADER, ""] + es;
      assert lines[..2] + lines[3..] == [HEADER, ""] + es[1..];
      TrimKeeps(es[1..]);
    }
  }

  /** The kept entries are the longest suffix whose body fits, and at least the newest one. */
  lemma {:induction false} KeepIsLongestSuffix(es: seq<string>) returns (k: nat)
    requires es != []
    ensures k < |es| && Keep(es) == es[k..]
    ensures |Render(es[k..])| <= MAX_BODY || k == |es| - 1
    ensures forall j | 0 <= j < k :: |Render(es[j..])| > MAX_BODY
    decreases |es|
  {
    hide Render;
    if |es| <= 1 || |Render(es)| <= MAX_BODY {
      k := 0;
      assert es[0..] == es;
    } else {
      var i := KeepIsLongestSuffix(es[1..]);
      k := i + 1;
      assert es[1..][i..] == es[k..];
      forall j | 0 <= j < k
        ensures |Render(es[j..])| > MAX_BODY
      {
        if j > 0 {
          assert es[1..][j - 1..] == es[j..];
        } else {
          assert es[0..] == es;
        }
      }
    }
  }

  /** Trimming after every entry gives what trimming once at the end gives. */
  lemma {:induction false} KeepIncrementally(es: seq<string>, e: string)
    ensures Keep(Keep(es) + [e]) == Keep(es + [e])
    decreases |es|
  {
    if |es| <= 1 || |Render(es)| <= MAX_BODY {
    } else {
      KeepIncrementally(es[1..], e);
      assert (es + [e])[1..] == es[1..] + [e];
      LongerBody(es, e);
    }
  }

  lemma LongerBody(es: seq<string>, e: string)
    ensures |Render(es + [e])| > |Render(es)|
  {
    assert [HEADER, ""] + (es + [e]) == ([HEADER, ""] + es) + [e];
    JoinLonger([HEADER, ""] + es, e);
  }

  lemma {:induction false} JoinLonger(parts: seq<string>, e: string)
    requires parts != []
    ensures Join(parts + [e], '\n') == Join(parts, '\n') + ['\n'] + e
  {
    if |parts| == 1 {
      assert (parts + [e])[1..] == [e];
    } else {
      JoinLonger(parts[1..], e);
      assert (parts + [e])[1..] == parts[1..] + [e];
    }
  }

  lemma {:induction false} KeepEntries(es: seq<string>)
    requires es != [] && Entries(es)
    ensures Keep(es) != [] && Entries(Keep(es))
    decreases |es|
  {
    hide Render;
    if |es| <= 1 || |Render(es)| <= MAX_BODY {
    } else {
      KeepEntries(es[1..]);
    }
  }

  /** One more line on a body that shows `es`. */
  lemma NextBody(es: seq<string>, e: string)
    requires es != [] && Entries(es) && Entry(e)
    ensures
      var raw := Stripped(Render(es)) + ['\n'] + e;
      Join(TrimLines(Split(raw, {'\n'})), '\n') == Render(Keep(es + [e]))
  {
    hide Join, Split, TrimLines, Keep;
    RenderIsText(es);
    EndsInEntry(es);
    RenderIsText(es + [e]);
    assert Stripped(Render(es)) + ['\n'] + e == Render(es + [e]) by {
      assert [HEADER, ""] + (es + [e]) == ([HEADER, ""] + es) + [e];
      JoinLonger([HEADER, ""] + es, e);
    }
    TrimKeeps(es + [e]);
  }

  lemma EndsInEntry(es: seq<string>)
    requires es != [] && Entries(es)
    ensures Stripped(Render(es)) == Render(es)
  {
    LastChar([HEADER, ""] + es);
  }

  lemma {:induction false} LastChar(parts: seq<string>)
    requires parts != [] && Entry(parts[|parts| - 1])
    ensures
      var s, last := Join(parts, '\n'), parts[|parts| - 1];
      s != "" && s[|s| - 1] == last[|last| - 1] != '\n'
  {
    var last := parts[|parts| - 1];
    assert last[|last| - 1] in last;
    if |parts| == 1 {
    } else {
      LastChar(parts[1..]);
    }
  }

  lemma FirstBody(e: string)
    requires Entry(e)
    ensures
      var raw := Stripped(HEADER + ['\n']) + ['\n', '\n'] + e;
      Join(TrimLines(Split(raw, {'\n'})), '\n') == Render([e])
  {
    var body := HEADER + ['\n'];
    assert body[..|body| - 1] == HEADER && HEADER[|HEADER| - 1] != '\n';
    assert Stripped(body) == HEADER;
    hide Join, Split, TrimLines, Keep;
    RenderIsText([e]);
    assert Join([e], '\n') == e by {
      JoinOne(e);
    }
    TrimKeeps([e]);
    KeepOne(e);
  }

  lemma JoinOne(e: string)
    ensures Join([e], '\n') == e
  {
  }

  lemma KeepOne(e: string)
    ensures Keep([e]) == [e]
  {
  }

  // A whole history of posts, with a new conductor now and then.

  datatype Event = Post(entry: string, answers: Answers) | Restart

  function Step(f: Fields, comments: seq<Comment>, e: Event): (Fields, seq<Comment>) {
    match e
    case Post(entry, a) => Posted(f, comments, entry, a)
    case Restart => (FRESH, comments)
  }

  function StepAll(f: Fields, comments: seq<Comment>, events: seq<Event>): (Fields, seq<Comment>)
    decreases |events|
  {
    if events == [] then (f, comments)
    else
      var (g, after) := Step(f, comments, events[0]);
      StepAll(g, after, events[1..])
  }

  /** What the comment shows, what the next post builds on (None: it reads the comment first), and whether
      there is a second, stale status comment. */
  datatype Line = Line(shown: seq<string>, known: Option<seq<string>>, doubled: bool)

  const EMPTY := Line([], None, false)

  /** A post gets as far as its write. */
  predicate Writes(l: Line, e: Event) {
    e.Post? && (l.known.Some? || e.answers.readOk)
  }

  predicate Lands(l: Line, e: Event) {
    Writes(l, e) && !e.answers.write.Refused?
  }

  function Base(l: Line): seq<string> {
    if l.known.Some? then l.known.value else l.shown
  }

  /** The simple form of a step, on entries. */
  function LineStep(l: Line, e: Event): Line {
    if e.Restart? then l.(known := None)
    else if !Writes(l, e) then l
    else
      var located := if l.shown == [] then None else Some(Base(l));
      if !Lands(l, e) then l.(known := located)
      else
        var next := Base(l) + [e.entry];
        Line(next, if e.answers.write.Accepted? then Some(next) else located,
             l.doubled || (l.shown == [] && e.answers.twice))
  }

  function LineAll(l: Line, events: seq<Event>): Line
    decreases |events|
  {
    if events == [] then l else LineAll(LineStep(l, events[0]), events[1..])
  }

  /** Entries are single lines, and a created comment gets an id no comment has. */
  predicate Plausible(f: Fields, comments: seq<Comment>, events: seq<Event>)
    decreases |events|
  {
    events == [] ||
    var (g, after) := Step(f, comments, events[0]);
    && (events[0].Post? ==> Entry(events[0].entry) && NewIds(comments, events[0].answers))
    && Plausible(g, after, events[1..])
  }

  predicate NewIds(comments: seq<Comment>, a: Answers) {
    a.firstId != a.newId && forall c | c in comments :: c.id != a.newId && c.id != a.firstId
  }

  /** The last status comment is at `k`, and it shows `es`. */
  predicate ShowsAt(comments: seq<Comment>, es: seq<string>, k: nat) {
    && k < |comments| && IsOurs(comments[k]) && comments[k].body == Render(Keep(es))
    && (forall i | k < i < |comments| :: !IsOurs(comments[i]))
    && forall i | 0 <= i < |comments| && i != k :: comments[i].id != comments[k].id
  }

  /** How many status comments there are. */
  function Copies(comments: seq<Comment>): nat {
    if comments == [] then 0
    else Copies(comments[..|comments| - 1]) + if IsOurs(comments[|comments| - 1]) then 1 else 0
  }

  predicate LineOk(l: Line) {
    && Entries(l.shown) && (l.shown == [] ==> l.known.None? && !l.doubled)
    && (l.known.Some? ==> l.known.value != [] && Entries(l.known.value))
  }

  /** The object may build on what it knows. */
  predicate Builds(f: Fields, c: Comment, l: Line) {
    if l.known.Some? then f == Fields(Some(c.id), Render(Keep(l.known.value))) else f.id.None?
  }

  /** No status comment before the first write lands, then one, or two if that write landed twice; the last
      one shows the newest entries of the line that fit. */
  ghost predicate StatusOk(f: Fields, comments: seq<Comment>, l: Line) {
    && LineOk(l)
    && Copies(comments) == (if l.shown == [] then 0 else if l.doubled then 2 else 1)
    && if l.shown == [] then f.id.None?
       else exists k: nat :: ShowsAt(comments, l.shown, k) && Builds(f, comments[k], l)
  }

  lemma {:induction false} LastOursAt(comments: seq<Comment>, k: nat)
    requires k < |comments| && IsOurs(comments[k])
    requires forall i | k < i < |comments| :: !IsOurs(comments[i])
    ensures LastOurs(comments) == Some(comments[k])
  {
    if k == |comments| - 1 {
    } else {
      LastOursAt(comments[..|comments| - 1], k);
    }
  }

  lemma {:induction false} LastOursNone(comments: seq<Comment>)
    requires Copies(comments) == 0
    ensures LastOurs(comments) == None
  {
    if comments == [] {
    } else {
      LastOursNone(comments[..|comments| - 1]);
    }
  }

  lemma {:induction false} SameCopies(a: seq<Comment>, b: seq<Comment>)
    requires |a| == |b| && forall i | 0 <= i < |a| :: IsOurs(a[i]) == IsOurs(b[i])
    ensures Copies(a) == Copies(b)
  {
    hide IsOurs;
    if a == [] {
    } else {
      SameCopies(a[..|a| - 1], b[..|b| - 1]);
    }
  }

  lemma OneCopyMore(comments: seq<Comment>, c: Comment)
    requires IsOurs(c)
    ensures Copies(comments + [c]) == Copies(comments) + 1
  {
    assert (comments + [c])[..|comments|] == comments;
  }

  lemma OursStays(es: seq<string>, id: nat)
    requires es != [] && Entries(es)
    ensures IsOurs(Comment(id, Render(Keep(es))))
  {
    hide Keep;
    KeepEntries(es);
    RenderIsText(Keep(es));
  }

  /** An update leaves as many status comments, and the last one shows `next`. */
  lemma Updates(comments: seq<Comment>, es: seq<string>, k: nat, next: seq<string>)
    requires ShowsAt(comments, es, k) && next != [] && Entries(next)
    ensures
      var after := Updated(comments, comments[k].id, Render(Keep(next)));
      && ShowsAt(after, next, k) && after[k].id == comments[k].id && Copies(after) == Copies(comments)
  {
    hide Keep, Render, Entry, IsOurs, Copies;
    OursStays(next, comments[k].id);
    var after := Updated(comments, comments[k].id, Render(Keep(next)));
    forall i | 0 <= i < |comments|
      ensures after[i].id == comments[i].id && IsOurs(after[i]) == IsOurs(comments[i])
    {
      assert i != k ==> after[i] == comments[i];
    }
    SameCopies(comments, after);
  }

  lemma Creates(comments: seq<Comment>, e: string, a: Answers)
    requires Copies(comments) == 0 && Entry(e) && NewIds(comments, a)
    ensures
      var after := Created(comments, Render([e]), a);
      && |after| > 0 && ShowsAt(after, [e], |after| - 1) && after[|after| - 1].id == a.newId
      && Copies(after) == if a.twice then 2 else 1
  {
    KeepOne(e);
    OursStays([e], a.newId);
    OursStays([e], a.firstId);
    hide Keep, Render, Entry, IsOurs;
    var body := Render([e]);
    if a.twice {
      OneCopyMore(comments, Comment(a.firstId, body));
      OneCopyMore(comments + [Comment(a.firstId, body)], Comment(a.newId, body));
    } else {
      assert comments + [] == comments;
      OneCopyMore(comments, Comment(a.newId, body));
    }
  }

  /** The body a post that builds on `es` writes, if it lands. */
  lemma WritesNext(f: Fields, comments: seq<Comment>, es: seq<string>, entry: string, a: Answers)
    requires es != [] && Entries(es) && Entry(entry) && f.id.Some? && f.body == Render(Keep(es))
    ensures
      var body := Render(Keep(es + [entry]));
      Written(f, comments, entry, a) ==
        if a.write.Refused? then (f, comments)
        else (if a.write.Accepted? then Fields(f.id, body) else f, Updated(comments, f.id.value, body))
  {
    hide Keep, Render, TrimLines, Join, Split, Stripped, Updated;
    KeepEntries(es);
    NextBody(Keep(es), entry);
    KeepIncrementally(es, entry);
  }

  /** A post once there is a status comment. */
  lemma PostKeeps(f: Fields, comments: seq<Comment>, l: Line, entry: string, a: Answers)
    requires StatusOk(f, comments, l) && l.shown != [] && Entry(entry)
    ensures
      var (g, after) := Posted(f, comments, entry, a);
      StatusOk(g, after, LineStep(l, Post(entry, a)))
  {
    hide Keep, Render, Written, Updated, LastOurs, Entry, Copies;
    var k: nat :| ShowsAt(comments, l.shown, k) && Builds(f, comments[k], l);
    if Writes(l, Post(entry, a)) {
      LastOursAt(comments, k);
      var at := if f.id.Some? then f else Located(f, comments);
      var next := Base(l) + [entry];
      WritesNext(at, comments, Base(l), entry, a);
      Updates(comments, l.shown, k, next);
      var (g, after) := Posted(f, comments, entry, a);
      assert (g, after) == Written(at, comments, entry, a);
      assert ShowsAt(after, LineStep(l, Post(entry, a)).shown, k) && Builds(g, after[k], LineStep(l, Post(entry, a)));
    }
  }

  /** A post while there is none. */
  lemma FirstPostKeeps(f: Fields, comments: seq<Comment>, l: Line, entry: string, a: Answers)
    requires StatusOk(f, comments, l) && l.shown == [] && Entry(entry) && NewIds(comments, a)
    ensures
      var (g, after) := Posted(f, comments, entry, a);
      StatusOk(g, after, LineStep(l, Post(entry, a)))
  {
    hide Keep, Render, Updated, LastOurs, Entry, TrimLines, Split, Join, Stripped, Copies, Created;
    LastOursNone(comments);
    if Lands(l, Post(entry, a)) {
      FirstBody(entry);
      Creates(comments, entry, a);
      KeepOne(entry);
      assert [] + [entry] == [entry];
      var (g, after) := Posted(f, comments, entry, a);
      assert after == Created(comments, Render([entry]), a);
      var k := |after| - 1;
      assert ShowsAt(after, [entry], k) && Builds(g, after[k], LineStep(l, Post(entry, a)));
    }
  }

  lemma StepKeeps(f: Fields, comments: seq<Comment>, l: Line, e: Event)
    requires StatusOk(f, comments, l)
    requires e.Post? ==> Entry(e.entry) && NewIds(comments, e.answers)
    ensures
      var (g, after) := Step(f, comments, e);
      StatusOk(g, after, LineStep(l, e))
  {
    hide Posted, Keep, Render, Entry, Copies;
    if e.Restart? {
      if l.shown != [] {
        var k: nat :| ShowsAt(comments, l.shown, k) && Builds(f, comments[k], l);
        assert ShowsAt(comments, l.shown, k) && Builds(FRESH, comments[k], LineStep(l, e));
      }
    } else if l.shown == [] {
      FirstPostKeeps(f, comments, l, e.entry, e.answers);
    } else {
      PostKeeps(f, comments, l, e.entry, e.answers);
    }
  }

  /** Incremental equals batch. Whatever reads and writes fail, whatever replies are lost and however often
      the conductor restarts, the last status comment shows the longest suffix of the line that fits. */
  lemma {:induction false} CommentShowsTheTail(f: Fields, comments: seq<Comment>, l: Line, events: seq<Event>)
    requires StatusOk(f, comments, l) && Plausible(f, comments, events)
    ensures
      var (g, after) := StepAll(f, comments, events);
      StatusOk(g, after, LineAll(l, events))
    decreases |events|
  {
    hide Step, StatusOk, Entry, LineStep, NewIds;
    if events == [] {
    } else {
      var (g, after) := Step(f, comments, events[0]);
      StepKeeps(f, comments, l, events[0]);
      CommentShowsTheTail(g, after, LineStep(l, events[0]), events[1..]);
    }
  }

  // What is on the line.

  /** The entries whose write was answered, in order. */
  function Answered(l: Line, events: seq<Event>): seq<string>
    decreases |events|
  {
    if events == [] then []
    else AnsweredOne(l, events[0]) + Answered(LineStep(l, events[0]), events[1..])
  }

  function AnsweredOne(l: Line, e: Event): seq<string> {
    if Lands(l, e) && e.answers.write.Accepted? then [e.entry] else []
  }

  /** The entries whose write landed, answered or not, in order. */
  function Landed(l: Line, events: seq<Event>): seq<string>
    decreases |events|
  {
    if events == [] then [] else LandedOne(l, events[0]) + Landed(LineStep(l, events[0]), events[1..])
  }

  function LandedOne(l: Line, e: Event): seq<string> {
    if Lands(l, e) then [e.entry] else []
  }

  /** `a` is `b` with some entries left out. */
  predicate Within(a: seq<string>, b: seq<string>)
    decreases |b|
  {
    if b == [] then a == []
    else
      || Within(a, b[..|b| - 1])
      || (a != [] && a[|a| - 1] == b[|b| - 1] && Within(a[..|a| - 1], b[..|b| - 1]))
  }

  lemma WithinNext(a: seq<string>, b: seq<string>, e: string)
    requires Within(a, b)
    ensures Within(a, b + [e]) && Within(a + [e], b + [e])
  {
    assert (b + [e])[..|b|] == b && (a + [e])[..|a|] == a;
  }

  /** What stays between the answered and the landed entries. */
  predicate Between(l: Line, answered: seq<string>, landed: seq<string>) {
    && Within(answered, l.shown) && Within(l.shown, landed)
    && (l.known.Some? ==> Within(answered, l.known.value) && Within(l.known.value, landed))
  }

  lemma BetweenStep(l: Line, e: Event, answered: seq<string>, landed: seq<string>)
    requires Between(l, answered, landed) && LineOk(l)
    ensures Between(LineStep(l, e), answered + AnsweredOne(l, e), landed + LandedOne(l, e))
  {
    hide Within, Entries;
    assert answered + [] == answered && landed + [] == landed;
    if Lands(l, e) {
      WithinNext(answered, Base(l), e.entry);
      WithinNext(Base(l), landed, e.entry);
      if l.known.Some? {
        WithinNext(l.known.value, landed, e.entry);
      }
      WithinNext(l.shown, landed, e.entry);
    }
  }

  lemma LineStepOk(l: Line, e: Event)
    requires LineOk(l) && (e.Post? ==> Entry(e.entry))
    ensures LineOk(LineStep(l, e))
  {
    hide Entry;
  }

  /** No entry whose write was answered is ever lost from the line, and nothing is on it that was not
      written, all in the order of the posts. */
  lemma {:induction false} AnsweredStays(l: Line, events: seq<Event>, answered: seq<string>, landed: seq<string>)
    requires LineOk(l) && Between(l, answered, landed)
    requires forall i | 0 <= i < |events| && events[i].Post? :: Entry(events[i].entry)
    ensures Within(answered + Answered(l, events), LineAll(l, events).shown)
    ensures Within(LineAll(l, events).shown, landed + Landed(l, events))
    decreases |events|
  {
    hide Within, Entry, LineStep, LineOk, AnsweredOne, LandedOne;
    if events == [] {
      assert answered + [] == answered && landed + [] == landed;
    } else {
      var l', rest := LineStep(l, events[0]), events[1..];
      var more, further := answered + AnsweredOne(l, events[0]), landed + LandedOne(l, events[0]);
      BetweenStep(l, events[0], answered, landed);
      LineStepOk(l, events[0]);
      AnsweredStays(l', rest, more, further);
      assert answered + Answered(l, events) == more + Answered(l', rest);
      assert landed + Landed(l, events) == further + Landed(l', rest);
    }
  }

  /** If no reply is lost, exactly the written entries are on the line. */
  lemma {:induction false} NothingUnanswered(l: Line, events: seq<Event>)
    requires forall i | 0 <= i < |events| && events[i].Post? :: !events[i].answers.write.ReplyLost?
    requires l.known.Some? ==> l.known.value == l.shown
    ensures LineAll(l, events).shown == l.shown + Answered(l, events)
    decreases |events|
  {
    if events == [] {
    } else {
      var l' := LineStep(l, events[0]);
      NothingUnanswered(l', events[1..]);
      assert l.shown + Answered(l, events) == l.shown + AnsweredOne(l, events[0]) + Answered(l', events[1..]);
    }
  }

  /** The write that created the status comment. */
  function CreatedBy(l: Line, events: seq<Event>): Option<Answers>
    decreases |events|
  {
    if l.shown != [] || events == [] then None
    else if Lands(l, events[0]) then Some(events[0].answers)
    else CreatedBy(LineStep(l, events[0]), events[1..])
  }

  lemma {:induction false} DoubledStays(l: Line, events: seq<Event>)
    requires l.shown != []
    ensures LineAll(l, events).shown != [] && LineAll(l, events).doubled == l.doubled
    decreases |events|
  {
    if events == [] {
    } else {
      DoubledStays(LineStep(l, events[0]), events[1..]);
    }
  }

  /** There are two status comments exactly if the write that created it landed twice. */
  lemma {:induction false} SecondCommentIsARetry(l: Line, events: seq<Event>)
    requires LineOk(l) && l.shown == []
    requires forall i | 0 <= i < |events| && events[i].Post? :: Entry(events[i].entry)
    ensures
      var first := CreatedBy(l, events);
      && (LineAll(l, events).shown == [] <==> first.None?)
      && (LineAll(l, events).doubled <==> first.Some? && first.value.twice)
    decreases |events|
  {
    hide Entry;
    if events == [] {
    } else {
      LineStepOk(l, events[0]);
      if Lands(l, events[0]) {
        DoubledStays(LineStep(l, events[0]), events[1..]);
      } else {
        SecondCommentIsARetry(LineStep(l, events[0]), events[1..]);
      }
    }
  }

  /** A whole history, from a PRD without a status comment. */
  lemma StatusOfAHistory(comments: seq<Comment>, events: seq<Event>)
    requires Copies(comments) == 0 && Plausible(FRESH, comments, events)
    ensures
      var (g, after) := StepAll(FRESH, comments, events);
      var l, first := LineAll(EMPTY, events), CreatedBy(EMPTY, events);
      && Copies(after) == (if first.None? then 0 else if first.value.twice then 2 else 1)
      && Within(Answered(EMPTY, events), l.shown) && Within(l.shown, Landed(EMPTY, events))
      && (first.Some? ==> exists k: nat :: ShowsAt(after, l.shown, k))
  {
    assert StatusOk(FRESH, comments, EMPTY) && Within([], []);
    hide Plausible, LineAll, CreatedBy, Within, ShowsAt, Copies, Entry;
    CommentShowsTheTail(FRESH, comments, EMPTY, events);
    AllEntries(FRESH, comments, events);
    SecondCommentIsARetry(EMPTY, events);
    AnsweredStays(EMPTY, events, [], []);
    assert [] + Answered(EMPTY, events) == Answered(EMPTY, events);
    assert [] + Landed(EMPTY, events) == Landed(EMPTY, events);
  }

  lemma {:induction false} AllEntries(f: Fields, comments: seq<Comment>, events: seq<Event>)
    requires Plausible(f, comments, events)
    ensures forall i | 0 <= i < |events| && events[i].Post? :: Entry(events[i].entry)
    decreases |events|
  {
    hide Step, Entry, NewIds;
    if events == [] {
    } else {
      var (g, after) := Step(f, comments, events[0]);
      AllEntries(g, after, events[1..]);
      assert forall i | 0 < i < |events| :: events[i] == events[1..][i - 1];
    }
  }
}

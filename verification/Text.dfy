/** Strings as the conductor and its path guard use them: split at separators, join again. */
module Text {

  /** The pieces of `s` between characters of `seps`; always at least one piece, possibly empty. */
  function Split(s: string, seps: set<char>): (parts: seq<string>)
    ensures |parts| >= 1
    ensures forall p, c | p in parts && c in p :: c !in seps && c in s
  {
    if s == "" then [""]
    else
      var rest := Split(s[1..], seps);
      if s[0] in seps then [""] + rest else [[s[0]] + rest[0]] + rest[1..]
  }

  function Join(parts: seq<string>, sep: char): string {
    if parts == [] then ""
    else if |parts| == 1 then parts[0]
    else parts[0] + [sep] + Join(parts[1..], sep)
  }

  predicate Free(part: string, sep: char) {
    sep !in part
  }

  lemma {:induction false} SplitUnit(p: string, sep: char)
    requires Free(p, sep)
    ensures Split(p, {sep}) == [p]
  {
    if p != "" {
      assert p[0] in p && Free(p[1..], sep);
      SplitUnit(p[1..], sep);
      assert p == [p[0]] + p[1..];
    }
  }

  lemma {:induction false} SplitPrefix(p: string, rest: string, sep: char)
    requires Free(p, sep)
    ensures Split(p + [sep] + rest, {sep}) == [p] + Split(rest, {sep})
  {
    var s := p + [sep] + rest;
    if p == "" {
      assert s[1..] == rest;
    } else {
      assert p[0] in p && Free(p[1..], sep);
      SplitPrefix(p[1..], rest, sep);
      assert s[1..] == p[1..] + [sep] + rest;
      var later := Split(rest, {sep});
      assert ([p[1..]] + later)[1..] == later && p == [p[0]] + p[1..];
    }
  }

  /** Splitting a joined list gives the list back, when no piece holds the separator. */
  lemma {:induction false} SplitJoin(parts: seq<string>, sep: char)
    requires parts != [] && forall p | p in parts :: Free(p, sep)
    ensures Split(Join(parts, sep), {sep}) == parts
  {
    if |parts| == 1 {
      SplitUnit(parts[0], sep);
    } else {
      SplitPrefix(parts[0], Join(parts[1..], sep), sep);
      SplitJoin(parts[1..], sep);
    }
  }

  /** Joining the pieces of a string gives the string back. */
  lemma {:induction false} JoinSplit(s: string, sep: char)
    ensures Join(Split(s, {sep}), sep) == s
  {
    if s != "" {
      var rest := Split(s[1..], {sep});
      JoinSplit(s[1..], sep);
      if s[0] == sep {
        assert ([""] + rest)[1..] == rest;
      } else {
        var parts := [[s[0]] + rest[0]] + rest[1..];
        if |rest| > 1 {
          assert parts[1..] == rest[1..];
        }
      }
    }
  }

  // Any set of separators.

  function Concat(parts: seq<string>): string {
    if parts == [] then "" else parts[0] + Concat(parts[1..])
  }

  function Without(s: string, seps: set<char>): string {
    if s == "" then "" else (if s[0] in seps then "" else [s[0]]) + Without(s[1..], seps)
  }

  function CountOf(s: string, seps: set<char>): nat {
    if s == "" then 0 else (if s[0] in seps then 1 else 0) + CountOf(s[1..], seps)
  }

  /** Splitting loses nothing but the separators, and makes one piece more than there are of them. */
  lemma {:induction false} SplitMeaning(s: string, seps: set<char>)
    ensures Concat(Split(s, seps)) == Without(s, seps) && |Split(s, seps)| == CountOf(s, seps) + 1
  {
    if s == "" {
    } else {
      SplitMeaning(s[1..], seps);
      var rest := Split(s[1..], seps);
      if s[0] in seps {
        assert ([""] + rest)[1..] == rest;
      } else {
        assert ([[s[0]] + rest[0]] + rest[1..])[1..] == rest[1..];
      }
    }
  }
}

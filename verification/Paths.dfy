/** The path guard of a worker session: lexical folding, and which paths lie inside a root. */
module Paths {
  import opened Text

  // Folding.

  function Fold(stack: seq<string>, parts: seq<string>): seq<string>
    decreases |parts|
  {
    if parts == [] then stack
    else if parts[0] == "" || parts[0] == "." then Fold(stack, parts[1..])
    else if parts[0] == ".." then Fold(if stack == [] then [] else stack[..|stack| - 1], parts[1..])
    else Fold(stack + [parts[0]], parts[1..])
  }

  function Against(path: string, cwd: string): string {
    if path != "" && path[0] == '/' then path else cwd + "/" + path
  }

  function Path(parts: seq<string>): string {
    "/" + Join(parts, '/')
  }

  function Absolutely(path: string, cwd: string): string {
    Path(Fold([], Split(Against(path, cwd), {'/'})))
  }

  /** One pass over the components, pushing names and popping at each `..`. */
  method Absolute(path: string, cwd: string) returns (r: string)
    ensures r == Absolutely(path, cwd)
  {
    hide Split, Join;
    var pieces := Split(Against(path, cwd), {'/'});
    var parts := [];
    for k := 0 to |pieces|
      invariant Fold(parts, pieces[k..]) == Fold([], pieces)
    {
      var part := pieces[k];
      assert pieces[k..][1..] == pieces[k + 1..];
      if part == "" || part == "." {
        continue;
      }
      if part == ".." {
        if parts != [] {
          parts := parts[..|parts| - 1];
        }
      } else {
        parts := parts + [part];
      }
    }
    r := "/" + Join(parts, '/');
  }

  /** A path component that names something. */
  predicate Name(part: string) {
    part != "" && part != "." && part != ".." && Free(part, '/')
  }

  predicate Names(parts: seq<string>) {
    forall p | p in parts :: Name(p)
  }

  lemma {:induction false} FoldNames(stack: seq<string>, parts: seq<string>)
    requires Names(stack) && forall p | p in parts :: Free(p, '/')
    ensures Names(Fold(stack, parts))
    decreases |parts|
  {
    if parts == [] {
    } else {
      assert Free(parts[0], '/');
      if parts[0] == "" || parts[0] == "." {
        FoldNames(stack, parts[1..]);
      } else if parts[0] == ".." {
        FoldNames(if stack == [] then [] else stack[..|stack| - 1], parts[1..]);
      } else {
        FoldNames(stack + [parts[0]], parts[1..]);
      }
    }
  }

  lemma {:induction false} FoldOfNames(stack: seq<string>, parts: seq<string>)
    requires Names(parts)
    ensures Fold(stack, parts) == stack + parts
    decreases |parts|
  {
    if parts == [] {
    } else {
      assert Name(parts[0]);
      FoldOfNames(stack + [parts[0]], parts[1..]);
      assert stack + [parts[0]] + parts[1..] == stack + parts;
    }
  }

  lemma {:induction false} FoldAppend(stack: seq<string>, a: seq<string>, b: seq<string>)
    ensures Fold(stack, a + b) == Fold(Fold(stack, a), b)
    decreases |a|
  {
    if a == [] {
      assert a + b == b;
    } else {
      assert (a + b)[1..] == a[1..] + b;
      FoldAppend(if a[0] == "" || a[0] == "." then stack
                 else if a[0] == ".." then (if stack == [] then [] else stack[..|stack| - 1])
                 else stack + [a[0]], a[1..], b);
    }
  }

  /** With `FoldOfNames`, these laws determine the fold of every path: an empty or `.` component may be
      dropped anywhere, a name cancels with a `..` right after it, and `..` at the root stays there. */
  lemma FoldLaws(a: seq<string>, name: string, b: seq<string>)
    requires Name(name)
    ensures Fold([], a + [""] + b) == Fold([], a + b) && Fold([], a + ["."] + b) == Fold([], a + b)
    ensures Fold([], a + [name, ".."] + b) == Fold([], a + b)
    ensures Fold([], [".."] + b) == Fold([], b)
  {
    var at := Fold([], a);
    FoldOne(at, "", b);
    FoldOne(at, ".", b);
    FoldOne([], "..", b);
    FoldOne(at, name, [".."] + b);
    FoldOne(at + [name], "..", b);
    assert (at + [name])[..|at|] == at;
    assert [name, ".."] + b == [name] + ([".."] + b);
    hide Fold;
    FoldAppend([], a, b);
    FoldInside(a, [""], b);
    FoldInside(a, ["."], b);
    FoldInside(a, [name, ".."], b);
  }

  lemma FoldOne(stack: seq<string>, part: string, rest: seq<string>)
    ensures Fold(stack, [part] + rest) ==
      if part == "" || part == "." then Fold(stack, rest)
      else if part == ".." then Fold(if stack == [] then [] else stack[..|stack| - 1], rest)
      else Fold(stack + [part], rest)
  {
    assert ([part] + rest)[1..] == rest;
  }

  lemma FoldInside(a: seq<string>, middle: seq<string>, b: seq<string>)
    ensures Fold([], a + middle + b) == Fold(Fold([], a), middle + b)
  {
    assert a + middle + b == a + (middle + b);
    FoldAppend([], a, middle + b);
  }

  /** The components of a canonical path. */
  function Components(path: string): seq<string> {
    var parts := Split(path, {'/'});
    if path == "/" then [] else parts[1..]
  }

  ghost predicate Canonical(path: string) {
    exists parts :: Names(parts) && path == Path(parts)
  }

  /** A path splits into an empty first piece and its components (the root into two empty pieces). */
  lemma SplitPath(parts: seq<string>)
    requires Names(parts)
    ensures Split(Path(parts), {'/'}) == [""] + (if parts == [] then [""] else parts)
    ensures Components(Path(parts)) == parts && (parts == [] <==> Path(parts) == "/")
  {
    assert Path(parts) == "" + ['/'] + Join(parts, '/');
    SplitPrefix("", Join(parts, '/'), '/');
    if parts == [] {
      SplitUnit("", '/');
    } else {
      assert forall p | p in parts :: Name(p);
      SplitJoin(parts, '/');
      JoinNames(parts);
    }
  }

  lemma JoinNames(parts: seq<string>)
    requires Names(parts) && parts != []
    ensures Join(parts, '/') != ""
  {
    assert Name(parts[0]);
  }

  /** The result has no empty, `.` or `..` component. */
  lemma AbsoluteIsCanonical(path: string, cwd: string)
    ensures Canonical(Absolutely(path, cwd)) && Names(Components(Absolutely(path, cwd)))
  {
    hide Join;
    var pieces := Split(Against(path, cwd), {'/'});
    forall p | p in pieces
      ensures Free(p, '/')
    {
    }
    FoldNames([], pieces);
    SplitPath(Fold([], pieces));
  }

  /** Folding a folded path changes nothing, whatever it is folded against. */
  lemma AbsoluteOnce(path: string, cwd: string, other: string)
    ensures Absolutely(Absolutely(path, cwd), other) == Absolutely(path, cwd)
  {
    AbsoluteIsCanonical(path, cwd);
    var once := Absolutely(path, cwd);
    var parts :| Names(parts) && once == Path(parts);
    CanonicalStays(parts, other);
  }

  lemma CanonicalStays(parts: seq<string>, cwd: string)
    requires Names(parts)
    ensures Absolutely(Path(parts), cwd) == Path(parts)
  {
    SplitPath(parts);
    var pieces := Split(Path(parts), {'/'});
    assert Against(Path(parts), cwd) == Path(parts);
    assert pieces[0] == "" && Fold([], pieces) == Fold([], pieces[1..]);
    if parts == [] {
      assert pieces[1..] == [""] && pieces[1..][1..] == [];
    } else {
      assert pieces[1..] == parts;
      FoldOfNames([], parts);
      assert [] + parts == parts;
    }
  }

  // Inside a root.

  predicate IsInside(path: string, root: string) {
    var base := if root != "" && root[|root| - 1] == '/' then root[..|root| - 1] else root;
    path == base || base + "/" <= path
  }

  /** On canonical paths the string test says: the root's components begin the path's. */
  lemma InsideIsPrefix(path: seq<string>, root: seq<string>)
    requires Names(path) && Names(root)
    ensures IsInside(Path(path), Path(root)) <==> root <= path
  {
    if root == [] {
      assert Path(root)[..0] == "";
    } else {
      NoTrailingSlash(root);
      if root <= path {
        InsidePrefix(path, root);
      }
      if Path(path) == Path(root) {
        SplitPath(path);
        SplitPath(root);
      } else if Path(root) + "/" <= Path(path) {
        PrefixComponents(path, root);
      }
    }
  }

  lemma NoTrailingSlash(parts: seq<string>)
    requires Names(parts) && parts != []
    ensures Path(parts)[|Path(parts)| - 1] != '/'
  {
    LastPart(parts);
  }

  lemma {:induction false} LastPart(parts: seq<string>)
    requires Names(parts) && parts != []
    ensures Join(parts, '/') != "" && Join(parts, '/')[|Join(parts, '/')| - 1] != '/'
  {
    var last := parts[|parts| - 1];
    assert Name(last) && last[|last| - 1] in last;
    if |parts| == 1 {
    } else {
      assert forall p | p in parts[1..] :: p in parts;
      LastPart(parts[1..]);
    }
  }

  lemma {:induction false} JoinAppend(a: seq<string>, b: seq<string>)
    requires a != [] && b != []
    ensures Join(a + b, '/') == Join(a, '/') + "/" + Join(b, '/')
  {
    if |a| == 1 {
      assert (a + b)[1..] == b;
    } else {
      assert (a + b)[1..] == a[1..] + b;
      JoinAppend(a[1..], b);
    }
  }

  lemma InsidePrefix(path: seq<string>, root: seq<string>)
    requires Names(path) && Names(root) && root != [] && root <= path
    ensures Path(path) == Path(root) || Path(root) + "/" <= Path(path)
  {
    hide Join;
    var rest := path[|root|..];
    assert path == root + rest;
    if rest == [] {
      assert path == root;
    } else {
      JoinAppend(root, rest);
      assert Path(path) == Path(root) + "/" + Join(rest, '/');
    }
  }

  lemma PrefixComponents(path: seq<string>, root: seq<string>)
    requires Names(path) && Names(root) && root != [] && Path(root) + "/" <= Path(path)
    ensures root <= path
  {
    hide Join, Split;
    var rest := Path(path)[|Path(root)| + 1..];
    assert Path(path) == Path(root) + "/" + rest;
    SplitPath(path);
    SplitPath(root);
    SplitAppend(Path(root), rest);
    var pieces := Split(Path(path), {'/'});
    assert pieces == [""] + root + Split(rest, {'/'});
    assert pieces[1] == root[0] && Name(root[0]);
    assert path != [];
    assert path == pieces[1..] == root + Split(rest, {'/'});
  }

  /** Splitting at a separator splits both sides. */
  lemma {:induction false} SplitAppend(a: string, b: string)
    ensures Split(a + "/" + b, {'/'}) == Split(a, {'/'}) + Split(b, {'/'})
  {
    var s := a + "/" + b;
    if a == "" {
      assert s[1..] == b;
    } else {
      assert s[1..] == a[1..] + "/" + b && s[0] == a[0];
      SplitAppend(a[1..], b);
      SplitFirst(a);
      SplitFirst(s);
      hide Split;
      Prepended(a[0], Split(a[1..], {'/'}), Split(b, {'/'}));
    }
  }

  /** A character in front of split pieces. */
  function Prepend(c: char, pieces: seq<string>): seq<string>
    requires pieces != []
  {
    if c == '/' then [""] + pieces else [[c] + pieces[0]] + pieces[1..]
  }

  lemma SplitFirst(s: string)
    requires s != ""
    ensures Split(s, {'/'}) == Prepend(s[0], Split(s[1..], {'/'}))
  {
  }

  lemma Prepended(c: char, first: seq<string>, second: seq<string>)
    requires first != []
    ensures Prepend(c, first + second) == Prepend(c, first) + second
  {
    assert (first + second)[1..] == first[1..] + second;
  }

  /** What a path is resolved to: an absolute one by itself, any other one from the working directory on. */
  lemma AbsoluteMeaning(path: string, cwd: seq<string>)
    requires Names(cwd)
    ensures Absolutely(path, Path(cwd)) ==
      if path != "" && path[0] == '/' then "/" + Join(Fold([], Split(path, {'/'})), '/')
      else "/" + Join(Fold(cwd, Split(path, {'/'})), '/')
  {
    hide Split, Join;
    if path != "" && path[0] == '/' {
    } else {
      var pieces := Split(path, {'/'});
      SplitAppend(Path(cwd), path);
      SplitPath(cwd);
      var names := if cwd == [] then [""] else cwd;
      assert Split(Against(path, Path(cwd)), {'/'}) == [""] + names + pieces;
      FoldNamesFirst(cwd, pieces);
    }
  }

  lemma FoldNamesFirst(cwd: seq<string>, pieces: seq<string>)
    requires Names(cwd)
    ensures Fold([], [""] + (if cwd == [] then [""] else cwd) + pieces) == Fold(cwd, pieces)
  {
    var names := if cwd == [] then [""] else cwd;
    assert [""] + names + pieces == [""] + (names + pieces);
    FoldOne([], "", names + pieces);
    if cwd == [] {
      FoldOne([], "", pieces);
    } else {
      FoldAppend([], cwd, pieces);
      FoldOfNames([], cwd);
      assert [] + cwd == cwd;
    }
  }

  // What a session may write.

  predicate IsControl(c: char) {
    c <= '\U{1f}' || c == '\U{7f}' || c == '\U{2028}' || c == '\U{2029}'
  }

  const MANIFESTS: set<string> := {
    "package.json", "package-lock.json", "pnpm-lock.yaml", "yarn.lock",
    "pyproject.toml", "poetry.lock", "Pipfile", "Pipfile.lock", "setup.py", "setup.cfg",
    "go.mod", "go.sum", "Cargo.toml", "Cargo.lock", "Gemfile", "Gemfile.lock",
    "composer.json", "composer.lock"}

  predicate IsWord(c: char) {
    '0' <= c <= '9' || 'a' <= c <= 'z' || 'A' <= c <= 'Z' || c == '_'
  }

  /** `requirements.txt`, also with a suffix such as `-dev` or `.in`. */
  predicate IsRequirements(name: string) {
    && "requirements" <= name && |name| >= 16 && name[|name| - 4..] == ".txt"
    && var middle := name[12..|name| - 4];
       middle == "" || (middle[0] in {'-', '.'} && forall c | c in middle :: IsWord(c) || c in {'-', '.'})
  }

  /** What may stand between `requirements` and `.txt`. */
  predicate IsSuffix(middle: string) {
    middle == "" || (middle[0] in {'-', '.'} && forall c | c in middle[1..] :: IsWord(c) || c in {'-', '.'})
  }

  lemma MiddleOf(name: string, middle: string)
    requires name == "requirements" + middle + ".txt"
    ensures IsRequirements(name) <==> IsSuffix(middle)
  {
    hide IsWord;
    assert name[12..|name| - 4] == middle;
    if middle != "" {
      assert middle == [middle[0]] + middle[1..];
    }
  }

  /** As a shape: nothing, or a `-` or `.` and then word characters, `.` and `-`, before the `.txt`. */
  lemma RequirementsShape(name: string)
    ensures IsRequirements(name) <==>
      exists middle :: name == "requirements" + middle + ".txt" && IsSuffix(middle)
  {
    if IsRequirements(name) {
      var middle := name[12..|name| - 4];
      assert name == "requirements" + middle + ".txt";
      MiddleOf(name, middle);
    }
    hide IsRequirements, IsSuffix;
    if middle :| name == "requirements" + middle + ".txt" && IsSuffix(middle) {
      MiddleOf(name, middle);
    }
  }

  predicate IsManifest(name: string) {
    name in MANIFESTS || IsRequirements(name)
  }

  predicate Contains(s: string, t: string) {
    exists i | 0 <= i <= |s| :: t <= s[i..]
  }

  predicate EndsWith(s: string, t: string) {
    |t| <= |s| && s[|s| - |t|..] == t
  }

  /** What follows the last slash. */
  function BaseName(path: string): string {
    if path != "" && path[|path| - 1] != '/' then BaseName(path[..|path| - 1]) + [path[|path| - 1]] else ""
  }

  datatype Refusal = ControlCharacter | OutsideRoots | Metadata | Manifest | NotRefused

  function CheckWrite(path: string, roots: seq<string>, allowManifests: bool): Refusal {
    if exists c | c in path :: IsControl(c) then ControlCharacter
    else if !exists i | 0 <= i < |roots| :: IsInside(path, roots[i]) then OutsideRoots
    else if Contains(path, "/.git/") || EndsWith(path, "/.git") then Metadata
    else if !allowManifests && IsManifest(BaseName(path)) then Manifest
    else NotRefused
  }

  /** A root and the components of a path inside it. */
  predicate InsideSome(path: seq<string>, roots: seq<seq<string>>) {
    exists i | 0 <= i < |roots| :: roots[i] <= path
  }

  function Written(roots: seq<seq<string>>): (r: seq<string>)
    ensures |r| == |roots| && forall i | 0 <= i < |r| :: r[i] == Path(roots[i])
  {
    seq(|roots|, i requires 0 <= i < |roots| => Path(roots[i]))
  }

  /** On resolved paths the string tests mean what they say of the components: a write is let through
      exactly inside a root, outside `.git`, without control characters, and off the manifests. */
  lemma CheckWriteMeaning(path: seq<string>, roots: seq<seq<string>>, allowManifests: bool)
    requires Names(path) && forall i | 0 <= i < |roots| :: Names(roots[i])
    ensures CheckWrite(Path(path), Written(roots), allowManifests) == NotRefused <==>
      && (forall c | c in Path(path) :: !IsControl(c))
      && InsideSome(path, roots) && ".git" !in path
      && (path == [] || allowManifests || !IsManifest(path[|path| - 1]))
  {
    hide Path, IsInside, IsControl, IsManifest, BaseName, Contains, EndsWith;
    forall i | 0 <= i < |roots|
      ensures IsInside(Path(path), Written(roots)[i]) <==> roots[i] <= path
    {
      InsideIsPrefix(path, roots[i]);
    }
    assert (exists i | 0 <= i < |roots| :: IsInside(Path(path), Written(roots)[i])) <==> InsideSome(path, roots);
    GitInPath(path);
    LastName(path);
    NoNameNoManifest();
  }

  /** And a refusal names the first of these that is violated, in this order. */
  lemma WhyRefused(path: seq<string>, roots: seq<seq<string>>, allowManifests: bool)
    requires Names(path) && forall i | 0 <= i < |roots| :: Names(roots[i])
    ensures
      var why := CheckWrite(Path(path), Written(roots), allowManifests);
      && (why == ControlCharacter <==> exists c | c in Path(path) :: IsControl(c))
      && (why == OutsideRoots ==> !InsideSome(path, roots))
      && (why == Metadata ==> InsideSome(path, roots) && ".git" in path)
      && (why == Manifest ==>
            && InsideSome(path, roots) && ".git" !in path && path != [] && !allowManifests
            && IsManifest(path[|path| - 1]))
  {
    hide Path, IsInside, IsControl, IsManifest, BaseName, Contains, EndsWith;
    forall i | 0 <= i < |roots|
      ensures IsInside(Path(path), Written(roots)[i]) <==> roots[i] <= path
    {
      InsideIsPrefix(path, roots[i]);
    }
    assert (exists i | 0 <= i < |roots| :: IsInside(Path(path), Written(roots)[i])) <==> InsideSome(path, roots);
    GitInPath(path);
    LastName(path);
    NoNameNoManifest();
  }

  lemma NoNameNoManifest()
    ensures !IsManifest("")
  {
  }

  lemma {:induction false} BaseNameOf(front: string, name: string)
    requires Free(name, '/') && (front == "" || front[|front| - 1] == '/')
    ensures BaseName(front + name) == name
    decreases |name|
  {
    var s := front + name;
    if name == "" {
      assert s == front;
    } else {
      var shorter := name[..|name| - 1];
      assert name[|name| - 1] in name;
      assert s[..|s| - 1] == front + shorter && name == shorter + [name[|name| - 1]];
      assert Free(shorter, '/');
      BaseNameOf(front, shorter);
    }
  }

  lemma LastName(path: seq<string>)
    requires Names(path)
    ensures BaseName(Path(path)) == if path == [] then "" else path[|path| - 1]
  {
    hide BaseName;
    if path == [] {
      assert Path(path) == "/" + "";
      BaseNameOf("/", "");
    } else {
      var last := path[|path| - 1];
      assert Name(last);
      if |path| == 1 {
        assert Path(path) == "/" + last;
        BaseNameOf("/", last);
      } else {
        assert path == path[..|path| - 1] + [last];
        JoinAppend(path[..|path| - 1], [last]);
        var front := "/" + Join(path[..|path| - 1], '/') + "/";
        assert Path(path) == front + last;
        BaseNameOf(front, last);
      }
    }
  }

  /** `/.git/` inside, or `/.git` at the end: a component named `.git`. */
  lemma GitInPath(path: seq<string>)
    requires Names(path)
    ensures Contains(Path(path), "/.git/") || EndsWith(Path(path), "/.git") <==> ".git" in path
  {
    hide Path, Split;
    SplitPath(path);
    if Contains(Path(path), "/.git/") {
      var s := Path(path);
      var i :| 0 <= i <= |s| && "/.git/" <= s[i..];
      GitBetween(s[..i], s[i + 6..]);
      assert s == s[..i] + "/.git/" + s[i + 6..];
    }
    if EndsWith(Path(path), "/.git") {
      var s := Path(path);
      GitAtEnd(s[..|s| - 5]);
      assert s == s[..|s| - 5] + "/.git";
    }
    if ".git" in path {
      var k :| 0 <= k < |path| && path[k] == ".git";
      GitFound(path, k);
    }
  }

  lemma GitBetween(a: string, b: string)
    ensures ".git" in Split(a + "/.git/" + b, {'/'})
  {
    hide Split;
    assert a + "/.git/" + b == a + "/" + (".git" + "/" + b);
    SplitAppend(a, ".git" + "/" + b);
    SplitAppend(".git", b);
    SplitUnit(".git", '/');
  }

  lemma GitAtEnd(a: string)
    ensures ".git" in Split(a + "/.git", {'/'})
  {
    hide Split;
    assert a + "/.git" == a + "/" + ".git";
    SplitAppend(a, ".git");
    SplitUnit(".git", '/');
  }

  lemma GitFound(path: seq<string>, k: nat)
    requires Names(path) && k < |path| && path[k] == ".git"
    ensures Contains(Path(path), "/.git/") || EndsWith(Path(path), "/.git")
  {
    var front, back := path[..k], path[k + 1..];
    assert path == front + [".git"] + back;
    var before := if k == 0 then "" else "/" + Join(front, '/');
    assert Path(front + [".git"]) == before + "/.git" by {
      if k > 0 {
        JoinAppend(front, [".git"]);
      } else {
        assert front + [".git"] == [".git"];
      }
    }
    var s := Path(path);
    if back == [] {
      assert path == front + [".git"];
    } else {
      JoinAppend(front + [".git"], back);
      assert s == before + "/.git" + "/" + Join(back, '/');
      assert "/.git/" <= s[|before|..];
    }
  }
}

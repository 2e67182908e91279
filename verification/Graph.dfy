/** The blocker graph of a PRD: cycles, the frontier, and who waits on a halted ticket. */
module Graph {
  import opened Wrappers
  import opened Board
  import opened Sorting

  /** A blocker or a ticket is keyed by repository and number. */
  datatype Key = Key(repo: string, number: nat)

  datatype Issue = Issue(number: nat, repo: string, labels: set<Label>, open: bool) {
    function KeyOf(): Key {
      Key(repo, number)
    }
  }

  datatype Blocker = Blocker(repo: string, number: nat, open: bool) {
    function KeyOf(): Key {
      Key(repo, number)
    }
  }

  type Blockers = map<nat, seq<Blocker>>

  function BlockersOf(blockers: Blockers, n: nat): seq<Blocker> {
    if n in blockers then blockers[n] else []
  }

  /** The ticket with a key, if it is one of the PRD's; the last one listed wins. */
  function Lookup(tickets: seq<Issue>, k: Key): (r: Option<Issue>)
    ensures r.None? <==> forall t | t in tickets :: t.KeyOf() != k
    ensures r.Some? ==> r.value in tickets && r.value.KeyOf() == k
  {
    if tickets == [] then None
    else
      var last := tickets[|tickets| - 1];
      assert tickets == tickets[..|tickets| - 1] + [last];
      if last.KeyOf() == k then Some(last) else Lookup(tickets[..|tickets| - 1], k)
  }

  lemma {:induction false} LastWins(tickets: seq<Issue>, k: Key, i: nat)
    requires i < |tickets| && tickets[i].KeyOf() == k && forall j | i < j < |tickets| :: tickets[j].KeyOf() != k
    ensures Lookup(tickets, k) == Some(tickets[i])
  {
    if i == |tickets| - 1 {
    } else {
      LastWins(tickets[..|tickets| - 1], k, i);
    }
  }

  function InPrd(tickets: seq<Issue>, bs: seq<Blocker>): (r: seq<nat>)
    ensures forall m :: m in r <==> exists b | b in bs :: b.number == m && Lookup(tickets, b.KeyOf()).Some?
  {
    if bs == [] then []
    else
      assert forall b :: b in bs <==> b == bs[0] || b in bs[1..];
      (if Lookup(tickets, bs[0].KeyOf()).Some? then [bs[0].number] else []) + InPrd(tickets, bs[1..])
  }

  type Edges = map<nat, seq<nat>>

  function EdgesOf(tickets: seq<Issue>, blockers: Blockers): Edges {
    map n | n in (set t | t in tickets :: t.number) :: InPrd(tickets, BlockersOf(blockers, n))
  }

  predicate ClosedEdges(edges: Edges) {
    forall n, m | n in edges && m in edges[n] :: m in edges
  }

  /** `m` is an edge of `n` exactly if both are tickets and `m` is the number of a blocker of `n` that is one of
      the tickets, repository and number. */
  lemma EdgeMeaning(tickets: seq<Issue>, blockers: Blockers, n: nat, m: nat)
    ensures
      var edges := EdgesOf(tickets, blockers);
      n in edges && m in edges[n] <==>
        && (exists t | t in tickets :: t.number == n)
        && exists b | b in BlockersOf(blockers, n) :: b.number == m && exists t | t in tickets :: t.KeyOf() == b.KeyOf()
  {
  }

  lemma EdgesAreClosed(tickets: seq<Issue>, blockers: Blockers)
    ensures ClosedEdges(EdgesOf(tickets, blockers))
  {
    var edges := EdgesOf(tickets, blockers);
    forall n, m | n in edges && m in edges[n]
      ensures m in edges
    {
      var b :| b in BlockersOf(blockers, n) && b.number == m && Lookup(tickets, b.KeyOf()).Some?;
      var t := Lookup(tickets, b.KeyOf()).value;
      assert t in tickets && t.number == m;
    }
  }

  function After(c: seq<nat>, i: nat): nat
    requires i < |c|
  {
    if i + 1 < |c| then c[i + 1] else c[0]
  }

  /** Consecutive elements are edges, and so is the step from the last one back to the first. */
  predicate IsCycle(edges: Edges, c: seq<nat>) {
    && c != []
    && (forall i | 0 <= i < |c| :: c[i] in edges)
    && (forall i | 0 <= i < |c| :: After(c, i) in edges[c[i]])
  }

  ghost predicate Acyclic(edges: Edges) {
    forall c :: !IsCycle(edges, c)
  }

  predicate Linked(edges: Edges, path: seq<nat>, i: nat) {
    i + 1 < |path| && path[i] in edges && path[i + 1] in edges[path[i]]
  }

  predicate IsWalk(edges: Edges, path: seq<nat>) {
    (forall n | n in path :: n in edges) && forall i: nat | i + 1 < |path| :: Linked(edges, path, i)
  }

  /** The nodes in an order in which every edge points backwards. */
  predicate Finished(edges: Edges, order: seq<nat>) {
    && (forall i | 0 <= i < |order| :: order[i] in edges)
    && forall i, m | 0 <= i < |order| && m in edges[order[i]] :: m in order[..i]
  }

  lemma LeastOf(order: seq<nat>, c: seq<nat>) returns (k: nat, i: nat)
    requires c != [] && forall x | x in c :: x in order
    ensures k < |order| && i < |c| && c[i] == order[k]
    ensures forall x | x in c :: x !in order[..k]
  {
    assert c[0] in order;
    k := 0;
    while order[k] !in c
      invariant k < |order|
      invariant forall j | 0 <= j < k :: order[j] !in c
      decreases |order| - k
    {
      if k + 1 == |order| {
        var j :| 0 <= j < |order| && order[j] == c[0];
        assert false;
      }
      k := k + 1;
    }
    i :| 0 <= i < |c| && c[i] == order[k];
  }

  lemma FinishedBackwards(edges: Edges, order: seq<nat>, c: seq<nat>, k: nat, i: nat)
    requires Finished(edges, order) && IsCycle(edges, c)
    requires k < |order| && i < |c| && c[i] == order[k]
    ensures After(c, i) in c && After(c, i) in order[..k]
  {
  }

  /** Finished nodes lie on no cycle: the one finished first would have its successor before it. */
  lemma AllFinished(edges: Edges, order: seq<nat>)
    requires Finished(edges, order) && forall n | n in edges :: n in order
    ensures Acyclic(edges)
  {
    forall c
      ensures !IsCycle(edges, c)
    {
      if IsCycle(edges, c) {
        forall x | x in c
          ensures x in order
        {
          assert x in edges;
        }
        var k, i := LeastOf(order, c);
        FinishedBackwards(edges, order, c, k, i);
      }
    }
  }

  function Ascending(xs: seq<nat>): (r: seq<nat>)
    ensures forall x :: x in r <==> x in xs
  {
    SortKeeps(xs, AtMost);
    SortBy(xs, AtMost)
  }

  function IndexOf(path: seq<nat>, n: nat): (i: nat)
    requires n in path
    ensures i < |path| && path[i] == n
  {
    if path[0] == n then 0 else IndexOf(path[1..], n) + 1
  }

  /** A walk that steps back onto itself closes a cycle. */
  lemma ClosesCycle(edges: Edges, path: seq<nat>, n: nat)
    requires IsWalk(edges, path) && NoRepeats(path) && n in path && n in edges[path[|path| - 1]]
    ensures IsCycle(edges, path[IndexOf(path, n)..]) && NoRepeats(path[IndexOf(path, n)..])
  {
    var start := IndexOf(path, n);
    SuffixNoRepeats(path, start);
    var cycle := path[start..];
    assert |cycle| > 0 && forall i | 0 <= i < |cycle| :: cycle[i] == path[start + i];
    forall i | 0 <= i < |cycle|
      ensures cycle[i] in edges && After(cycle, i) in edges[cycle[i]]
    {
      hide NoRepeats;
      if start + i + 1 < |path| {
        assert Linked(edges, path, start + i);
      }
    }
  }

  lemma SuffixNoRepeats(path: seq<nat>, start: nat)
    requires NoRepeats(path) && start <= |path|
    ensures NoRepeats(path[start..])
  {
    var rest := path[start..];
    forall i, j | 0 <= i < j < |rest|
      ensures rest[i] != rest[j]
    {
      assert rest[i] == path[start + i] && rest[j] == path[start + j];
    }
  }

  /** How many nodes a walk has not visited. */
  function Unvisited(edges: Edges, path: seq<nat>): nat {
    |edges.Keys - set p | p in path|
  }

  lemma UnvisitedShrinks(edges: Edges, path: seq<nat>, n: nat)
    requires n in edges && n !in path
    ensures Unvisited(edges, path + [n]) < Unvisited(edges, path)
  {
    var before := edges.Keys - set p | p in path;
    var after := edges.Keys - set p | p in path + [n];
    assert after == before - {n} && n in before;
  }

  lemma AppendNoRepeats(path: seq<nat>, n: nat)
    requires NoRepeats(path) && n !in path
    ensures NoRepeats(path + [n])
  {
  }

  lemma WalkGrows(edges: Edges, path: seq<nat>, n: nat)
    requires IsWalk(edges, path) && NoRepeats(path) && (path != [] ==> n in edges[path[|path| - 1]])
    requires n in edges && n !in path
    ensures IsWalk(edges, path + [n]) && NoRepeats(path + [n])
    ensures Unvisited(edges, path + [n]) < Unvisited(edges, path)
  {
    UnvisitedShrinks(edges, path, n);
    AppendNoRepeats(path, n);
    hide Unvisited, NoRepeats;
    var more := path + [n];
    forall i: nat | i + 1 < |more|
      ensures Linked(edges, more, i)
    {
      if i + 1 < |path| {
        assert Linked(edges, path, i);
      }
      assert more[i] == path[i];
    }
  }

  lemma FinishNode(edges: Edges, order: seq<nat>, n: nat)
    requires Finished(edges, order) && n in edges && forall m | m in edges[n] :: m in order
    ensures Finished(edges, order + [n])
  {
    var more := order + [n];
    forall i, m | 0 <= i < |more| && m in edges[more[i]]
      ensures m in more[..i]
    {
      assert more[..i] == order[..i];
    }
  }

  /** The depth-first search: `done` is shared by every visit, `order` is the order they ended in. */
  class CycleSearch {
    const edges: Edges
    var done: set<nat>
    ghost var order: seq<nat>

    ghost predicate Valid()
      reads this
    {
      ClosedEdges(edges) && Finished(edges, order) && forall n :: n in done <==> n in order
    }

    constructor (edges: Edges)
      requires ClosedEdges(edges)
      ensures Valid() && this.edges == edges && done == {}
    {
      this.edges := edges;
      done := {};
      order := [];
    }

    /** `path` is the duplicate-free walk to `node`; it grows with every call, so the search ends. */
    method Visit(node: nat, path: seq<nat>) returns (cycle: seq<nat>)
      requires Valid() && node in edges
      requires IsWalk(edges, path) && NoRepeats(path) && (path != [] ==> node in edges[path[|path| - 1]])
      modifies this
      ensures Valid() && old(done) <= done
      ensures forall p | p in path :: p in done ==> p in old(done)
      ensures cycle != [] ==> IsCycle(edges, cycle) && NoRepeats(cycle)
      ensures cycle == [] ==> node in done
      decreases Unvisited(edges, path)
    {
      hide IsCycle, IsWalk, Unvisited, Finished;
      if node in path {
        ClosesCycle(edges, path, node);
        return path[IndexOf(path, node)..];
      }
      if node in done {
        return [];
      }
      var more := path + [node];
      WalkGrows(edges, path, node);
      var next := Ascending(edges[node]);
      for k := 0 to |next|
        invariant Valid() && old(done) <= done
        invariant forall p | p in more :: p in done ==> p in old(done)
        invariant forall j | 0 <= j < k :: next[j] in done
      {
        assert next[k] in edges[node];
        cycle := Visit(next[k], more);
        if cycle != [] {
          return;
        }
      }
      assert node in more;
      assert forall m | m in edges[node] :: m in next && m in done;
      FinishNode(edges, order, node);
      done := done + {node};
      order := order + [node];
      return [];
    }
  }

  lemma EdgeNodes(tickets: seq<Issue>, blockers: Blockers)
    ensures forall n :: n in NumbersOf(tickets) <==> n in EdgesOf(tickets, blockers)
  {
  }

  lemma NotAcyclic(edges: Edges, cycle: seq<nat>)
    requires IsCycle(edges, cycle)
    ensures !Acyclic(edges)
  {
  }

  /** A simple cycle of the blocker graph; none exactly when that graph is acyclic. */
  method FindCycle(tickets: seq<Issue>, blockers: Blockers) returns (cycle: seq<nat>)
    ensures cycle == [] <==> Acyclic(EdgesOf(tickets, blockers))
    ensures cycle != [] ==> IsCycle(EdgesOf(tickets, blockers), cycle) && NoRepeats(cycle)
  {
    hide IsCycle, Acyclic, Finished, EdgesOf, ClosedEdges, NumbersOf;
    var edges := EdgesOf(tickets, blockers);
    EdgesAreClosed(tickets, blockers);
    var search := new CycleSearch(edges);
    var numbers := NumbersOf(tickets);
    EdgeNodes(tickets, blockers);
    var nodes := Ascending(numbers);
    for k := 0 to |nodes|
      invariant search.Valid() && search.edges == edges
      invariant forall j | 0 <= j < k :: nodes[j] in search.done
    {
      assert nodes[k] in numbers;
      cycle := search.Visit(nodes[k], []);
      if cycle != [] {
        NotAcyclic(edges, cycle);
        return;
      }
    }
    forall n | n in edges
      ensures n in search.order
    {
      assert n in nodes;
    }
    AllFinished(edges, search.order);
    return [];
  }

  /** The numbers of the tickets, each once. */
  function NumbersOf(tickets: seq<Issue>): (r: seq<nat>)
    ensures forall n :: n in r <==> exists t | t in tickets :: t.number == n
  {
    if tickets == [] then []
    else
      var last := tickets[|tickets| - 1];
      assert tickets == tickets[..|tickets| - 1] + [last];
      var rest := NumbersOf(tickets[..|tickets| - 1]);
      if last.number in rest then rest else rest + [last.number]
  }

  /** Satisfied: integrated or closed inside the PRD, closed outside it. */
  predicate Satisfied(b: Blocker, tickets: seq<Issue>) {
    var ticket := Lookup(tickets, b.KeyOf());
    if ticket.None? then !b.open else Integrated in ticket.value.labels || !ticket.value.open
  }

  predicate IsReady(t: Issue, tickets: seq<Issue>, blockers: Blockers) {
    Queued in t.labels && t.open && forall b | b in BlockersOf(blockers, t.number) :: Satisfied(b, tickets)
  }

  function ReadyIn(some: seq<Issue>, tickets: seq<Issue>, blockers: Blockers): (r: seq<Issue>)
    ensures forall t :: t in r <==> t in some && IsReady(t, tickets, blockers)
  {
    if some == [] then []
    else
      assert forall t :: t in some <==> t == some[0] || t in some[1..];
      (if IsReady(some[0], tickets, blockers) then [some[0]] else []) + ReadyIn(some[1..], tickets, blockers)
  }

  /** The order of the frontier: ascending numbers, but every hitl-arch ticket after all others. */
  predicate PickBefore(a: Issue, b: Issue) {
    var x, y := HitlArch in a.labels, HitlArch in b.labels;
    (!x && y) || (x == y && a.number <= b.number)
  }

  /** The frontier. */
  function Dispatchable(tickets: seq<Issue>, blockers: Blockers): seq<Issue> {
    SortBy(ReadyIn(tickets, tickets, blockers), PickBefore)
  }

  lemma DispatchableMeaning(tickets: seq<Issue>, blockers: Blockers)
    ensures forall t :: t in Dispatchable(tickets, blockers) <==> t in tickets && IsReady(t, tickets, blockers)
    ensures Ordered(Dispatchable(tickets, blockers), PickBefore)
  {
    SortKeeps(ReadyIn(tickets, tickets, blockers), PickBefore);
    SortOrdered(ReadyIn(tickets, tickets, blockers), PickBefore);
  }

  /** A ticket is on the frontier exactly if it is listed, open and queued and every blocker is done: a blocker
      inside the PRD is integrated or closed, one outside it is closed. Tickets with the architecture flag
      come after all others, and otherwise lower numbers first. */
  lemma FrontierMeaning(tickets: seq<Issue>, blockers: Blockers)
    ensures
      var frontier := Dispatchable(tickets, blockers);
      && (forall t :: t in frontier <==>
            && t in tickets && t.open && Queued in t.labels
            && forall b | b in BlockersOf(blockers, t.number) ::
                 match Lookup(tickets, b.KeyOf())
                 case Some(x) => Integrated in x.labels || !x.open
                 case None => !b.open)
      && (forall i, j | 0 <= i < j < |frontier| ::
            if HitlArch in frontier[i].labels <==> HitlArch in frontier[j].labels
            then frontier[i].number <= frontier[j].number
            else HitlArch in frontier[j].labels)
  {
    DispatchableMeaning(tickets, blockers);
    hide Dispatchable, Lookup;
    var frontier := Dispatchable(tickets, blockers);
    forall i, j | 0 <= i < j < |frontier|
      ensures PickBefore(frontier[i], frontier[j])
    {
    }
  }

  // Progress: an empty frontier has a reason.

  /** A blocker nobody in the queue will satisfy: open outside the PRD, or an open ticket of the PRD
      that is neither queued nor integrated. */
  predicate IsStuck(b: Blocker, tickets: seq<Issue>) {
    var ticket := Lookup(tickets, b.KeyOf());
    if ticket.None? then b.open
    else ticket.value.open && Queued !in ticket.value.labels && Integrated !in ticket.value.labels
  }

  predicate IsQueued(tickets: seq<Issue>, n: nat) {
    exists t | t in tickets :: t.number == n && t.open && Queued in t.labels
  }

  /** `chain` starts at a queued ticket, each next one is an unsatisfied blocker and queued too. */
  predicate WaitsOn(tickets: seq<Issue>, blockers: Blockers, chain: seq<nat>, b: Blocker) {
    && chain != []
    && (forall i | 0 <= i < |chain| :: IsQueued(tickets, chain[i]))
    && IsWalk(EdgesOf(tickets, blockers), chain)
    && b in BlockersOf(blockers, chain[|chain| - 1])
  }

  /** A queued ticket outside the frontier: an unsatisfied blocker is stuck or is queued itself. */
  lemma NextWait(tickets: seq<Issue>, blockers: Blockers, n: nat) returns (b: Blocker)
    requires Dispatchable(tickets, blockers) == [] && IsQueued(tickets, n)
    ensures b in BlockersOf(blockers, n)
    ensures IsStuck(b, tickets) || (IsQueued(tickets, b.number) && b.number in EdgesOf(tickets, blockers)[n])
  {
    var t :| t in tickets && t.number == n && t.open && Queued in t.labels;
    DispatchableMeaning(tickets, blockers);
    assert t !in Dispatchable(tickets, blockers);
    b :| b in BlockersOf(blockers, n) && !Satisfied(b, tickets);
  }

  lemma FollowWaits(tickets: seq<Issue>, blockers: Blockers, path: seq<nat>) returns (chain: seq<nat>, b: Blocker)
    requires Acyclic(EdgesOf(tickets, blockers)) && Dispatchable(tickets, blockers) == []
    requires path != [] && NoRepeats(path) && IsWalk(EdgesOf(tickets, blockers), path)
    requires forall i | 0 <= i < |path| :: IsQueued(tickets, path[i])
    ensures path <= chain && WaitsOn(tickets, blockers, chain, b) && IsStuck(b, tickets)
    decreases Unvisited(EdgesOf(tickets, blockers), path)
  {
    hide EdgesOf, Dispatchable;
    var edges := EdgesOf(tickets, blockers);
    b := NextWait(tickets, blockers, path[|path| - 1]);
    if IsStuck(b, tickets) {
      return path, b;
    }
    if b.number in path {
      ClosesCycle(edges, path, b.number);
    }
    EdgesAreClosed(tickets, blockers);
    WalkGrows(edges, path, b.number);
    chain, b := FollowWaits(tickets, blockers, path + [b.number]);
  }

  /** Progress. Without a cycle, an empty frontier with an open queued ticket means that ticket waits,
      through queued tickets, on something outside the queue that is not done. */
  lemma Progress(tickets: seq<Issue>, blockers: Blockers, t: Issue) returns (chain: seq<nat>, b: Blocker)
    requires Acyclic(EdgesOf(tickets, blockers)) && Dispatchable(tickets, blockers) == []
    requires t in tickets && t.open && Queued in t.labels
    ensures WaitsOn(tickets, blockers, chain, b) && chain[0] == t.number && IsStuck(b, tickets)
  {
    chain, b := FollowWaits(tickets, blockers, [t.number]);
  }

  // Who waits on a halted ticket.

  function Next(tickets: seq<Issue>, blockers: Blockers, n: nat): set<Key> {
    set b | b in BlockersOf(blockers, n) && Lookup(tickets, b.KeyOf()).Some? :: b.KeyOf()
  }

  predicate IsHalted(tickets: seq<Issue>, halted: set<Label>, k: Key) {
    var t := Lookup(tickets, k);
    t.Some? && halted * t.value.labels != {}
  }

  predicate Passes(tickets: seq<Issue>, blockers: Blockers, halted: set<Label>, p: seq<Key>, i: nat) {
    i + 1 < |p| && !IsHalted(tickets, halted, p[i]) && p[i + 1] in Next(tickets, blockers, p[i].number)
  }

  /** A chain of blockers from ticket `n`, halted at most at its end. */
  predicate IsChain(tickets: seq<Issue>, blockers: Blockers, halted: set<Label>, n: nat, p: seq<Key>) {
    && p != [] && p[0] in Next(tickets, blockers, n)
    && forall i: nat | i + 1 < |p| :: Passes(tickets, blockers, halted, p, i)
  }

  ghost predicate Reaches(tickets: seq<Issue>, blockers: Blockers, halted: set<Label>, n: nat, k: Key) {
    exists p :: IsChain(tickets, blockers, halted, n, p) && p[|p| - 1] == k
  }

  lemma ChainGrows(tickets: seq<Issue>, blockers: Blockers, halted: set<Label>, n: nat, via: Key, p: seq<Key>)
    requires via in Next(tickets, blockers, n) && !IsHalted(tickets, halted, via)
    requires IsChain(tickets, blockers, halted, via.number, p)
    ensures IsChain(tickets, blockers, halted, n, [via] + p)
  {
    hide Next, IsHalted;
    var q := [via] + p;
    forall i: nat | i + 1 < |q|
      ensures Passes(tickets, blockers, halted, q, i)
    {
      if i > 0 {
        assert q[i] == p[i - 1] && q[i + 1] == p[i] && Passes(tickets, blockers, halted, p, i - 1);
      }
    }
  }

  lemma ReachesFurther(tickets: seq<Issue>, blockers: Blockers, halted: set<Label>, n: nat, via: Key, k: Key)
    requires via in Next(tickets, blockers, n) && !IsHalted(tickets, halted, via)
    requires Reaches(tickets, blockers, halted, via.number, k)
    ensures Reaches(tickets, blockers, halted, n, k)
  {
    var p :| IsChain(tickets, blockers, halted, via.number, p) && p[|p| - 1] == k;
    hide Next, IsHalted;
    ChainGrows(tickets, blockers, halted, n, via, p);
    hide IsChain;
    assert ([via] + p)[|p|] == k;
  }

  lemma ReachesDirectly(tickets: seq<Issue>, blockers: Blockers, halted: set<Label>, n: nat, k: Key)
    requires k in Next(tickets, blockers, n)
    ensures Reaches(tickets, blockers, halted, n, k)
  {
    assert IsChain(tickets, blockers, halted, n, [k]) && [k][0] == k;
  }

  lemma HaltedKey(tickets: seq<Issue>, halted: set<Label>, k: Key)
    requires Lookup(tickets, k).Some?
    ensures IsHalted(tickets, halted, k) <==> halted * Lookup(tickets, k).value.labels != {}
    ensures Lookup(tickets, k).value.number == k.number
  {
  }

  /** One search from a queued ticket: `seen` is shared by the whole recursion. */
  class HaltedSearch {
    const tickets: seq<Issue>
    const blockers: Blockers
    const halted: set<Label>
    var seen: set<Key>

    constructor (tickets: seq<Issue>, blockers: Blockers, halted: set<Label>, start: Key)
      ensures this.tickets == tickets && this.blockers == blockers && this.halted == halted && seen == {start}
    {
      this.tickets := tickets;
      this.blockers := blockers;
      this.halted := halted;
      seen := {start};
    }

    /** Every blocker of what was seen here, and not halted, was seen too. */
    ghost predicate Explored(before: set<Key>)
      reads this
    {
      forall k | k in seen - before && !IsHalted(tickets, halted, k) :: Next(tickets, blockers, k.number) <= seen
    }

    ghost predicate Found(before: set<Key>, found: set<nat>)
      reads this
    {
      forall n :: n in found <==> exists k | k in seen - before :: IsHalted(tickets, halted, k) && k.number == n
    }

    method Reach(number: nat) returns (found: set<nat>)
      modifies this
      ensures old(seen) <= seen && Next(tickets, blockers, number) <= seen
      ensures Explored(old(seen)) && Found(old(seen), found)
      ensures forall k | k in seen - old(seen) :: Reaches(tickets, blockers, halted, number, k)
      decreases (set t | t in tickets :: t.KeyOf()) - seen
    {
      hide Reaches, IsChain, Passes, IsHalted;
      found := {};
      var bs := BlockersOf(blockers, number);
      for i := 0 to |bs|
        invariant old(seen) <= seen
        invariant forall j | 0 <= j < i :: Lookup(tickets, bs[j].KeyOf()).Some? ==> bs[j].KeyOf() in seen
        invariant Explored(old(seen)) && Found(old(seen), found)
        invariant forall k | k in seen - old(seen) :: Reaches(tickets, blockers, halted, number, k)
      {
        var key := bs[i].KeyOf();
        var blocker := Lookup(tickets, key);
        if blocker.None? || key in seen {
          continue;
        }
        ReachesDirectly(tickets, blockers, halted, number, key);
        ghost var before := seen;
        seen := seen + {key};
        if halted * blocker.value.labels != {} {
          found := found + {blocker.value.number};
          HaltedKey(tickets, halted, key);
        } else {
          HaltedKey(tickets, halted, key);
          ghost var entered := seen;
          var more := Reach(blocker.value.number);
          found := found + more;
          forall k | k in seen - entered
            ensures Reaches(tickets, blockers, halted, number, k)
          {
            hide Next;
            ReachesFurther(tickets, blockers, halted, number, key, k);
          }
          assert seen - old(seen) == (before - old(seen)) + {key} + (seen - entered);
        }
      }
    }
  }

  lemma {:induction false} ChainStaysSeen(
    tickets: seq<Issue>, blockers: Blockers, halted: set<Label>, start: Key, seen: set<Key>, p: seq<Key>, i: nat)
    requires IsChain(tickets, blockers, halted, start.number, p) && i < |p|
    requires Next(tickets, blockers, start.number) <= seen
    requires forall k | k in seen && k != start && !IsHalted(tickets, halted, k) ::
      Next(tickets, blockers, k.number) <= seen
    ensures p[i] in seen
  {
    if i == 0 {
    } else {
      ChainStaysSeen(tickets, blockers, halted, start, seen, p, i - 1);
      assert Passes(tickets, blockers, halted, p, i - 1);
    }
  }

  /** `n` depends on the halted ticket numbered `m`, through tickets that are not halted. */
  ghost predicate DependsOnHalted(tickets: seq<Issue>, blockers: Blockers, halted: set<Label>, t: Issue, m: nat) {
    exists k: Key :: k.number == m && k != t.KeyOf() && IsHalted(tickets, halted, k)
                     && Reaches(tickets, blockers, halted, t.number, k)
  }

  /** The search from one ticket finds exactly the halted tickets it depends on. */
  method HaltedFor(tickets: seq<Issue>, blockers: Blockers, halted: set<Label>, t: Issue) returns (found: set<nat>)
    ensures forall m :: m in found <==> DependsOnHalted(tickets, blockers, halted, t, m)
  {
    hide Reaches, IsHalted, Next;
    var search := new HaltedSearch(tickets, blockers, halted, t.KeyOf());
    found := search.Reach(t.number);
    forall m
      ensures m in found <==> DependsOnHalted(tickets, blockers, halted, t, m)
    {
      if DependsOnHalted(tickets, blockers, halted, t, m) {
        var k: Key :| k.number == m && k != t.KeyOf() && IsHalted(tickets, halted, k)
                      && Reaches(tickets, blockers, halted, t.number, k);
        ReachedIsSeen(tickets, blockers, halted, t.KeyOf(), search.seen, k);
      }
    }
  }

  lemma ReachedIsSeen(tickets: seq<Issue>, blockers: Blockers, halted: set<Label>, start: Key, seen: set<Key>, k: Key)
    requires Reaches(tickets, blockers, halted, start.number, k)
    requires Next(tickets, blockers, start.number) <= seen
    requires forall k | k in seen && k != start && !IsHalted(tickets, halted, k) ::
      Next(tickets, blockers, k.number) <= seen
    ensures k in seen
  {
    hide Next, IsHalted, Passes;
    var p :| IsChain(tickets, blockers, halted, start.number, p) && p[|p| - 1] == k;
    ChainStaysSeen(tickets, blockers, halted, start, seen, p, |p| - 1);
  }

  predicate NumbersDistinct(tickets: seq<Issue>) {
    forall i, j | 0 <= i < j < |tickets| :: tickets[i].number != tickets[j].number
  }

  ghost predicate Waits(tickets: seq<Issue>, blockers: Blockers, halted: set<Label>, t: Issue) {
    Queued in t.labels && exists m :: DependsOnHalted(tickets, blockers, halted, t, m)
  }

  /** What a cascade says of ticket `t`: nothing, or the whole truth. */
  ghost predicate Explains(
    result: map<nat, seq<nat>>, tickets: seq<Issue>, blockers: Blockers, halted: set<Label>, t: Issue)
  {
    && (t.number in result <==> Waits(tickets, blockers, halted, t))
    && (t.number in result ==>
          && Increasing(result[t.number])
          && forall m :: m in result[t.number] <==> DependsOnHalted(tickets, blockers, halted, t, m))
  }

  lemma ExplainsOther(
    result: map<nat, seq<nat>>, more: map<nat, seq<nat>>, tickets: seq<Issue>, blockers: Blockers, halted: set<Label>,
    t: Issue)
    requires Explains(result, tickets, blockers, halted, t)
    requires t.number in more <==> t.number in result
    requires t.number in result ==> more[t.number] == result[t.number]
    ensures Explains(more, tickets, blockers, halted, t)
  {
  }

  ghost predicate ExplainsAll(
    result: map<nat, seq<nat>>, tickets: seq<Issue>, blockers: Blockers, halted: set<Label>, upTo: nat)
    requires upTo <= |tickets|
  {
    && (forall j | 0 <= j < upTo :: Explains(result, tickets, blockers, halted, tickets[j]))
    && result.Keys <= set j | 0 <= j < upTo :: tickets[j].number
  }

  lemma ExplainsNext(
    before: map<nat, seq<nat>>, result: map<nat, seq<nat>>, tickets: seq<Issue>, blockers: Blockers,
    halted: set<Label>, i: nat)
    requires i < |tickets| && NumbersDistinct(tickets) && ExplainsAll(before, tickets, blockers, halted, i)
    requires result - {tickets[i].number} == before && Explains(result, tickets, blockers, halted, tickets[i])
    ensures ExplainsAll(result, tickets, blockers, halted, i + 1)
  {
    hide Explains;
    forall j | 0 <= j < i
      ensures Explains(result, tickets, blockers, halted, tickets[j])
    {
      assert tickets[j].number != tickets[i].number;
      ExplainsOther(before, result, tickets, blockers, halted, tickets[j]);
    }
    var listed := set j | 0 <= j < i + 1 :: tickets[j].number;
    forall n | n in result
      ensures n in listed
    {
      if n != tickets[i].number {
        assert n in before;
      }
      assert tickets[i].number in listed;
    }
  }

  /** For each queued ticket, exactly the halted tickets it depends on, in ascending order; tickets with
      none are absent. */
  method HaltedBlockers(tickets: seq<Issue>, blockers: Blockers, halted: set<Label>)
    returns (result: map<nat, seq<nat>>)
    requires NumbersDistinct(tickets)
    ensures forall t | t in tickets :: Explains(result, tickets, blockers, halted, t)
    ensures forall n | n in result :: exists t | t in tickets :: t.number == n
  {
    hide Explains, DependsOnHalted;
    result := map[];
    for i := 0 to |tickets|
      invariant ExplainsAll(result, tickets, blockers, halted, i)
    {
      var t := tickets[i];
      var found: seq<nat> := [];
      if Queued in t.labels {
        var reached := HaltedFor(tickets, blockers, halted, t);
        found := SortedSet(reached);
      }
      ghost var before := result;
      assert t.number !in before;
      FoundExplains(before, tickets, blockers, halted, t, found);
      if found != [] {
        result := result[t.number := found];
      }
      assert result - {t.number} == before;
      ExplainsNext(before, result, tickets, blockers, halted, i);
    }
  }

  lemma FoundExplains(
    before: map<nat, seq<nat>>, tickets: seq<Issue>, blockers: Blockers, halted: set<Label>, t: Issue, found: seq<nat>)
    requires t.number !in before && Increasing(found)
    requires Queued in t.labels ==> forall m :: m in found <==> DependsOnHalted(tickets, blockers, halted, t, m)
    requires Queued !in t.labels ==> found == []
    ensures Explains(if found == [] then before else before[t.number := found], tickets, blockers, halted, t)
  {
    hide DependsOnHalted;
    if found != [] {
      assert found[0] in found;
      assert DependsOnHalted(tickets, blockers, halted, t, found[0]);
    }
  }
}

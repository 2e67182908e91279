/** Python's `sorted`: stable, by a key. */
module Sorting {

  function Insert<T>(x: T, sorted: seq<T>, le: (T, T) -> bool): (r: seq<T>)
    ensures multiset(r) == multiset(sorted) + multiset{x}
  {
    if sorted == [] || le(x, sorted[0]) then [x] + sorted
    else
      assert sorted == [sorted[0]] + sorted[1..];
      [sorted[0]] + Insert(x, sorted[1..], le)
  }

  function SortBy<T>(xs: seq<T>, le: (T, T) -> bool): (r: seq<T>)
    ensures multiset(r) == multiset(xs)
  {
    if xs == [] then []
    else
      assert xs == [xs[0]] + xs[1..];
      Insert(xs[0], SortBy(xs[1..], le), le)
  }

  predicate Ordered<T>(xs: seq<T>, le: (T, T) -> bool) {
    forall i, j | 0 <= i < j < |xs| :: le(xs[i], xs[j])
  }

  ghost predicate TotalOrder<T(!new)>(le: (T, T) -> bool) {
    && (forall x, y :: le(x, y) || le(y, x))
    && (forall x, y, z :: le(x, y) && le(y, z) ==> le(x, z))
  }

  lemma {:induction false} InsertOrdered<T(!new)>(x: T, sorted: seq<T>, le: (T, T) -> bool)
    requires TotalOrder(le) && Ordered(sorted, le)
    ensures Ordered(Insert(x, sorted, le), le)
  {
    if sorted == [] || le(x, sorted[0]) {
    } else {
      var rest := Insert(x, sorted[1..], le);
      InsertOrdered(x, sorted[1..], le);
      forall j | 0 <= j < |rest|
        ensures le(sorted[0], rest[j])
      {
        assert rest[j] in multiset(rest);
        if rest[j] != x {
          assert rest[j] in multiset(sorted[1..]);
        }
      }
    }
  }

  lemma {:induction false} SortOrdered<T(!new)>(xs: seq<T>, le: (T, T) -> bool)
    requires TotalOrder(le)
    ensures Ordered(SortBy(xs, le), le)
  {
    if xs == [] {
    } else {
      SortOrdered(xs[1..], le);
      InsertOrdered(xs[0], SortBy(xs[1..], le), le);
    }
  }

  /** Sorting changes neither the members nor the length. */
  lemma SortKeeps<T>(xs: seq<T>, le: (T, T) -> bool)
    ensures |SortBy(xs, le)| == |xs|
    ensures forall x :: x in SortBy(xs, le) <==> x in xs
  {
    var r := SortBy(xs, le);
    assert |multiset(r)| == |multiset(xs)|;
    forall x
      ensures x in r <==> x in xs
    {
      assert x in r <==> x in multiset(r);
    }
  }

  // Lists of numbers.

  predicate AtMost(a: nat, b: nat) {
    a <= b
  }

  predicate NoRepeats(xs: seq<nat>) {
    forall i, j | 0 <= i < j < |xs| :: xs[i] != xs[j]
  }

  predicate Increasing(xs: seq<nat>) {
    forall i, j | 0 <= i < j < |xs| :: xs[i] < xs[j]
  }

  lemma SortDistinct(xs: seq<nat>)
    requires NoRepeats(xs)
    ensures
      var r := SortBy(xs, AtMost);
      && (forall x :: x in r <==> x in xs)
      && Increasing(r)
  {
    var le := AtMost;
    var r := SortBy(xs, le);
    SortKeeps(xs, le);
    SortOrdered(xs, le);
    forall i, j | 0 <= i < j < |r|
      ensures r[i] < r[j]
    {
      assert le(r[i], r[j]);
      if r[i] == r[j] {
        TwiceInMultiset(r, i, j);
        OnceInMultiset(xs, r[i]);
      }
    }
  }

  lemma TwiceInMultiset(xs: seq<nat>, i: nat, j: nat)
    requires i < j < |xs| && xs[i] == xs[j]
    ensures multiset(xs)[xs[i]] >= 2
  {
    assert xs == xs[..j] + [xs[j]] + xs[j + 1..];
    assert xs[..j][i] == xs[i];
    assert xs[i] in multiset(xs[..j]);
  }

  lemma {:induction false} OnceInMultiset(xs: seq<nat>, x: nat)
    requires NoRepeats(xs)
    ensures multiset(xs)[x] <= 1
  {
    if xs == [] {
    } else {
      assert xs == [xs[0]] + xs[1..];
      OnceInMultiset(xs[1..], x);
      if xs[0] == x {
        assert forall j | 0 <= j < |xs[1..]| :: xs[1..][j] != x;
        assert x !in multiset(xs[1..]);
      }
    }
  }

  /** The members of a set in ascending order. */
  method SortedSet(found: set<nat>) returns (r: seq<nat>)
    ensures Increasing(r) && forall n :: n in r <==> n in found
  {
    var left := found;
    var listed: seq<nat> := [];
    while left != {}
      invariant left <= found && NoRepeats(listed)
      invariant forall n :: n in listed <==> n in found && n !in left
    {
      var n :| n in left;
      left := left - {n};
      listed := listed + [n];
    }
    SortDistinct(listed);
    r := SortBy(listed, AtMost);
  }
}

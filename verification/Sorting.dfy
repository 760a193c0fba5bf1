/** Insertion sort by an arbitrary comparison, and the facts its users need:
    the result is a permutation, it is ordered, and it does not depend on the
    order of the input when the comparison never ties two different elements. */
module Sorting {

  ghost predicate Total<T(!new)>(leq: (T, T) -> bool) {
    && (forall x, y :: leq(x, y) || leq(y, x))
    && (forall x, y, z :: leq(x, y) && leq(y, z) ==> leq(x, z))
  }

  ghost predicate Ordered<T>(leq: (T, T) -> bool, s: seq<T>) {
    forall i, j | 0 <= i < j < |s| :: leq(s[i], s[j])
  }

  /** Before the first element that x must not follow: equal keys keep their order. */
  function Insert<T>(leq: (T, T) -> bool, x: T, s: seq<T>): (r: seq<T>)
    ensures |r| == |s| + 1
  {
    if s == [] || leq(x, s[0]) then [x] + s else [s[0]] + Insert(leq, x, s[1..])
  }

  function Sort<T>(leq: (T, T) -> bool, s: seq<T>): (r: seq<T>)
    ensures |r| == |s|
  {
    if s == [] then [] else Insert(leq, s[0], Sort(leq, s[1..]))
  }

  lemma {:induction false} InsertKeeps<T>(leq: (T, T) -> bool, x: T, s: seq<T>)
    ensures multiset(Insert(leq, x, s)) == multiset{x} + multiset(s)
  {
    if s == [] || leq(x, s[0]) {
    } else {
      InsertKeeps(leq, x, s[1..]);
      assert s == [s[0]] + s[1..];
    }
  }

  lemma {:induction false} SortKeeps<T>(leq: (T, T) -> bool, s: seq<T>)
    ensures multiset(Sort(leq, s)) == multiset(s)
  {
    if s != [] {
      SortKeeps(leq, s[1..]);
      InsertKeeps(leq, s[0], Sort(leq, s[1..]));
      assert s == [s[0]] + s[1..];
    }
  }

  lemma {:induction false} InsertOrders<T(!new)>(leq: (T, T) -> bool, x: T, s: seq<T>)
    requires Total(leq) && Ordered(leq, s)
    ensures Ordered(leq, Insert(leq, x, s))
  {
    if s == [] {
    } else if leq(x, s[0]) {
      assert forall j | 0 <= j < |s| :: leq(x, s[j]);
    } else {
      InsertOrders(leq, x, s[1..]);
      var rest := Insert(leq, x, s[1..]);
      InsertKeeps(leq, x, s[1..]);
      forall j | 0 <= j < |rest|
        ensures leq(s[0], rest[j])
      {
        assert rest[j] in multiset(rest);
        assert rest[j] == x || rest[j] in s[1..];
      }
    }
  }

  lemma {:induction false} SortOrders<T(!new)>(leq: (T, T) -> bool, s: seq<T>)
    requires Total(leq)
    ensures Ordered(leq, Sort(leq, s))
  {
    if s != [] {
      SortOrders(leq, s[1..]);
      InsertOrders(leq, s[0], Sort(leq, s[1..]));
    }
  }

  lemma SortMembers<T>(leq: (T, T) -> bool, s: seq<T>)
    ensures forall x :: x in Sort(leq, s) <==> x in s
  {
    SortKeeps(leq, s);
    forall x
      ensures x in Sort(leq, s) <==> x in s
    {
      assert x in multiset(Sort(leq, s)) <==> x in multiset(s);
    }
  }

  /** The same element taken from two equal bags leaves equal bags. */
  lemma BagsWithout<T>(x: T, a: seq<T>, b: seq<T>)
    requires multiset([x] + a) == multiset([x] + b)
    ensures multiset(a) == multiset(b)
  {
    assert multiset([x] + a) == multiset{x} + multiset(a);
    assert multiset([x] + b) == multiset{x} + multiset(b);
    forall y
      ensures multiset(a)[y] == multiset(b)[y]
    {
      assert (multiset{x} + multiset(a))[y] == (multiset{x} + multiset(b))[y];
    }
  }

  /** The last element of one arrangement stands somewhere in the other; the rest agree. */
  lemma LastElsewhere<T>(a: seq<T>, b: seq<T>) returns (i: nat)
    requires multiset(a) == multiset(b) && a != []
    ensures i < |b| && b[i] == a[|a| - 1]
    ensures multiset(a[..|a| - 1]) == multiset(b[..i] + b[i + 1..])
  {
    var init, x := a[..|a| - 1], a[|a| - 1];
    assert x in multiset(b);
    i :| 0 <= i < |b| && b[i] == x;
    assert a[..|a| - 1] + a[|a| - 1 + 1..] == init;
    BagSplit(a, |a| - 1);
    BagSplit(b, i);
    BagsWithout(x, init, b[..i] + b[i + 1..]);
  }

  lemma BagSplit<T>(s: seq<T>, i: nat)
    requires i < |s|
    ensures multiset(s) == multiset([s[i]] + (s[..i] + s[i + 1..]))
  {
    var before, after := s[..i], s[i + 1..];
    assert s == before + ([s[i]] + after);
    assert multiset(s) == multiset(before) + multiset([s[i]] + after);
    assert multiset([s[i]] + after) == multiset{s[i]} + multiset(after);
    assert multiset([s[i]] + (before + after)) == multiset{s[i]} + multiset(before + after);
    assert multiset(before + after) == multiset(before) + multiset(after);
  }

  lemma FirstAgrees<T(!new)>(leq: (T, T) -> bool, a: seq<T>, b: seq<T>)
    requires Ordered(leq, a) && Ordered(leq, b) && multiset(a) == multiset(b) && a != [] && b != []
    requires forall x, y | x in a && y in a && leq(x, y) && leq(y, x) :: x == y
    ensures a[0] == b[0]
  {
    assert a[0] in multiset(b) && b[0] in multiset(a);
    assert a[0] in b && b[0] in a;
    var i :| 0 <= i < |b| && b[i] == a[0];
    var j :| 0 <= j < |a| && a[j] == b[0];
    assert i > 0 ==> leq(b[0], a[0]);
    assert j > 0 ==> leq(a[0], b[0]);
  }

  /** Two ordered arrangements of the same elements are equal when ties mean equality. */
  lemma {:induction false} OrderedUnique<T(!new)>(leq: (T, T) -> bool, a: seq<T>, b: seq<T>)
    requires Ordered(leq, a) && Ordered(leq, b) && multiset(a) == multiset(b)
    requires forall x, y | x in a && y in a && leq(x, y) && leq(y, x) :: x == y
    ensures a == b
  {
    if a == [] {
      assert |multiset(b)| == 0;
    } else {
      assert |multiset(a)| == |multiset(b)|;
      FirstAgrees(leq, a, b);
      assert a == [a[0]] + a[1..] && b == [a[0]] + b[1..];
      BagsWithout(a[0], a[1..], b[1..]);
      OrderedUnique(leq, a[1..], b[1..]);
    }
  }

  lemma SortIgnoresInputOrder<T(!new)>(leq: (T, T) -> bool, a: seq<T>, b: seq<T>)
    requires Total(leq) && multiset(a) == multiset(b)
    requires forall x, y | x in a && y in a && leq(x, y) && leq(y, x) :: x == y
    ensures Sort(leq, a) == Sort(leq, b)
  {
    SortKeeps(leq, a);
    SortKeeps(leq, b);
    SortOrders(leq, a);
    SortOrders(leq, b);
    SortMembers(leq, a);
    OrderedUnique(leq, Sort(leq, a), Sort(leq, b));
  }

  ghost predicate DistinctBy<T, K>(key: T -> K, s: seq<T>) {
    forall i, j | 0 <= i < j < |s| :: key(s[i]) != key(s[j])
  }

  /** Where keys are distinct every element occurs once. */
  lemma {:induction false} OnceEach<T, K>(key: T -> K, a: seq<T>, x: T)
    requires DistinctBy(key, a)
    ensures multiset(a)[x] <= 1
  {
    if a != [] {
      var init, last := a[..|a| - 1], a[|a| - 1];
      assert a == init + [last];
      OnceEach(key, init, x);
      if x == last {
        assert x !in init;
      }
    }
  }

  /** A permutation keeps keys distinct. */
  lemma PermutedDistinct<T, K>(key: T -> K, a: seq<T>, b: seq<T>)
    requires DistinctBy(key, a) && multiset(a) == multiset(b)
    ensures DistinctBy(key, b)
  {
    forall i, j | 0 <= i < j < |b|
      ensures key(b[i]) != key(b[j])
    {
      OnceEach(key, a, b[i]);
      assert b[i] in multiset(a) && b[j] in multiset(a);
      assert b[i] in a && b[j] in a;
      assert b == b[..i] + [b[i]] + b[i + 1..j] + [b[j]] + b[j + 1..];
      assert multiset(b) == multiset(b[..i]) + multiset{b[i]} + multiset(b[i + 1..j]) + multiset{b[j]} + multiset(b[j + 1..]);
      assert b[i] != b[j];
    }
  }

  /** sorted(set(xs)): ascending, without repeats. */
  function Ascending(xs: seq<nat>): seq<nat> {
    if xs == [] then [] else Place(xs[0], Ascending(xs[1..]))
  }

  function Place(x: nat, s: seq<nat>): seq<nat> {
    if s == [] || x < s[0] then [x] + s
    else if x == s[0] then s
    else [s[0]] + Place(x, s[1..])
  }

  ghost predicate Increasing(s: seq<nat>) {
    forall i, j | 0 <= i < j < |s| :: s[i] < s[j]
  }

  lemma {:induction false} PlaceIncreasing(x: nat, s: seq<nat>)
    requires Increasing(s)
    ensures Increasing(Place(x, s))
    ensures forall y :: y in Place(x, s) <==> y == x || y in s
  {
    if s != [] && x > s[0] {
      PlaceIncreasing(x, s[1..]);
      assert s == [s[0]] + s[1..];
      var rest := Place(x, s[1..]);
      forall j | 0 <= j < |rest|
        ensures s[0] < rest[j]
      {
        assert rest[j] in rest;
      }
    } else if s != [] && x == s[0] {
    } else {
      assert forall j | 0 < j < |s| :: s[0] < s[j];
    }
  }

  lemma {:induction false} AscendingSorts(xs: seq<nat>)
    ensures Increasing(Ascending(xs))
    ensures forall x :: x in Ascending(xs) <==> x in xs
  {
    if xs != [] {
      AscendingSorts(xs[1..]);
      PlaceIncreasing(xs[0], Ascending(xs[1..]));
      assert xs == [xs[0]] + xs[1..];
    }
  }
}

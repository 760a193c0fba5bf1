/** Normalised discounted cumulative gain, over any positive, strictly falling discount.
    The original divides by log2(position + 2). */
module Ndcg {
  import Sorting

  type Id = string

  /** One judgment; a mapping is a list of these with distinct ids. */
  datatype Judged = Judged(id: Id, grade: nat)

  ghost predicate Mapping(js: seq<Judged>) {
    forall i, j | 0 <= i < j < |js| :: js[i].id != js[j].id
  }

  ghost predicate Distinct(ids: seq<Id>) {
    forall i, j | 0 <= i < j < |ids| :: ids[i] != ids[j]
  }

  ghost predicate Falling(d: nat -> real) {
    && (forall i :: d(i) > 0.0)
    && (forall i: nat, j: nat :: i < j ==> d(i) > d(j))
  }

  function Pow2(n: nat): (r: nat)
    ensures r >= 1
  {
    if n == 0 then 1 else 2 * Pow2(n - 1)
  }

  function Gain(grade: nat): nat {
    Pow2(grade) - 1
  }

  function Dcg(grades: seq<nat>, d: nat -> real): real {
    if grades == [] then 0.0
    else Dcg(grades[..|grades| - 1], d) + Worth(Gain(grades[|grades| - 1]), d(|grades| - 1))
  }

  function GradeOf(js: seq<Judged>, id: Id): nat {
    if js == [] then 0 else if js[0].id == id then js[0].grade else GradeOf(js[1..], id)
  }

  function Grades(js: seq<Judged>): seq<nat> {
    seq(|js|, i requires 0 <= i < |js| => js[i].grade)
  }

  function First<T>(s: seq<T>, k: nat): seq<T> {
    if k <= |s| then s[..k] else s
  }

  predicate AtLeast(a: nat, b: nat) {
    a >= b
  }

  predicate ByGrade(a: Judged, b: Judged) {
    a.grade >= b.grade
  }

  function Ideal(js: seq<Judged>, k: nat): seq<nat> {
    First(Sorting.Sort(AtLeast, Grades(js)), k)
  }

  function Actual(ranked: seq<Id>, js: seq<Judged>, k: nat): seq<nat> {
    var top := First(ranked, k);
    seq(|top|, i requires 0 <= i < |top| => GradeOf(js, top[i]))
  }

  function NdcgAtK(ranked: seq<Id>, js: seq<Judged>, k: nat, d: nat -> real): real {
    var ideal := Dcg(Ideal(js, k), d);
    if ideal == 0.0 then 0.0 else Dcg(Actual(ranked, js, k), d) / ideal
  }

  // ---- summation by parts ----------------------------------------------------

  /** The grade at a position, zero past the end. */
  ghost function At(grades: seq<nat>, i: nat): nat {
    if i < |grades| then grades[i] else 0
  }

  ghost function Sum(grades: seq<nat>, n: nat): nat {
    if n == 0 then 0 else Sum(grades, n - 1) + Gain(At(grades, n - 1))
  }

  /** Gain at a weight. */
  function Worth(gain: int, weight: real): real {
    gain as real * weight
  }

  ghost function Weighted(grades: seq<nat>, n: nat, d: nat -> real): real {
    if n == 0 then 0.0 else Weighted(grades, n - 1, d) + Worth(Gain(At(grades, n - 1)), d(n - 1))
  }

  lemma {:induction false} SameStart(a: seq<nat>, b: seq<nat>, n: nat, d: nat -> real)
    requires forall i: nat | i < n :: At(a, i) == At(b, i)
    ensures Weighted(a, n, d) == Weighted(b, n, d)
  {
    if n > 0 {
      SameStart(a, b, n - 1, d);
    }
  }

  lemma {:induction false} DcgIsWeighted(grades: seq<nat>, n: nat, d: nat -> real)
    requires |grades| <= n
    ensures Dcg(grades, d) == Weighted(grades, n, d)
    decreases n
  {
    hide Worth, Gain;
    if n > |grades| {
      DcgIsWeighted(grades, n - 1, d);
      PastTheEnd(grades, n - 1, d(n - 1));
    } else if n > 0 {
      var init := grades[..n - 1];
      DcgIsWeighted(init, n - 1, d);
      SameStart(init, grades, n - 1, d);
    }
  }

  lemma PastTheEnd(grades: seq<nat>, i: nat, w: real)
    requires |grades| <= i
    ensures Worth(Gain(At(grades, i)), w) == 0.0
  {
  }

  ghost predicate Dominates(b: seq<nat>, a: seq<nat>, n: nat) {
    forall m: nat | m <= n :: Sum(a, m) <= Sum(b, m)
  }

  ghost function Lead(b: seq<nat>, a: seq<nat>, n: nat): int {
    Sum(b, n) - Sum(a, n)
  }

  lemma WorthAdds(x: int, y: int, w: real)
    ensures Worth(x + y, w) == Worth(x, w) + Worth(y, w)
  {
  }

  /** One more position: the weighted lead grows by the change of the lead at that weight. */
  lemma LeadStep(b: seq<nat>, a: seq<nat>, n: nat, d: nat -> real)
    requires n > 0
    ensures Weighted(b, n, d) - Weighted(a, n, d) + Worth(Lead(b, a, n - 1), d(n - 1))
            == Weighted(b, n - 1, d) - Weighted(a, n - 1, d) + Worth(Lead(b, a, n), d(n - 1))
  {
    hide Worth, Gain;
    var gb: int, ga: int, before: int := Gain(At(b, n - 1)), Gain(At(a, n - 1)), Lead(b, a, n - 1);
    assert Lead(b, a, n) + ga == before + gb;
    WorthAdds(Lead(b, a, n), ga, d(n - 1));
    WorthAdds(before, gb, d(n - 1));
  }

  /** A list whose every start gains at least as much is worth at least as much under any falling
      discount; the lead at the end is never discounted below the last weight. */
  lemma {:induction false} SummationByParts(b: seq<nat>, a: seq<nat>, n: nat, d: nat -> real)
    requires Falling(d) && n > 0 && Dominates(b, a, n)
    ensures Weighted(b, n, d) - Weighted(a, n, d) >= Worth(Lead(b, a, n), d(n - 1))
  {
    hide Weighted, Sum, Worth;
    LeadStep(b, a, n, d);
    assert Sum(a, n - 1) <= Sum(b, n - 1);
    if n > 1 {
      SummationByParts(b, a, n - 1, d);
      Ordered(Lead(b, a, n - 1), d(n - 2), d(n - 1));
    } else {
      Nothing(b, a, d, d(0));
    }
  }

  lemma Nothing(b: seq<nat>, a: seq<nat>, d: nat -> real, w: real)
    ensures Weighted(b, 0, d) == 0.0 && Weighted(a, 0, d) == 0.0 && Lead(b, a, 0) == 0 && Worth(Lead(b, a, 0), w) == 0.0
  {
  }

  lemma Ordered(x: int, v: real, w: real)
    requires x >= 0 && v >= w
    ensures Worth(x, v) >= Worth(x, w)
  {
    assert x as real * (v - w) >= 0.0;
  }

  lemma StrictlyOrdered(x: int, v: real, w: real)
    requires x >= 0 && v > w && Worth(x, v) <= Worth(x, w)
    ensures x == 0
  {
    assert x as real * (v - w) <= 0.0;
  }

  lemma Zero(x: int, w: real)
    requires x >= 0 && w > 0.0 && Worth(x, w) <= 0.0
    ensures x == 0 && Worth(x, w) == 0.0
  {
  }

  /** Equal worth means equal everywhere. */
  lemma {:induction false} EqualWorth(b: seq<nat>, a: seq<nat>, n: nat, d: nat -> real)
    requires Falling(d) && Dominates(b, a, n) && Weighted(b, n, d) == Weighted(a, n, d)
    ensures forall m: nat | m <= n :: Sum(a, m) == Sum(b, m)
  {
    hide Weighted, Sum, Worth;
    if n == 0 {
      Nothing(b, a, d, d(0));
    } else {
      SummationByParts(b, a, n, d);
      Zero(Lead(b, a, n), d(n - 1));
      LeadStep(b, a, n, d);
      assert Lead(b, a, n) == 0;
      assert Sum(a, n - 1) <= Sum(b, n - 1);
      if n > 1 {
        SummationByParts(b, a, n - 1, d);
        assert d(n - 2) > d(n - 1);
        StrictlyOrdered(Lead(b, a, n - 1), d(n - 2), d(n - 1));
      } else {
        Nothing(b, a, d, d(0));
      }
      assert Lead(b, a, n - 1) == 0;
      EqualWorth(b, a, n - 1, d);
    }
  }

  lemma {:induction false} Pow2Grows(m: nat, n: nat)
    requires m < n
    ensures Pow2(m) < Pow2(n)
  {
    if m < n - 1 {
      Pow2Grows(m, n - 1);
    }
  }

  lemma SameGain(m: nat, n: nat)
    requires Gain(m) == Gain(n)
    ensures m == n
  {
    if m < n {
      Pow2Grows(m, n);
    } else if n < m {
      Pow2Grows(n, m);
    }
  }

  lemma GainGrows(m: nat, n: nat)
    requires m <= n
    ensures Gain(m) <= Gain(n)
  {
    if m < n {
      Pow2Grows(m, n);
    }
  }

  lemma SumsDecide(b: seq<nat>, a: seq<nat>, n: nat)
    requires forall m: nat | m <= n :: Sum(a, m) == Sum(b, m)
    ensures forall i: nat | i < n :: At(a, i) == At(b, i)
  {
    forall i: nat | i < n
      ensures At(a, i) == At(b, i)
    {
      assert Sum(a, i) == Sum(b, i) && Sum(a, i + 1) == Sum(b, i + 1);
      SameGain(At(a, i), At(b, i));
    }
  }

  // ---- the best grades first -------------------------------------------------

  ghost predicate Descending(js: seq<Judged>) {
    forall i, j | 0 <= i < j < |js| :: js[i].grade >= js[j].grade
  }

  /** What the judged ids of a set gain together. */
  ghost function SumOver(ids: set<Id>, js: seq<Judged>): nat {
    if js == [] then 0 else (if js[0].id in ids then Gain(js[0].grade) else 0) + SumOver(ids, js[1..])
  }

  /** What the first n gain together. */
  ghost function Top(js: seq<Judged>, n: nat): nat {
    if js == [] || n == 0 then 0 else Gain(js[0].grade) + Top(js[1..], n - 1)
  }

  lemma {:induction false} TopShift(js: seq<Judged>, n: nat)
    requires Descending(js) && js != []
    ensures Top(js[1..], n) <= Top(js, n)
  {
    if n > 0 && |js| > 1 {
      TopShift(js[1..], n - 1);
      GainGrows(js[1].grade, js[0].grade);
    }
  }

  lemma {:induction false} Elsewhere(ids: set<Id>, js: seq<Judged>, x: Id)
    requires forall i | 0 <= i < |js| :: js[i].id != x
    ensures SumOver(ids - {x}, js) == SumOver(ids, js)
  {
    if js != [] {
      assert js[0].id != x;
      Elsewhere(ids, js[1..], x);
    }
  }

  /** No n ids gain more than the n best. */
  lemma {:induction false} BestFirst(js: seq<Judged>, ids: set<Id>)
    requires Mapping(js) && Descending(js)
    ensures SumOver(ids, js) <= Top(js, |ids|)
    decreases |js|
  {
    if js != [] {
      if js[0].id in ids {
        BestFirst(js[1..], ids - {js[0].id});
        Elsewhere(ids, js[1..], js[0].id);
      } else {
        BestFirst(js[1..], ids);
        TopShift(js, |ids|);
      }
    }
  }

  lemma {:induction false} SumOverAdds(ids: set<Id>, js: seq<Judged>, x: Id)
    requires Mapping(js) && x !in ids
    ensures SumOver(ids + {x}, js) == SumOver(ids, js) + Gain(GradeOf(js, x))
  {
    if js != [] {
      if js[0].id == x {
        Elsewhere(ids + {x}, js[1..], x);
        assert ids + {x} - {x} == ids;
      } else {
        SumOverAdds(ids, js[1..], x);
      }
    }
  }

  ghost function Elements(ids: seq<Id>): set<Id> {
    set x | x in ids
  }

  lemma {:induction false} SumOfRanked(ids: seq<Id>, js: seq<Judged>, grades: seq<nat>, n: nat)
    requires Mapping(js) && Distinct(ids) && n <= |ids| == |grades|
    requires forall i | 0 <= i < |ids| :: grades[i] == GradeOf(js, ids[i])
    ensures Sum(grades, n) == SumOver(Elements(ids[..n]), js) && |Elements(ids[..n])| == n
  {
    hide Gain, GradeOf, SumOver, Elements;
    if n == 0 {
      NoIds(js);
      NoElements(ids);
    } else {
      SumOfRanked(ids, js, grades, n - 1);
      ElementsNext(ids, n);
      SumOverAdds(Elements(ids[..n - 1]), js, ids[n - 1]);
    }
  }

  lemma NoElements(ids: seq<Id>)
    ensures Elements(ids[..0]) == {}
  {
  }

  lemma ElementsNext(ids: seq<Id>, n: nat)
    requires Distinct(ids) && 0 < n <= |ids|
    ensures Elements(ids[..n]) == Elements(ids[..n - 1]) + {ids[n - 1]} && ids[n - 1] !in Elements(ids[..n - 1])
    ensures |Elements(ids[..n])| == |Elements(ids[..n - 1])| + 1
  {
    assert ids[..n] == ids[..n - 1] + [ids[n - 1]];
    ElementsAdd(ids[..n - 1], ids[n - 1]);
  }

  lemma ElementsAdd(init: seq<Id>, x: Id)
    requires x !in init
    ensures Elements(init + [x]) == Elements(init) + {x} && x !in Elements(init)
    ensures |Elements(init + [x])| == |Elements(init)| + 1
  {
    forall y
      ensures y in init + [x] <==> y in init || y == x
    {
    }
    assert Elements(init + [x]) == Elements(init) + {x};
  }

  lemma {:induction false} NoIds(js: seq<Judged>)
    ensures SumOver({}, js) == 0
  {
    if js != [] {
      NoIds(js[1..]);
    }
  }

  lemma {:induction false} TopIsSum(js: seq<Judged>, n: nat)
    ensures Top(js, n) == Sum(Grades(js), n)
    decreases n
  {
    if n > 0 {
      if n <= |js| {
        TopEnds(js, n);
        TopIsSum(js, n - 1);
      } else {
        TopIsSum(js, n - 1);
        TopAll(js, n - 1);
      }
    }
  }

  lemma {:induction false} TopEnds(js: seq<Judged>, n: nat)
    requires 0 < n <= |js|
    ensures Top(js, n) == Top(js, n - 1) + Gain(js[n - 1].grade)
  {
    if n > 1 {
      TopEnds(js[1..], n - 1);
    }
  }

  lemma {:induction false} TopAll(js: seq<Judged>, n: nat)
    requires |js| <= n
    ensures Top(js, n + 1) == Top(js, n)
  {
    if js != [] {
      TopAll(js[1..], n - 1);
    }
  }

  lemma {:induction false} SumBeyond(grades: seq<nat>, m: nat, n: nat)
    requires m <= n
    ensures Sum(grades, m) <= Sum(grades, n)
    ensures |grades| <= m ==> Sum(grades, m) == Sum(grades, n)
    decreases n
  {
    if m < n {
      SumBeyond(grades, m, n - 1);
    }
  }

  /** No duplicate-free list gains more, at any length, than the judgments in falling order. */
  lemma NoneBetter(best: seq<Judged>, ids: seq<Id>, grades: seq<nat>, m: nat)
    requires Mapping(best) && Descending(best) && Distinct(ids) && |ids| == |grades|
    requires forall i | 0 <= i < |ids| :: grades[i] == GradeOf(best, ids[i])
    ensures Sum(grades, m) <= Sum(Grades(best), m)
  {
    hide GradeOf, Gain;
    var n := if m <= |ids| then m else |ids|;
    SumOfRanked(ids, best, grades, n);
    BestFirst(best, Elements(ids[..n]));
    TopIsSum(best, n);
    SumBeyond(grades, n, m);
    SumBeyond(Grades(best), n, m);
  }

  lemma {:induction false} SumOfFirst(grades: seq<nat>, k: nat, m: nat)
    requires m <= k
    ensures Sum(First(grades, k), m) == Sum(grades, m)
  {
    hide Gain;
    if m > 0 {
      SumOfFirst(grades, k, m - 1);
    }
  }

  lemma {:induction false} InsertGrades(x: Judged, s: seq<Judged>)
    ensures Grades(Sorting.Insert(ByGrade, x, s)) == Sorting.Insert(AtLeast, x.grade, Grades(s))
  {
    if s == [] || ByGrade(x, s[0]) {
    } else {
      InsertGrades(x, s[1..]);
      assert Grades(s)[1..] == Grades(s[1..]);
    }
  }

  /** Sorting the values of the mapping is sorting the mapping by value. */
  lemma {:induction false} SortGrades(js: seq<Judged>)
    ensures Grades(Sorting.Sort(ByGrade, js)) == Sorting.Sort(AtLeast, Grades(js))
  {
    if js != [] {
      SortGrades(js[1..]);
      InsertGrades(js[0], Sorting.Sort(ByGrade, js[1..]));
      assert Grades(js)[1..] == Grades(js[1..]);
    }
  }

  lemma {:induction false} GradeFound(js: seq<Judged>, x: Judged)
    requires Mapping(js) && x in js
    ensures GradeOf(js, x.id) == x.grade
  {
    if js[0] == x {
    } else {
      assert x in js[1..];
      GradeFound(js[1..], x);
      var i :| 0 <= i < |js| && js[i] == x;
      assert js[0].id != x.id;
    }
  }

  lemma {:induction false} GradeAbsent(js: seq<Judged>, id: Id)
    requires forall x | x in js :: x.id != id
    ensures GradeOf(js, id) == 0
  {
    if js != [] {
      assert js[0] in js;
      GradeAbsent(js[1..], id);
    }
  }

  lemma SameGrades(a: seq<Judged>, b: seq<Judged>, id: Id)
    requires Mapping(a) && Mapping(b) && forall x :: x in a <==> x in b
    ensures GradeOf(a, id) == GradeOf(b, id)
  {
    if x :| x in a && x.id == id {
      GradeFound(a, x);
      GradeFound(b, x);
    } else {
      GradeAbsent(a, id);
      GradeAbsent(b, id);
    }
  }

  /** The judgments in falling order: same mapping, and the ideal is their first k grades. */
  lemma InOrder(js: seq<Judged>, k: nat) returns (best: seq<Judged>)
    requires Mapping(js)
    ensures Mapping(best) && Descending(best) && (forall x :: x in best <==> x in js)
    ensures Ideal(js, k) == First(Grades(best), k)
    ensures forall id :: GradeOf(best, id) == GradeOf(js, id)
  {
    best := Sorting.Sort(ByGrade, js);
    Sorting.SortKeeps(ByGrade, js);
    Sorting.SortOrders(ByGrade, js);
    Sorting.SortMembers(ByGrade, js);
    Sorting.PermutedDistinct((x: Judged) => x.id, js, best);
    SortGrades(js);
    forall id
      ensures GradeOf(best, id) == GradeOf(js, id)
    {
      SameGrades(best, js, id);
    }
  }

  lemma IdealDominates(ranked: seq<Id>, js: seq<Judged>, k: nat)
    requires Mapping(js) && Distinct(ranked)
    ensures Dominates(Ideal(js, k), Actual(ranked, js, k), k)
  {
    hide GradeOf, Gain, Ideal;
    var best := InOrder(js, k);
    forall m: nat | m <= k
      ensures Sum(Actual(ranked, js, k), m) <= Sum(Ideal(js, k), m)
    {
      NoneBetter(best, First(ranked, k), Actual(ranked, js, k), m);
      SumOfFirst(Grades(best), k, m);
    }
  }

  lemma {:induction false} WeightedPositive(grades: seq<nat>, n: nat, d: nat -> real)
    requires Falling(d)
    ensures Weighted(grades, n, d) >= 0.0
    ensures Weighted(grades, n, d) == 0.0 ==> forall i: nat | i < n :: Gain(At(grades, i)) == 0
  {
    hide Gain;
    if n > 0 {
      WeightedPositive(grades, n - 1, d);
      WorthPositive(Gain(At(grades, n - 1)), d(n - 1));
    }
  }

  lemma WorthPositive(gain: nat, w: real)
    requires w > 0.0
    ensures Worth(gain, w) >= 0.0 && (Worth(gain, w) == 0.0 ==> gain == 0)
  {
  }

  /** The two sums of a metric, position by position up to k. */
  lemma AsWeighted(ranked: seq<Id>, js: seq<Judged>, k: nat, d: nat -> real)
    ensures Dcg(Ideal(js, k), d) == Weighted(Ideal(js, k), k, d)
    ensures Dcg(Actual(ranked, js, k), d) == Weighted(Actual(ranked, js, k), k, d)
  {
    DcgIsWeighted(Ideal(js, k), k, d);
    DcgIsWeighted(Actual(ranked, js, k), k, d);
  }

  lemma IdealWorthMost(ranked: seq<Id>, js: seq<Judged>, k: nat, d: nat -> real)
    requires Mapping(js) && Distinct(ranked) && Falling(d)
    ensures 0.0 <= Dcg(Actual(ranked, js, k), d) <= Dcg(Ideal(js, k), d)
  {
    hide Ideal, Actual, Worth;
    var ideal, actual := Ideal(js, k), Actual(ranked, js, k);
    AsWeighted(ranked, js, k, d);
    WeightedPositive(actual, k, d);
    if k > 0 {
      IdealDominates(ranked, js, k);
      SummationByParts(ideal, actual, k, d);
      LeadPositive(ideal, actual, k, d(k - 1));
    }
  }

  lemma LeadPositive(b: seq<nat>, a: seq<nat>, n: nat, w: real)
    requires Dominates(b, a, n) && w > 0.0
    ensures Worth(Lead(b, a, n), w) >= 0.0
  {
    assert Sum(a, n) <= Sum(b, n);
    WorthPositive(Lead(b, a, n), w);
  }

  lemma Quotient(x: real, y: real)
    requires 0.0 <= x <= y && y > 0.0
    ensures 0.0 <= x / y <= 1.0 && (x / y == 1.0 <==> x == y)
  {
    assert (x / y) * y == x;
  }

  /** nDCG lies between zero and one, for every ranking without repeats and every judgment. */
  lemma InUnitInterval(ranked: seq<Id>, js: seq<Judged>, k: nat, d: nat -> real)
    requires Mapping(js) && Distinct(ranked) && Falling(d)
    ensures 0.0 <= NdcgAtK(ranked, js, k, d) <= 1.0
  {
    hide Ideal, Actual, Dcg;
    IdealWorthMost(ranked, js, k, d);
    var ideal := Dcg(Ideal(js, k), d);
    if ideal != 0.0 {
      Quotient(Dcg(Actual(ranked, js, k), d), ideal);
    }
  }

  ghost predicate SomethingToFind(js: seq<Judged>, k: nat) {
    k > 0 && exists i :: 0 <= i < |js| && js[i].grade > 0
  }

  lemma PositiveGain(grade: nat)
    ensures Gain(grade) == 0 <==> grade == 0
  {
  }

  /** There is an ideal to compare with exactly when some grade is positive and k is. */
  lemma IdealPositive(js: seq<Judged>, k: nat, d: nat -> real)
    requires Mapping(js) && Falling(d)
    ensures Dcg(Ideal(js, k), d) > 0.0 <==> SomethingToFind(js, k)
  {
    hide GradeOf, Ideal, Dcg, Worth, Gain;
    var best := InOrder(js, k);
    var ideal := Ideal(js, k);
    AsWeighted([], js, k, d);
    WeightedPositive(ideal, k, d);
    if SomethingToFind(js, k) {
      var i :| 0 <= i < |js| && js[i].grade > 0;
      assert js[i] in best;
      var j :| 0 <= j < |best| && best[j] == js[i];
      assert best[0].grade >= best[j].grade;
      assert At(ideal, 0) == best[0].grade;
      PositiveGain(best[0].grade);
    } else {
      forall i: nat | i < k
        ensures At(ideal, i) == 0
      {
        if i < |best| {
          assert best[i] in js;
        }
      }
      NothingWorth(ideal, k, d);
    }
  }

  lemma {:induction false} NothingWorth(grades: seq<nat>, n: nat, d: nat -> real)
    requires forall i: nat | i < n :: At(grades, i) == 0
    ensures Weighted(grades, n, d) == 0.0
  {
    if n > 0 {
      NothingWorth(grades, n - 1, d);
    }
  }

  /** The metric is one exactly when there is something to find and, place by place, the
      ranking shows the grades the ideal shows. */
  lemma PerfectExactly(ranked: seq<Id>, js: seq<Judged>, k: nat, d: nat -> real)
    requires Mapping(js) && Distinct(ranked) && Falling(d)
    ensures NdcgAtK(ranked, js, k, d) == 1.0
            <==> SomethingToFind(js, k) && forall i: nat | i < k :: At(Actual(ranked, js, k), i) == At(Ideal(js, k), i)
  {
    hide Ideal, Actual, Dcg, SomethingToFind, Falling;
    IdealPositive(js, k, d);
    IdealWorthMost(ranked, js, k, d);
    var ideal, actual := Ideal(js, k), Actual(ranked, js, k);
    if Dcg(ideal, d) > 0.0 {
      Quotient(Dcg(actual, d), Dcg(ideal, d));
      AsWeighted(ranked, js, k, d);
      if Dcg(actual, d) == Dcg(ideal, d) {
        IdealDominates(ranked, js, k);
        EqualWorth(ideal, actual, k, d);
        SumsDecide(ideal, actual, k);
      }
      if forall i: nat | i < k :: At(actual, i) == At(ideal, i) {
        SameStart(actual, ideal, k, d);
      }
    }
  }

  /** A query with nothing to find scores zero, not one. */
  lemma NothingToFindIsZero(ranked: seq<Id>, js: seq<Judged>, k: nat, d: nat -> real)
    requires Mapping(js) && Distinct(ranked) && Falling(d) && !SomethingToFind(js, k)
    ensures NdcgAtK(ranked, js, k, d) == 0.0
  {
    hide Ideal, Actual, Dcg;
    IdealPositive(js, k, d);
    IdealWorthMost(ranked, js, k, d);
  }

  /** Everything relevant, best grades first, is perfect, in whatever order equal grades come
      and whatever irrelevant results follow. */
  lemma BestFirstIsPerfect(ranked: seq<Id>, js: seq<Judged>, k: nat, d: nat -> real)
    requires Mapping(js) && Distinct(ranked) && Falling(d) && SomethingToFind(js, k)
    requires forall i, j | 0 <= i < j < |ranked| :: GradeOf(js, ranked[i]) >= GradeOf(js, ranked[j])
    requires forall i | 0 <= i < |js| && js[i].grade > 0 :: js[i].id in ranked
    ensures NdcgAtK(ranked, js, k, d) == 1.0
  {
    hide GradeOf, Gain, Ideal, SomethingToFind, Falling, NdcgAtK;
    var ideal, actual := Ideal(js, k), Actual(ranked, js, k);
    var listed := seq(|ranked|, i requires 0 <= i < |ranked| => Judged(ranked[i], GradeOf(js, ranked[i])));
    IdealDominates(ranked, js, k);
    forall m: nat | m <= k
      ensures Sum(actual, m) == Sum(ideal, m)
    {
      ListedDominates(ranked, js, listed, k, m);
      assert First(Grades(listed), k) == actual;
    }
    SumsDecide(ideal, actual, k);
    PerfectExactly(ranked, js, k, d);
  }

  lemma ListedDominates(ranked: seq<Id>, js: seq<Judged>, listed: seq<Judged>, k: nat, m: nat)
    requires Mapping(js) && Distinct(ranked) && m <= k
    requires |listed| == |ranked| && forall i | 0 <= i < |ranked| :: listed[i] == Judged(ranked[i], GradeOf(js, ranked[i]))
    requires Descending(listed)
    requires forall i | 0 <= i < |js| && js[i].grade > 0 :: js[i].id in ranked
    ensures Sum(Ideal(js, k), m) <= Sum(First(Grades(listed), k), m)
  {
    hide GradeOf, Gain, Ideal;
    var best := InOrder(js, k);
    var ids := seq(|best|, i requires 0 <= i < |best| => best[i].id);
    forall i | 0 <= i < |best|
      ensures Grades(best)[i] == GradeOf(listed, ids[i])
    {
      ListedGrade(ranked, js, listed, best[i]);
    }
    NoneBetter(listed, ids, Grades(best), m);
    SumOfFirst(Grades(best), k, m);
    SumOfFirst(Grades(listed), k, m);
  }

  lemma ListedGrade(ranked: seq<Id>, js: seq<Judged>, listed: seq<Judged>, x: Judged)
    requires Mapping(js) && Distinct(ranked) && x in js
    requires |listed| == |ranked| && forall i | 0 <= i < |ranked| :: listed[i] == Judged(ranked[i], GradeOf(js, ranked[i]))
    requires forall i | 0 <= i < |js| && js[i].grade > 0 :: js[i].id in ranked
    ensures GradeOf(listed, x.id) == x.grade
  {
    hide GradeOf;
    GradeFound(js, x);
    if x.id in ranked {
      var i :| 0 <= i < |ranked| && ranked[i] == x.id;
      assert listed[i] == x;
      GradeFound(listed, x);
    } else {
      var i :| 0 <= i < |js| && js[i] == x;
      assert x.grade == 0;
      GradeAbsent(listed, x.id);
    }
  }

  /** A repeated result can push the quotient over one: the bound needs rankings without repeats. */
  lemma RepeatsExceedOne(d: nat -> real)
    requires Falling(d)
    ensures NdcgAtK(["a", "a"], [Judged("a", 1)], 2, d) > 1.0
  {
    var js := [Judged("a", 1)];
    assert Sorting.Sort(AtLeast, Grades(js)) == [1];
    assert Ideal(js, 2) == [1] && Actual(["a", "a"], js, 2) == [1, 1];
    assert [1, 1][..1] == [1] && [1][..0] == [];
    assert Gain(1) == 1;
    assert Dcg([1], d) == d(0) && Dcg([1, 1], d) == d(0) + d(1);
    OverOne(d(0) + d(1), d(0));
  }

  // ---- what a grade is worth -------------------------------------------------

  /** Each grade is worth twice the one below it and one more: 0, 1, 3, 7, and so on. */
  lemma GainDoubles(grade: nat)
    ensures Gain(0) == 0 && Gain(grade + 1) == 2 * Gain(grade) + 1
  {
    assert Pow2(grade + 1) == 2 * Pow2(grade);
  }

  /** What grade x in the first place and grade y in the second are worth: (2^x - 1) d(0) + (2^y - 1) d(1). */
  function InTwoPlaces(x: nat, y: nat, d: nat -> real): real {
    (Pow2(x) - 1) as real * d(0) + (Pow2(y) - 1) as real * d(1)
  }

  /** Two judged results in the order b, a score by what their grades are worth at their places. */
  lemma TwoRanked(a: Id, b: Id, g: nat, h: nat, d: nat -> real)
    requires Falling(d) && a != b && (g > 0 || h > 0)
    ensures var best := if g >= h then InTwoPlaces(g, h, d) else InTwoPlaces(h, g, d);
            best > 0.0 && NdcgAtK([b, a], [Judged(a, g), Judged(b, h)], 2, d) == InTwoPlaces(h, g, d) / best
  {
    hide Dcg, Ideal, Actual, NdcgAtK, InTwoPlaces;
    IdealTwo(a, b, g, h);
    ActualTwo(a, b, g, h);
    TwoGrades(g, h, d);
    TwoGrades(h, g, d);
    if g >= h {
      BestPositive(g, h, d);
    } else {
      BestPositive(h, g, d);
    }
    ByIdeal([b, a], [Judged(a, g), Judged(b, h)], 2, d);
  }

  lemma ByIdeal(ranked: seq<Id>, js: seq<Judged>, k: nat, d: nat -> real)
    requires Dcg(Ideal(js, k), d) > 0.0
    ensures NdcgAtK(ranked, js, k, d) == Dcg(Actual(ranked, js, k), d) / Dcg(Ideal(js, k), d)
  {
  }

  lemma SortTwo(g: nat, h: nat)
    ensures Sorting.Sort(AtLeast, [g, h]) == if g >= h then [g, h] else [h, g]
  {
    assert [g, h][1..] == [h] && [h][1..] == [];
    assert Sorting.Sort(AtLeast, [h]) == [h];
    assert Sorting.Insert(AtLeast, g, []) == [g];
  }

  lemma IdealTwo(a: Id, b: Id, g: nat, h: nat)
    ensures Ideal([Judged(a, g), Judged(b, h)], 2) == if g >= h then [g, h] else [h, g]
  {
    hide Sorting.Sort;
    assert Grades([Judged(a, g), Judged(b, h)]) == [g, h];
    SortTwo(g, h);
  }

  lemma ActualTwo(a: Id, b: Id, g: nat, h: nat)
    requires a != b
    ensures Actual([b, a], [Judged(a, g), Judged(b, h)], 2) == [h, g]
  {
    var js := [Judged(a, g), Judged(b, h)];
    assert js[1..] == [Judged(b, h)];
    assert GradeOf(js, a) == g && GradeOf(js, b) == h;
  }

  lemma TwoGrades(x: nat, y: nat, d: nat -> real)
    ensures Dcg([x, y], d) == InTwoPlaces(x, y, d)
  {
    hide Pow2;
    assert [x, y][..1] == [x] && [x][..0] == [];
    assert Dcg([x], d) == Worth(Gain(x), d(0));
  }

  lemma BestPositive(most: nat, least: nat, d: nat -> real)
    requires Falling(d) && most > 0
    ensures InTwoPlaces(most, least, d) > 0.0
  {
    assert Pow2(most) >= 2;
    assert (Pow2(most) - 1) as real * d(0) > 0.0;
    assert (Pow2(least) - 1) as real * d(1) >= 0.0;
  }

  /** With one relevant memory, whatever its grade, the score is the discount of its place relative to the
      first place, and zero if it is not among the first k. */
  lemma OneRelevant(ranked: seq<Id>, id: Id, grade: nat, k: nat, i: nat, d: nat -> real)
    requires Falling(d) && Distinct(ranked) && grade > 0 && k > 0
    requires i < |ranked| ==> ranked[i] == id
    requires i >= |ranked| ==> id !in ranked
    ensures NdcgAtK(ranked, [Judged(id, grade)], k, d) == if i < k && i < |ranked| then d(i) / d(0) else 0.0
  {
    hide Gain, Worth, Dcg;
    var js := [Judged(id, grade)];
    assert js[1..] == [];
    assert Grades(js)[1..] == [] && Sorting.Sort(AtLeast, Grades(js)) == [grade];
    assert Ideal(js, k) == [grade];
    OneGrade([grade], 0, 1, d);
    DcgIsWeighted([grade], 1, d);
    var actual := Actual(ranked, js, k);
    DcgIsWeighted(actual, |actual|, d);
    forall j: nat | j < |actual|
      ensures actual[j] == if j == i then grade else 0
    {
      OnlyGrade(id, grade, ranked[j]);
      assert ranked[j] in ranked;
      if j != i && i < |ranked| {
        assert ranked[j] != ranked[i];
      }
    }
    OneGrade(actual, i, |actual|, d);
    PositiveGain(grade);
    Shared(Gain(grade), d(i), d(0));
  }

  lemma OnlyGrade(id: Id, grade: nat, x: Id)
    ensures GradeOf([Judged(id, grade)], x) == if x == id then grade else 0
  {
    assert [Judged(id, grade)][1..] == [];
  }

  /** Where one place alone holds a grade, the sum is that place's. */
  lemma {:induction false} OneGrade(grades: seq<nat>, i: nat, n: nat, d: nat -> real)
    requires n <= |grades| && forall j: nat | j < n && j != i :: grades[j] == 0
    ensures Weighted(grades, n, d) == if i < n then Worth(Gain(grades[i]), d(i)) else 0.0
  {
    hide Gain, Worth;
    if n > 0 {
      OneGrade(grades, i, n - 1, d);
      NothingAt(d(n - 1));
    }
  }

  lemma NothingAt(w: real)
    ensures Worth(Gain(0), w) == 0.0
  {
  }

  lemma Shared(gain: nat, x: real, y: real)
    requires gain > 0 && y > 0.0
    ensures Worth(gain, y) > 0.0 && Worth(gain, x) / Worth(gain, y) == x / y && 0.0 / Worth(gain, y) == 0.0
  {
    var g := gain as real;
    assert g * y > 0.0;
    assert x / y * y == x;
    assert (x / y) * (g * y) == g * x;
  }

  lemma OverOne(x: real, y: real)
    requires x > y > 0.0
    ensures x / y > 1.0
  {
    assert (x / y) * y == x;
  }
}

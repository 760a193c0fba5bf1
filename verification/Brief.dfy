/** What a selection guarantees: the budget, the maximality, the diversity and the counts. */
module Brief {
  import opened Basics
  import opened Schema
  import opened Selector
  import Sorting

  ghost predicate DistinctIds(s: seq<Candidate>) {
    forall i, j | 0 <= i < j < |s| :: s[i].id != s[j].id
  }

  // ---- lists -----------------------------------------------------------------

  lemma SameId(s: seq<Candidate>, a: Candidate, b: Candidate)
    requires DistinctIds(s) && a in s && b in s && a.id == b.id
    ensures a == b
  {
    var i :| 0 <= i < |s| && s[i] == a;
    var j :| 0 <= j < |s| && s[j] == b;
    assert i == j;
  }

  lemma WithoutOne(s: seq<Candidate>, i: nat)
    requires DistinctIds(s) && i < |s|
    ensures DistinctIds(Without(s, i))
    ensures forall c :: c in s <==> c == s[i] || c in Without(s, i)
    ensures s[i].id !in IdsOf(Without(s, i))
    ensures IdsOf(s) == IdsOf(Without(s, i)) + {s[i].id}
  {
    var r := Without(s, i);
    forall c
      ensures c in s <==> c == s[i] || c in r
    {
      if c in s {
        var k :| 0 <= k < |s| && s[k] == c;
        assert k < i ==> r[k] == c;
        assert k > i ==> r[k - 1] == c;
      }
      if c in r {
        var k :| 0 <= k < |r| && r[k] == c;
        assert c == if k < i then s[k] else s[k + 1];
      }
    }
    forall c | c in r
      ensures c.id != s[i].id
    {
      var k :| 0 <= k < |r| && r[k] == c;
      assert c == if k < i then s[k] else s[k + 1];
    }
  }

  lemma {:induction false} FilterMembers(s: seq<Candidate>, p: Candidate -> bool)
    ensures forall c :: c in Filter(s, p) <==> c in s && p(c)
    ensures DistinctIds(s) ==> DistinctIds(Filter(s, p))
  {
    if s != [] {
      var init := s[..|s| - 1];
      FilterMembers(init, p);
      assert s == init + [s[|s| - 1]];
      if DistinctIds(s) {
        forall c | c in Filter(init, p)
          ensures c.id != s[|s| - 1].id
        {
          assert c in init;
        }
      }
    }
  }

  lemma {:induction false} IdsCount(s: seq<Candidate>)
    requires DistinctIds(s)
    ensures |IdsOf(s)| == |s|
  {
    if s != [] {
      var init, last := s[..|s| - 1], s[|s| - 1];
      IdsCount(init);
      assert s == init + [last];
      assert IdsOf(s) == IdsOf(init) + {last.id};
      assert last.id !in IdsOf(init);
    }
  }

  lemma {:induction false} TokensJoin(a: seq<Candidate>, b: seq<Candidate>)
    ensures Tokens(a + b) == Tokens(a) + Tokens(b)
  {
    if b == [] {
      assert a + b == a;
    } else {
      TokensJoin(a, b[..|b| - 1]);
      assert (a + b)[..|a + b| - 1] == a + b[..|b| - 1];
    }
  }

  lemma TokensFirst(c: Candidate, s: seq<Candidate>)
    ensures Tokens([c] + s) == c.tokens + Tokens(s)
  {
    TokensJoin([c], s);
    assert [c][..0] == [];
  }

  /** Sorting by density changes neither what is there nor that ids are distinct. */
  lemma SortedMembers(pool: seq<Candidate>, already: seq<Candidate>)
    requires DistinctIds(pool)
    ensures DistinctIds(Sorted(pool, already))
    ensures forall c :: c in Sorted(pool, already) <==> c in pool && c.id !in IdsOf(already)
  {
    var p := (c: Candidate) => c.id !in IdsOf(already);
    FilterMembers(pool, p);
    PermutedDistinct(Filter(pool, p), Sorted(pool, already));
  }

  lemma PermutedDistinct(a: seq<Candidate>, b: seq<Candidate>)
    requires DistinctIds(a) && b == Sorting.Sort(ByDensity, a)
    ensures DistinctIds(b) && forall c :: c in b <==> c in a
  {
    Sorting.SortKeeps(ByDensity, a);
    Sorting.SortMembers(ByDensity, a);
    Sorting.PermutedDistinct((c: Candidate) => c.id, a, b);
  }

  // ---- one fill --------------------------------------------------------------

  lemma {:induction false} BestAffordable(remaining: seq<Candidate>, room: int, texts: seq<Words>)
    ensures Best(remaining, room, texts).None? ==> forall c | c in remaining :: c.tokens > room
  {
    if remaining != [] {
      BestAffordable(remaining[..|remaining| - 1], room, texts);
      assert remaining == remaining[..|remaining| - 1] + [remaining[|remaining| - 1]];
    }
  }

  /** What is picked next: nothing affordable is worth more, nothing affordable before it as much. */
  lemma {:induction false} BestDecides(remaining: seq<Candidate>, room: int, texts: seq<Words>, j: nat)
    requires j < |remaining| && remaining[j].tokens <= room
    ensures Best(remaining, room, texts).Some?
    ensures var i := Best(remaining, room, texts).value;
            && remaining[i].tokens <= room
            && Value(remaining[j], texts) <= Value(remaining[i], texts)
            && (j < i ==> Value(remaining[j], texts) < Value(remaining[i], texts))
  {
    hide Value;
    if j < |remaining| - 1 {
      BestDecides(remaining[..|remaining| - 1], room, texts, j);
    }
  }

  // ---- which one is picked ---------------------------------------------------

  /** m is the greatest overlap with a text already chosen, zero if there is none. */
  ghost predicate Nearest(words: Words, texts: seq<Words>, m: real) {
    && (forall i | 0 <= i < |texts| :: Similarity(words, texts[i]) <= m)
    && (m == 0.0 || exists i :: 0 <= i < |texts| && Similarity(words, texts[i]) == m)
    && m >= 0.0
  }

  lemma {:induction false} ClosestIsNearest(words: Words, texts: seq<Words>)
    ensures Nearest(words, texts, Closest(words, texts))
  {
    hide Similarity;
    if texts != [] {
      var init := texts[..|texts| - 1];
      ClosestIsNearest(words, init);
      if Closest(words, texts) == Similarity(words, texts[|init|]) {
      } else if i :| 0 <= i < |init| && Similarity(words, init[i]) == Closest(words, init) {
        assert texts[i] == init[i];
      }
    }
  }

  /** A candidate is worth its score per token, less three tenths of that for full overlap with the
      nearest text already chosen; one that scores nothing has a billionth of novelty to offer. */
  lemma WorthOf(c: Candidate, texts: seq<Words>, m: real)
    requires c.tokens > 0 && Nearest(c.words, texts, m)
    ensures c.score != 0.0 ==> 10.0 * Value(c, texts) * c.tokens as real == c.score * (10.0 - 3.0 * m)
    ensures c.score == 0.0 ==> Value(c, texts) == 0.3 * (1.0 - m) * 0.000000001
  {
    hide Similarity, Closest;
    ClosestIsNearest(c.words, texts);
    assert Closest(c.words, texts) == m;
    var d, t := Density(c), c.tokens as real;
    assert d * t == c.score;
    if c.score != 0.0 {
      assert d != 0.0;
      assert 10.0 * Value(c, texts) == d * (10.0 - 3.0 * m);
      assert 10.0 * Value(c, texts) * t == (d * t) * (10.0 - 3.0 * m);
    } else {
      assert d == 0.0;
    }
  }

  /** The candidate a filling looks at first: affordable, of the highest value, among equals of the
      higher score per token and then of the smaller id; it is taken unless it repeats a chosen text. */
  lemma FirstPick(pool: seq<Candidate>, allowance: int, already: seq<Candidate>, c: Candidate) returns (b: Candidate)
    requires c in pool && c.id !in IdsOf(already) && c.tokens <= allowance
    ensures b in pool && b.id !in IdsOf(already) && b.tokens <= allowance
    ensures var texts := Texts(already);
            || Value(c, texts) < Value(b, texts)
            || (Value(c, texts) == Value(b, texts) && (Density(c) < Density(b) || (Density(c) == Density(b) && b.id <= c.id)))
    ensures var f := FillOf(pool, allowance, already);
            if exists i :: 0 <= i < |already| && b.words != {} && already[i].words != {}
                           && 5 * |b.words * already[i].words| >= 3 * |b.words + already[i].words|
            then b.id in f.rejected else f.taken != [] && f.taken[0] == b
  {
    hide Value, Density, Greedy, Redundant, Similarity, Sorting.Sort;
    var s, texts := Sorted(pool, already), Texts(already);
    var p := (d: Candidate) => d.id !in IdsOf(already);
    FilterMembers(pool, p);
    ByDensityTotal();
    Sorting.SortMembers(ByDensity, Filter(pool, p));
    Sorting.SortOrders(ByDensity, Filter(pool, p));
    var j :| 0 <= j < |s| && s[j] == c;
    BestDecides(s, allowance, texts, j);
    var i := Best(s, allowance, texts).value;
    b := s[i];
    assert j > i ==> ByDensity(s[i], s[j]);
    GreedyStep(s, allowance, texts);
    RepeatsChosen(b.words, already);
  }

  lemma RepeatsChosen(words: Words, already: seq<Candidate>)
    ensures Redundant(words, Texts(already))
            <==> exists i :: 0 <= i < |already| && words != {} && already[i].words != {}
                             && 5 * |words * already[i].words| >= 3 * |words + already[i].words|
  {
    hide Similarity;
    forall i | 0 <= i < |already|
      ensures Similarity(words, Texts(already)[i]) >= DUPLICATE_SIMILARITY
              <==> words != {} && already[i].words != {} && 5 * |words * already[i].words| >= 3 * |words + already[i].words|
    {
      Overlap(words, already[i].words);
    }
  }

  /** Every candidate ends up taken, rejected or left, exactly one of the three. */
  ghost predicate Partitioned(s: seq<Candidate>, f: Filled) {
    && DistinctIds(f.taken) && DistinctIds(f.left)
    && (forall c | c in f.taken :: c in s) && (forall c | c in f.left :: c in s)
    && IdsOf(f.taken) + f.rejected + IdsOf(f.left) == IdsOf(s)
    && IdsOf(f.taken) !! f.rejected && IdsOf(f.taken) !! IdsOf(f.left) && f.rejected !! IdsOf(f.left)
  }

  lemma PutTaken(s: seq<Candidate>, i: nat, f: Filled)
    requires DistinctIds(s) && i < |s| && Partitioned(Without(s, i), f)
    ensures Partitioned(s, Filled([s[i]] + f.taken, s[i].tokens + f.spent, f.rejected, f.left))
  {
    WithoutOne(s, i);
    var g := [s[i]] + f.taken;
    forall c | c in f.taken
      ensures c.id in IdsOf(Without(s, i))
    {
      assert c.id in IdsOf(f.taken);
    }
    assert forall k | 0 < k < |g| :: g[k] in f.taken;
    assert IdsOf(g) == {s[i].id} + IdsOf(f.taken);
  }

  lemma PutRejected(s: seq<Candidate>, i: nat, f: Filled)
    requires DistinctIds(s) && i < |s| && Partitioned(Without(s, i), f)
    ensures Partitioned(s, Filled(f.taken, f.spent, {s[i].id} + f.rejected, f.left))
  {
    WithoutOne(s, i);
  }

  lemma {:induction false} GreedyPartitions(s: seq<Candidate>, room: int, texts: seq<Words>)
    requires DistinctIds(s)
    ensures Partitioned(s, Greedy(s, room, texts))
    decreases |s|
  {
    hide Partitioned, Best, Redundant, Greedy;
    var b := Best(s, room, texts);
    if b.None? {
      GreedyEnds(s, room, texts);
      NothingTaken(s);
    } else {
      GreedyStep(s, room, texts);
      var best, rest := s[b.value], Without(s, b.value);
      WithoutOne(s, b.value);
      if Redundant(best.words, texts) {
        GreedyPartitions(rest, room, texts);
        PutRejected(s, b.value, Greedy(rest, room, texts));
      } else {
        GreedyPartitions(rest, room - best.tokens, texts + [best.words]);
        PutTaken(s, b.value, Greedy(rest, room - best.tokens, texts + [best.words]));
      }
    }
  }

  lemma NothingTaken(s: seq<Candidate>)
    requires DistinctIds(s)
    ensures Partitioned(s, Filled([], 0, {}, s))
  {
  }

  /** Spending is what the taken ones cost, never over the room, and nothing left would still fit. */
  lemma {:induction false} GreedySpends(s: seq<Candidate>, room: int, texts: seq<Words>)
    ensures var f := Greedy(s, room, texts);
            && f.spent == Tokens(f.taken)
            && f.spent <= (if room > 0 then room else 0)
            && forall c | c in f.left :: c.tokens > room - f.spent
    decreases |s|
  {
    hide Best, Redundant, Greedy, Tokens;
    var b := Best(s, room, texts);
    if b.None? {
      GreedyEnds(s, room, texts);
      BestAffordable(s, room, texts);
      NoTokens();
    } else {
      GreedyStep(s, room, texts);
      var best, rest := s[b.value], Without(s, b.value);
      if Redundant(best.words, texts) {
        GreedySpends(rest, room, texts);
      } else {
        GreedySpends(rest, room - best.tokens, texts + [best.words]);
        TokensFirst(best, Greedy(rest, room - best.tokens, texts + [best.words]).taken);
      }
    }
  }

  lemma NoTokens()
    ensures Tokens([]) == 0
  {
  }

  ghost predicate Novel(words: Words, texts: seq<Words>) {
    forall i | 0 <= i < |texts| :: Similarity(words, texts[i]) < DUPLICATE_SIMILARITY
  }

  /** Pairwise below the duplicate threshold, and below it towards the texts already there. */
  ghost predicate Diverse(taken: seq<Candidate>, texts: seq<Words>) {
    && (forall i | 0 <= i < |taken| :: Novel(taken[i].words, texts))
    && (forall i, j | 0 <= i < j < |taken| :: Similarity(taken[i].words, taken[j].words) < DUPLICATE_SIMILARITY)
  }

  lemma SimilaritySymmetric(a: Words, b: Words)
    ensures Similarity(a, b) == Similarity(b, a)
  {
    assert a * b == b * a && a + b == b + a;
  }

  lemma DiverseFirst(best: Candidate, taken: seq<Candidate>, texts: seq<Words>)
    requires Novel(best.words, texts) && Diverse(taken, texts + [best.words])
    ensures Diverse([best] + taken, texts)
  {
    var g := [best] + taken;
    var more := texts + [best.words];
    forall i | 0 <= i < |taken|
      ensures Novel(taken[i].words, texts) && Similarity(best.words, taken[i].words) < DUPLICATE_SIMILARITY
    {
      assert forall k | 0 <= k < |texts| :: more[k] == texts[k];
      assert more[|texts|] == best.words;
      SimilaritySymmetric(best.words, taken[i].words);
    }
    forall i, j | 0 <= i < j < |g|
      ensures Similarity(g[i].words, g[j].words) < DUPLICATE_SIMILARITY
    {
      assert g[j] == taken[j - 1];
    }
  }

  lemma {:induction false} GreedyDiverse(s: seq<Candidate>, room: int, texts: seq<Words>)
    ensures Diverse(Greedy(s, room, texts).taken, texts)
    decreases |s|
  {
    hide Best, Greedy, Similarity, Diverse;
    var b := Best(s, room, texts);
    if b.None? {
      GreedyEnds(s, room, texts);
      NothingDiverse(texts);
    } else {
      GreedyStep(s, room, texts);
      var best, rest := s[b.value], Without(s, b.value);
      if Redundant(best.words, texts) {
        GreedyDiverse(rest, room, texts);
      } else {
        GreedyDiverse(rest, room - best.tokens, texts + [best.words]);
        DiverseFirst(best, Greedy(rest, room - best.tokens, texts + [best.words]).taken, texts);
      }
    }
  }

  lemma NothingDiverse(texts: seq<Words>)
    ensures Diverse([], texts)
  {
  }

  /** A rejected id has a candidate that repeats, at the threshold or above, a text in the brief. */
  ghost predicate Witnessed(s: seq<Candidate>, texts: seq<Words>, x: Id) {
    exists c :: c in s && c.id == x && Redundant(c.words, texts)
  }

  lemma RedundantMore(words: Words, texts: seq<Words>, more: seq<Words>)
    requires Redundant(words, texts)
    ensures Redundant(words, texts + more)
  {
    var i :| 0 <= i < |texts| && Similarity(words, texts[i]) >= DUPLICATE_SIMILARITY;
    assert (texts + more)[i] == texts[i];
  }

  lemma WitnessedMore(s: seq<Candidate>, texts: seq<Words>, t: seq<Candidate>, more: seq<Words>, x: Id)
    requires Witnessed(s, texts, x) && (forall c | c in s :: c in t) && texts <= more
    ensures Witnessed(t, more, x)
  {
    var c :| c in s && c.id == x && Redundant(c.words, texts);
    RedundantMore(c.words, texts, more[|texts|..]);
    assert more == texts + more[|texts|..];
    assert c in t && c.id == x && Redundant(c.words, more);
  }

  lemma {:induction false} GreedyWitnesses(s: seq<Candidate>, room: int, texts: seq<Words>, x: Id)
    requires x in Greedy(s, room, texts).rejected
    ensures Witnessed(s, texts + Texts(Greedy(s, room, texts).taken), x)
    decreases |s|
  {
    hide Best, Redundant, Greedy, Witnessed;
    var b := Best(s, room, texts);
    if b.None? {
      GreedyEnds(s, room, texts);
      assert false;
    } else {
      GreedyStep(s, room, texts);
      var best, rest := s[b.value], Without(s, b.value);
      var all := texts + Texts(Greedy(s, room, texts).taken);
      assert forall c | c in rest :: c in s;
      if Redundant(best.words, texts) {
        if x == best.id {
          WitnessedBy(s, texts, best);
          WitnessedMore(s, texts, s, all, x);
        } else {
          GreedyWitnesses(rest, room, texts, x);
          WitnessedMore(rest, all, s, all, x);
        }
      } else {
        GreedyWitnesses(rest, room - best.tokens, texts + [best.words], x);
        var f := Greedy(rest, room - best.tokens, texts + [best.words]);
        assert Texts([best] + f.taken) == [best.words] + Texts(f.taken);
        assert all == texts + [best.words] + Texts(f.taken);
        WitnessedMore(rest, all, s, all, x);
      }
    }
  }

  lemma WitnessedBy(s: seq<Candidate>, texts: seq<Words>, c: Candidate)
    requires c in s && Redundant(c.words, texts)
    ensures Witnessed(s, texts, c.id)
  {
  }

  // ---- the passes ------------------------------------------------------------

  /** What holds between passes, for the candidates that fit alone. */
  ghost predicate Sound(fitting: seq<Candidate>, s: Sofar) {
    && DistinctIds(s.selected) && (forall c | c in s.selected :: c in fitting)
    && s.used == Tokens(s.selected)
    && s.redundant <= IdsOf(fitting) && s.redundant !! IdsOf(s.selected)
    && Diverse(s.selected, [])
    && (forall x | x in s.redundant :: Witnessed(fitting, Texts(s.selected), x))
  }

  lemma DiverseJoin(a: seq<Candidate>, b: seq<Candidate>)
    requires Diverse(a, []) && Diverse(b, Texts(a))
    ensures Diverse(a + b, [])
  {
    var s := a + b;
    forall i, j | 0 <= i < j < |s|
      ensures Similarity(s[i].words, s[j].words) < DUPLICATE_SIMILARITY
    {
      if i < |a| <= j {
        assert Novel(b[j - |a|].words, Texts(a)) && Texts(a)[i] == s[i].words;
        SimilaritySymmetric(s[i].words, s[j].words);
      } else if j < |a| {
        assert s[i] == a[i] && s[j] == a[j];
      } else {
        assert s[i] == b[i - |a|] && s[j] == b[j - |a|];
      }
    }
  }

  lemma DistinctJoin(a: seq<Candidate>, b: seq<Candidate>)
    requires DistinctIds(a) && DistinctIds(b) && IdsOf(a) !! IdsOf(b)
    ensures DistinctIds(a + b) && IdsOf(a + b) == IdsOf(a) + IdsOf(b)
  {
    var s := a + b;
    forall i, j | 0 <= i < j < |s|
      ensures s[i].id != s[j].id
    {
      if i < |a| <= j {
        assert s[i] in a && s[j] in b;
        assert s[i].id in IdsOf(a) && s[j].id in IdsOf(b);
      } else if j < |a| {
        assert s[i] == a[i] && s[j] == a[j];
      } else {
        assert s[i] == b[i - |a|] && s[j] == b[j - |a|];
      }
    }
    assert forall c :: c in s <==> c in a || c in b;
  }

  /** The facts of one fill from a pool, in terms of the pool. */
  lemma FillFacts(pool: seq<Candidate>, allowance: int, already: seq<Candidate>)
    requires DistinctIds(pool)
    ensures var f := FillOf(pool, allowance, already);
            && Partitioned(Sorted(pool, already), f)
            && f.spent == Tokens(f.taken) && f.spent <= (if allowance > 0 then allowance else 0)
            && (forall c | c in f.left :: c.tokens > allowance - f.spent)
            && Diverse(f.taken, Texts(already))
            && (forall x | x in f.rejected :: Witnessed(Sorted(pool, already), Texts(already) + Texts(f.taken), x))
  {
    hide Partitioned, Greedy, Diverse, Witnessed, Tokens, Sorted, DistinctIds;
    var s := Sorted(pool, already);
    SortedMembers(pool, already);
    GreedyPartitions(s, allowance, Texts(already));
    GreedySpends(s, allowance, Texts(already));
    GreedyDiverse(s, allowance, Texts(already));
    var f := FillOf(pool, allowance, already);
    forall x | x in f.rejected
      ensures Witnessed(s, Texts(already) + Texts(f.taken), x)
    {
      GreedyWitnesses(s, allowance, Texts(already), x);
    }
  }

  lemma JoinIds(fitting: seq<Candidate>, s: Sofar, pool: seq<Candidate>, f: Filled)
    requires Sound(fitting, s) && DistinctIds(pool) && (forall c | c in pool :: c in fitting && c.id !in s.redundant)
    requires Partitioned(Sorted(pool, s.selected), f)
    ensures var t := Join(s, f);
            && DistinctIds(t.selected) && (forall c | c in t.selected :: c in fitting)
            && t.redundant <= IdsOf(fitting) && t.redundant !! IdsOf(t.selected)
            && IdsOf(t.selected) == IdsOf(s.selected) + IdsOf(f.taken)
  {
    hide Diverse, Witnessed, Tokens, Sorted;
    SortedMembers(pool, s.selected);
    var sorted := Sorted(pool, s.selected);
    forall x | x in IdsOf(sorted)
      ensures x !in IdsOf(s.selected) && x !in s.redundant && x in IdsOf(fitting)
    {
      var c :| c in sorted && c.id == x;
    }
    assert IdsOf(f.taken) <= IdsOf(sorted) && f.rejected <= IdsOf(sorted);
    DistinctJoin(s.selected, f.taken);
  }

  lemma TextsJoin(a: seq<Candidate>, b: seq<Candidate>)
    ensures Texts(a + b) == Texts(a) + Texts(b)
  {
  }

  lemma JoinWitnesses(fitting: seq<Candidate>, s: Sofar, pool: seq<Candidate>, f: Filled, x: Id)
    requires Sound(fitting, s) && DistinctIds(pool) && (forall c | c in pool :: c in fitting)
    requires forall y | y in f.rejected :: Witnessed(Sorted(pool, s.selected), Texts(s.selected) + Texts(f.taken), y)
    requires x in Join(s, f).redundant
    ensures Witnessed(fitting, Texts(Join(s, f).selected), x)
  {
    hide Diverse, Witnessed, Tokens, Sorted;
    SortedMembers(pool, s.selected);
    TextsJoin(s.selected, f.taken);
    var all := Texts(Join(s, f).selected);
    if x in f.rejected {
      WitnessedMore(Sorted(pool, s.selected), all, fitting, all, x);
    } else {
      WitnessedMore(fitting, Texts(s.selected), fitting, all, x);
    }
  }

  lemma JoinSound(fitting: seq<Candidate>, s: Sofar, pool: seq<Candidate>, allowance: int)
    requires Sound(fitting, s) && DistinctIds(pool) && (forall c | c in pool :: c in fitting && c.id !in s.redundant)
    ensures Sound(fitting, Join(s, FillOf(pool, allowance, s.selected)))
  {
    hide Diverse, Witnessed, Tokens, Sorted, FillOf, Partitioned, DistinctIds;
    var f := FillOf(pool, allowance, s.selected);
    FillFacts(pool, allowance, s.selected);
    JoinIds(fitting, s, pool, f);
    TokensJoin(s.selected, f.taken);
    DiverseJoin(s.selected, f.taken);
    forall x | x in Join(s, f).redundant
      ensures Witnessed(fitting, Texts(Join(s, f).selected), x)
    {
      JoinWitnesses(fitting, s, pool, f, x);
    }
  }

  ghost predicate DistinctKinds(quotas: seq<Quota>) {
    forall i, j | 0 <= i < j < |quotas| :: quotas[i].kind != quotas[j].kind
  }

  ghost predicate OfKinds(fitting: seq<Candidate>, quotas: seq<Quota>, ids: set<Id>) {
    forall c | c in fitting && c.id in ids :: exists i :: 0 <= i < |quotas| && quotas[i].kind == c.kind
  }

  lemma {:induction false} PassesSound(fitting: seq<Candidate>, spendable: nat, quotas: seq<Quota>)
    requires DistinctIds(fitting) && DistinctKinds(quotas)
    ensures Sound(fitting, Passes(fitting, spendable, quotas))
    ensures OfKinds(fitting, quotas, Passes(fitting, spendable, quotas).redundant)
  {
    hide Sound, FillOf, Allowance, DistinctIds;
    if quotas == [] {
      NothingSound(fitting);
    } else {
      var init, q := quotas[..|quotas| - 1], quotas[|quotas| - 1];
      PassesSound(fitting, spendable, init);
      OnePass(fitting, spendable, init, q, Passes(fitting, spendable, init));
      assert quotas == init + [q];
    }
  }

  lemma NothingSound(fitting: seq<Candidate>)
    ensures Sound(fitting, Sofar([], {}, 0))
  {
  }

  lemma OnePass(fitting: seq<Candidate>, spendable: nat, init: seq<Quota>, q: Quota, s: Sofar)
    requires DistinctIds(fitting) && Sound(fitting, s) && OfKinds(fitting, init, s.redundant)
    requires DistinctKinds(init + [q])
    ensures var t := Join(s, FillOf(OfKind(fitting, q.kind), Allowance(spendable, q), s.selected));
            Sound(fitting, t) && OfKinds(fitting, init + [q], t.redundant)
  {
    hide Sound, FillOf, Allowance, Partitioned, DistinctIds, Sorted;
    var pool := OfKind(fitting, q.kind);
    FilterMembers(fitting, (c: Candidate) => c.kind == q.kind);
    var quotas := init + [q];
    assert quotas[|init|] == q && forall i | 0 <= i < |init| :: quotas[i] == init[i];
    forall c | c in pool
      ensures c.id !in s.redundant
    {
    }
    JoinSound(fitting, s, pool, Allowance(spendable, q));
    var f := FillOf(pool, Allowance(spendable, q), s.selected);
    FillFacts(pool, Allowance(spendable, q), s.selected);
    forall c | c in fitting && c.id in Join(s, f).redundant
      ensures exists i :: 0 <= i < |quotas| && quotas[i].kind == c.kind
    {
      if c.id in s.redundant {
        var i :| 0 <= i < |init| && init[i].kind == c.kind;
        assert quotas[i].kind == c.kind;
      } else {
        RejectedFromPool(fitting, pool, s, f, c);
        assert quotas[|init|].kind == c.kind;
      }
    }
  }

  lemma RejectedFromPool(fitting: seq<Candidate>, pool: seq<Candidate>, s: Sofar, f: Filled, c: Candidate)
    requires DistinctIds(fitting) && DistinctIds(pool) && (forall d | d in pool :: d in fitting)
    requires Partitioned(Sorted(pool, s.selected), f) && c in fitting && c.id in f.rejected
    ensures c in pool
  {
    hide DistinctIds, Sorted;
    SortedMembers(pool, s.selected);
    assert c.id in IdsOf(Sorted(pool, s.selected));
    var d :| d in Sorted(pool, s.selected) && d.id == c.id;
    SameId(fitting, c, d);
  }

  lemma QuotasKeepKinds(quotas: seq<Quota>)
    requires DistinctKinds(quotas)
    ensures DistinctKinds(ActiveQuotas(quotas))
  {
    hide ActiveQuotas;
    var q := if quotas == [] then TYPE_QUOTA else quotas;
    ActiveShares(quotas);
    assert DistinctKinds(q);
    Sorting.PermutedDistinct((x: Quota) => x.kind, q, ActiveQuotas(quotas));
  }

  lemma FinalSound(candidates: seq<Candidate>, budget: int, quotas: seq<Quota>)
    requires DistinctIds(candidates) && DistinctKinds(quotas)
    ensures DistinctIds(Fitting(candidates, UsableBudget(budget)))
    ensures Sound(Fitting(candidates, UsableBudget(budget)), Final(candidates, budget, quotas))
  {
    hide Sound, FillOf, Passes, ActiveQuotas, UsableBudget;
    var spendable := UsableBudget(budget);
    var fitting := Fitting(candidates, spendable);
    FilterMembers(candidates, (c: Candidate) => c.tokens <= spendable);
    QuotasKeepKinds(quotas);
    PassesSound(fitting, spendable, ActiveQuotas(quotas));
    var s := Passes(fitting, spendable, ActiveQuotas(quotas));
    FilterMembers(fitting, (c: Candidate) => c.id !in IdsOf(s.selected) && c.id !in s.redundant);
    if spendable - s.used > 0 {
      JoinSound(fitting, s, Leftovers(fitting, s), spendable - s.used);
    }
  }

  // ---- the main facts --------------------------------------------------------

  lemma ByPlaceTotal()
    ensures Sorting.Total(ByPlace)
  {
  }

  /** The brief lists what was selected, by section, score and id. */
  lemma BriefInOrder(candidates: seq<Candidate>, budget: int, quotas: seq<Quota>)
    ensures multiset(SelectionOf(candidates, budget, quotas).selected) == multiset(Final(candidates, budget, quotas).selected)
    ensures var b := SelectionOf(candidates, budget, quotas).selected;
            forall i, j | 0 <= i < j < |b| ::
              if b[i].kind == b[j].kind then b[i].score > b[j].score || (b[i].score == b[j].score && b[i].id <= b[j].id)
              else b[i].kind == CONSTRAINT || (b[i].kind == DECISION && b[j].kind != CONSTRAINT) || (b[i].kind == FACT && b[j].kind == TASK)
    ensures forall c :: c in SelectionOf(candidates, budget, quotas).selected <==> c in Final(candidates, budget, quotas).selected
  {
    hide Final;
    var s := Final(candidates, budget, quotas).selected;
    ByPlaceTotal();
    Sorting.SortKeeps(ByPlace, s);
    Sorting.SortOrders(ByPlace, s);
    Sorting.SortMembers(ByPlace, s);
  }

  ghost function Budgetless(candidates: seq<Candidate>, budget: int, quotas: seq<Quota>): set<Id> {
    var s := Final(candidates, budget, quotas);
    set c | c in candidates && c.tokens <= UsableBudget(budget) && c.id !in IdsOf(s.selected) && c.id !in s.redundant :: c.id
  }

  ghost function TooLarge(candidates: seq<Candidate>, budget: int): set<Id> {
    set c | c in candidates && c.tokens > UsableBudget(budget) :: c.id
  }

  /** Every candidate is counted once, under what really happened to it. */
  lemma AccountingExact(candidates: seq<Candidate>, budget: int, quotas: seq<Quota>)
    requires DistinctIds(candidates) && DistinctKinds(quotas)
    ensures var b, s := SelectionOf(candidates, budget, quotas), Final(candidates, budget, quotas);
            && b.budget == budget && b.considered == |candidates|
            && b.considered == |b.selected| + b.dropped.tooLarge + b.dropped.tooSimilar + b.dropped.noBudget
            && b.dropped.tooLarge == |TooLarge(candidates, budget)|
            && b.dropped.tooSimilar == |s.redundant|
            && b.dropped.noBudget == |Budgetless(candidates, budget, quotas)|
            && TooLarge(candidates, budget) + IdsOf(b.selected) + s.redundant + Budgetless(candidates, budget, quotas) == IdsOf(candidates)
            && b.used == Tokens(b.selected)
  {
    hide Final, UsableBudget, Diverse, Witnessed, Tokens, ByPlace, DistinctKinds, IdsOf;
    var spendable, s := UsableBudget(budget), Final(candidates, budget, quotas);
    var fitting := Fitting(candidates, spendable);
    FinalSound(candidates, budget, quotas);
    BriefInOrder(candidates, budget, quotas);
    TokensOfBag(s.selected, SelectionOf(candidates, budget, quotas).selected);
    SameIds(s.selected, SelectionOf(candidates, budget, quotas).selected);
    IdsCount(candidates);
    IdsCount(fitting);
    IdsCount(s.selected);
    FittingIds(candidates, budget);
    MembersWithin(s.selected, fitting);
    BudgetlessIds(candidates, budget, quotas);
    FourWays(IdsOf(candidates), TooLarge(candidates, budget), IdsOf(fitting), IdsOf(s.selected), s.redundant,
             Budgetless(candidates, budget, quotas));
  }

  lemma MembersWithin(a: seq<Candidate>, b: seq<Candidate>)
    requires forall c | c in a :: c in b
    ensures IdsOf(a) <= IdsOf(b)
  {
  }

  lemma SameIds(a: seq<Candidate>, b: seq<Candidate>)
    requires forall c :: c in b <==> c in a
    ensures IdsOf(a) == IdsOf(b)
  {
  }

  lemma {:induction false} TokensOfBag(a: seq<Candidate>, b: seq<Candidate>)
    requires multiset(a) == multiset(b)
    ensures Tokens(a) == Tokens(b)
    decreases |a|
  {
    if a == [] {
      assert |multiset(b)| == 0;
    } else {
      var i := Sorting.LastElsewhere(a, b);
      TokensOfBag(a[..|a| - 1], b[..i] + b[i + 1..]);
      TokensMoved(b, i);
    }
  }

  lemma TokensMoved(b: seq<Candidate>, i: nat)
    requires i < |b|
    ensures Tokens(b) == Tokens(b[..i] + b[i + 1..]) + b[i].tokens
  {
    hide Tokens;
    TokensJoin(b[..i], [b[i]] + b[i + 1..]);
    TokensFirst(b[i], b[i + 1..]);
    TokensJoin(b[..i], b[i + 1..]);
    assert b == b[..i] + ([b[i]] + b[i + 1..]);
  }

  lemma BudgetlessIds(candidates: seq<Candidate>, budget: int, quotas: seq<Quota>)
    requires DistinctIds(candidates)
    ensures var s := Final(candidates, budget, quotas);
            Budgetless(candidates, budget, quotas) == IdsOf(Fitting(candidates, UsableBudget(budget))) - IdsOf(s.selected) - s.redundant
  {
    hide Final, UsableBudget;
    FilterMembers(candidates, (c: Candidate) => c.tokens <= UsableBudget(budget));
  }

  lemma FittingIds(candidates: seq<Candidate>, budget: int)
    requires DistinctIds(candidates)
    ensures IdsOf(Fitting(candidates, UsableBudget(budget))) == IdsOf(candidates) - TooLarge(candidates, budget)
    ensures TooLarge(candidates, budget) <= IdsOf(candidates)
  {
    hide UsableBudget;
    var spendable := UsableBudget(budget);
    var fitting := Fitting(candidates, spendable);
    FilterMembers(candidates, (c: Candidate) => c.tokens <= spendable);
    forall c, d | c in candidates && d in candidates && c.id == d.id
      ensures c == d
    {
      SameId(candidates, c, d);
    }
  }

  lemma FourWays(all: set<Id>, large: set<Id>, fit: set<Id>, taken: set<Id>, redundant: set<Id>, none: set<Id>)
    requires large <= all && fit == all - large && taken <= fit && redundant <= fit && taken !! redundant
    requires none == fit - taken - redundant
    ensures |all| == |large| + |taken| + |redundant| + |none| && |fit| == |taken| + |redundant| + |none|
    ensures |all| - |fit| == |large|
    ensures large + taken + redundant + none == all
  {
    assert all == large + fit && large !! fit;
    assert fit == taken + redundant + none;
    assert |taken + redundant| == |taken| + |redundant|;
    assert (taken + redundant) !! none;
  }

  /** No two memories of a brief repeat each other, and whatever was dropped as too similar
      repeats one that is in it. */
  lemma BriefIsDiverse(candidates: seq<Candidate>, budget: int, quotas: seq<Quota>)
    requires DistinctIds(candidates) && DistinctKinds(quotas)
    ensures var b, s := SelectionOf(candidates, budget, quotas), Final(candidates, budget, quotas);
            && (forall c, d | c in b.selected && d in b.selected && c != d ::
                  c.words == {} || d.words == {} || 5 * |c.words * d.words| < 3 * |c.words + d.words|)
            && (forall x | x in s.redundant ::
                  exists c, d :: c in candidates && c.id == x && d in b.selected
                                 && c.words != {} && d.words != {} && 5 * |c.words * d.words| >= 3 * |c.words + d.words|)
  {
    hide Final, UsableBudget, Tokens, Similarity, ByPlace, DistinctKinds, SelectionOf;
    var b, s := SelectionOf(candidates, budget, quotas), Final(candidates, budget, quotas);
    var fitting := Fitting(candidates, UsableBudget(budget));
    FinalSound(candidates, budget, quotas);
    BriefInOrder(candidates, budget, quotas);
    FilterMembers(candidates, (c: Candidate) => c.tokens <= UsableBudget(budget));
    forall c, d | c in b.selected && d in b.selected && c != d
      ensures c.words == {} || d.words == {} || 5 * |c.words * d.words| < 3 * |c.words + d.words|
    {
      var i :| 0 <= i < |s.selected| && s.selected[i] == c;
      var j :| 0 <= j < |s.selected| && s.selected[j] == d;
      SimilaritySymmetric(c.words, d.words);
      Overlap(c.words, d.words);
    }
    forall x | x in s.redundant
      ensures exists c, d :: c in candidates && c.id == x && d in b.selected
                             && c.words != {} && d.words != {} && 5 * |c.words * d.words| >= 3 * |c.words + d.words|
    {
      var c :| c in fitting && c.id == x && Redundant(c.words, Texts(s.selected));
      var i :| 0 <= i < |Texts(s.selected)| && Similarity(c.words, Texts(s.selected)[i]) >= DUPLICATE_SIMILARITY;
      assert s.selected[i] in b.selected;
      Overlap(c.words, s.selected[i].words);
    }
  }

  /** The duplicate threshold in whole numbers: three fifths of the words of both are in both. */
  lemma Overlap(a: Words, b: Words)
    ensures Similarity(a, b) >= DUPLICATE_SIMILARITY <==> a != {} && b != {} && 5 * |a * b| >= 3 * |a + b|
    ensures a != {} && b != {} ==> |a + b| > 0 && Similarity(a, b) * |a + b| as real == |a * b| as real
    ensures a == {} || b == {} ==> Similarity(a, b) == 0.0
    ensures 0.0 <= Similarity(a, b) <= 1.0
  {
    if a != {} && b != {} {
      assert a <= a + b;
      NonEmptyUnion(a, b);
      Ratio(|a * b|, |a + b|);
    }
  }

  lemma NonEmptyUnion(a: Words, b: Words)
    requires a != {}
    ensures |a + b| > 0 && |a * b| <= |a + b|
  {
    var x :| x in a;
    assert x in a + b;
    assert a + b == a * b + ((a + b) - a * b);
    assert |a + b| == |a * b| + |(a + b) - a * b|;
  }

  lemma Ratio(n: nat, d: nat)
    requires d > 0 && n <= d
    ensures var r := n as real / d as real; r * d as real == n as real && 0.0 <= r <= 1.0 && (r >= 0.6 <==> 5 * n >= 3 * d)
  {
    var x, y := n as real, d as real;
    Quotient(x, y);
    Threshold(x / y, x, y);
  }

  lemma Quotient(x: real, y: real)
    requires 0.0 <= x <= y && y > 0.0
    ensures 0.0 <= x / y <= 1.0 && x / y * y == x
  {
    assert x / y * y == x;
  }

  lemma Threshold(r: real, x: real, y: real)
    requires r * y == x && y > 0.0
    ensures r >= 0.6 <==> x >= 0.6 * y
  {
    assert (r - 0.6) * y == x - 0.6 * y;
  }

  lemma StillUnpicked(pool: seq<Candidate>, allowance: int, already: seq<Candidate>, c: Candidate)
    requires DistinctIds(pool) && c in pool && c.id !in IdsOf(already)
    requires c.id !in IdsOf(FillOf(pool, allowance, already).taken) && c.id !in FillOf(pool, allowance, already).rejected
    ensures c.tokens > allowance - FillOf(pool, allowance, already).spent
  {
    hide FillOf, Sorted;
    var f := FillOf(pool, allowance, already);
    FillFacts(pool, allowance, already);
    SortedMembers(pool, already);
    assert c.id in IdsOf(Sorted(pool, already));
    var d :| d in f.left && d.id == c.id;
    SameId(Sorted(pool, already), c, d);
  }

  /** Nothing was dropped for lack of budget that the unspent budget would have paid for. */
  lemma BriefIsMaximal(candidates: seq<Candidate>, budget: int, quotas: seq<Quota>, c: Candidate)
    requires DistinctIds(candidates) && forall d | d in candidates :: d.tokens > 0
    requires c in candidates && c.id in Budgetless(candidates, budget, quotas)
    ensures c.tokens > UsableBudget(budget) - SelectionOf(candidates, budget, quotas).used
  {
    hide UsableBudget, FillOf, Passes, ActiveQuotas, Similarity;
    var spendable := UsableBudget(budget);
    var fitting := Fitting(candidates, spendable);
    FilterMembers(candidates, (d: Candidate) => d.tokens <= spendable);
    var d :| d in candidates && d.tokens <= spendable && d.id == c.id
             && d.id !in IdsOf(Final(candidates, budget, quotas).selected) && d.id !in Final(candidates, budget, quotas).redundant;
    SameId(candidates, c, d);
    var s := Passes(fitting, spendable, ActiveQuotas(quotas));
    if spendable - s.used > 0 {
      var pool := Leftovers(fitting, s);
      FilterMembers(fitting, (e: Candidate) => e.id !in IdsOf(s.selected) && e.id !in s.redundant);
      var f := FillOf(pool, spendable - s.used, s.selected);
      IdsOfJoin(s.selected, f.taken);
      StillUnpicked(pool, spendable - s.used, s.selected, c);
    }
  }

  lemma IdsOfJoin(a: seq<Candidate>, b: seq<Candidate>)
    ensures IdsOf(a + b) == IdsOf(a) + IdsOf(b)
  {
    assert forall c :: c in a + b <==> c in a || c in b;
  }

  // ---- quotas ----------------------------------------------------------------

  ghost function Only(quotas: seq<Quota>, share: real): seq<Quota> {
    if quotas == [] then []
    else (if quotas[0].share == share then [quotas[0]] else []) + Only(quotas[1..], share)
  }

  lemma {:induction false} InsertStable(x: Quota, s: seq<Quota>, share: real)
    ensures Only(Sorting.Insert(ByShare, x, s), share) == Only([x] + s, share)
  {
    assert ([x] + s)[1..] == s;
    if s == [] || ByShare(x, s[0]) {
    } else {
      InsertStable(x, s[1..], share);
      assert ([x] + s[1..])[1..] == s[1..];
      var after := Sorting.Insert(ByShare, x, s);
      assert after == [s[0]] + Sorting.Insert(ByShare, x, s[1..]);
      assert after[1..] == Sorting.Insert(ByShare, x, s[1..]);
    }
  }

  lemma {:induction false} SortStable(s: seq<Quota>, share: real)
    ensures Only(Sorting.Sort(ByShare, s), share) == Only(s, share)
  {
    if s != [] {
      SortStable(s[1..], share);
      var rest := Sorting.Sort(ByShare, s[1..]);
      InsertStable(s[0], rest, share);
      assert ([s[0]] + rest)[1..] == rest;
    }
  }

  lemma ByShareTotal()
    ensures Sorting.Total(ByShare)
  {
  }

  /** Types are served by falling share, in the order given where shares are equal; without quotas of the
      caller's, decisions get two fifths, constraints a quarter, facts a fifth and tasks the rest. */
  lemma QuotaOrder(quotas: seq<Quota>, share: real)
    ensures ActiveQuotas([]) == [Quota(DECISION, 0.40), Quota(CONSTRAINT, 0.25), Quota(FACT, 0.20), Quota(TASK, 0.15)]
    ensures quotas != [] ==>
              var order := ActiveQuotas(quotas);
              && multiset(order) == multiset(quotas)
              && (forall i, j | 0 <= i < j < |order| :: order[i].share >= order[j].share)
              && Only(order, share) == Only(quotas, share)
  {
    DefaultOrder();
    if quotas != [] {
      Sorting.SortKeeps(ByShare, quotas);
      ByShareTotal();
      Sorting.SortOrders(ByShare, quotas);
      SortStable(quotas, share);
    }
  }

  lemma DefaultOrder()
    ensures ActiveQuotas([]) == [Quota(DECISION, 0.40), Quota(CONSTRAINT, 0.25), Quota(FACT, 0.20), Quota(TASK, 0.15)]
  {
    var c, d, f, t := Quota(CONSTRAINT, 0.25), Quota(DECISION, 0.40), Quota(FACT, 0.20), Quota(TASK, 0.15);
    assert TYPE_QUOTA[1..] == [d, f, t] && [d, f, t][1..] == [f, t] && [f, t][1..] == [t] && [t][1..] == [];
    assert Sorting.Sort(ByShare, [t]) == [t];
    assert Sorting.Sort(ByShare, [f, t]) == [f, t];
    assert Sorting.Sort(ByShare, [d, f, t]) == [d, f, t];
    assert Sorting.Insert(ByShare, c, [f, t]) == [c, f, t];
  }

  lemma {:induction false} TokensWithin(a: seq<Candidate>, b: seq<Candidate>)
    requires DistinctIds(a) && DistinctIds(b) && forall c | c in a :: c in b
    ensures Tokens(a) <= Tokens(b)
  {
    if a != [] {
      var init, last := a[..|a| - 1], a[|a| - 1];
      assert last in a;
      var i :| 0 <= i < |b| && b[i] == last;
      WithoutOne(b, i);
      forall c | c in init
        ensures c in Without(b, i)
      {
        var k :| 0 <= k < |init| && init[k] == c;
        assert a[k].id != a[|a| - 1].id;
      }
      TokensWithin(init, Without(b, i));
      TokensMoved(b, i);
    }
  }

  /** A pool that costs no more than its allowance is taken whole, up to what repeats a chosen text. */
  lemma AffordablePool(pool: seq<Candidate>, allowance: int, already: seq<Candidate>, c: Candidate)
    requires DistinctIds(pool) && Tokens(pool) <= allowance && c in pool
    ensures var f := FillOf(pool, allowance, already);
            c.id in IdsOf(already) || c.id in IdsOf(f.taken) || c.id in f.rejected
  {
    hide FillOf, Sorted, Tokens, Diverse, Witnessed;
    var f := FillOf(pool, allowance, already);
    if c.id !in IdsOf(already) && c.id !in IdsOf(f.taken) && c.id !in f.rejected {
      StillUnpicked(pool, allowance, already, c);
      FillFacts(pool, allowance, already);
      SortedMembers(pool, already);
      var more := f.taken + [c];
      assert IdsOf(f.taken) !! {c.id};
      forall i | 0 <= i < |f.taken|
        ensures f.taken[i].id != c.id
      {
        assert f.taken[i] in f.taken;
      }
      TokensWithin(more, pool);
      OneMoreToken(f.taken, c);
    }
  }

  lemma OneMoreToken(s: seq<Candidate>, c: Candidate)
    ensures Tokens(s + [c]) == Tokens(s) + c.tokens
  {
    assert (s + [c])[..|s|] == s;
  }

  lemma {:induction false} PassesKeep(fitting: seq<Candidate>, spendable: nat, quotas: seq<Quota>, n: nat)
    requires n <= |quotas|
    ensures var a, b := Passes(fitting, spendable, quotas[..n]), Passes(fitting, spendable, quotas);
            IdsOf(a.selected) <= IdsOf(b.selected) && a.redundant <= b.redundant
  {
    hide FillOf, Allowance;
    if n < |quotas| {
      var init := quotas[..|quotas| - 1];
      PassesKeep(fitting, spendable, init, n);
      assert init[..n] == quotas[..n];
      var s, q := Passes(fitting, spendable, init), quotas[|quotas| - 1];
      IdsOfJoin(s.selected, FillOf(OfKind(fitting, q.kind), Allowance(spendable, q), s.selected).taken);
    } else {
      assert quotas[..n] == quotas;
    }
  }

  /** A quota is a guarantee: if all the memories of a type that fit at all cost no more than the type's
      share of the usable budget, each is in the brief or repeats one that is, whatever else competes. */
  lemma QuotaIsKept(candidates: seq<Candidate>, budget: int, quotas: seq<Quota>, n: nat, c: Candidate)
    requires DistinctIds(candidates) && n < |ActiveQuotas(quotas)|
    requires var q, spendable := ActiveQuotas(quotas)[n], UsableBudget(budget);
             && c in candidates && c.kind == q.kind && c.tokens <= spendable
             && Tokens(OfKind(Fitting(candidates, spendable), q.kind)) as real <= spendable as real * q.share
    ensures var b, s := SelectionOf(candidates, budget, quotas), Final(candidates, budget, quotas);
            c.id in IdsOf(b.selected) || c.id in s.redundant
  {
    hide FillOf, UsableBudget, ActiveQuotas, Passes, Tokens, Leftovers;
    var order, spendable := ActiveQuotas(quotas), UsableBudget(budget);
    var fitting, q := Fitting(candidates, spendable), order[n];
    FilterMembers(candidates, (d: Candidate) => d.tokens <= spendable);
    FilterMembers(fitting, (d: Candidate) => d.kind == q.kind);
    InItsPass(fitting, spendable, order, n, c);
    PassesKeep(fitting, spendable, order, n + 1);
    assert order[..|order|] == order;
    var s := Passes(fitting, spendable, order);
    IdsOfJoin(s.selected, FillOf(Leftovers(fitting, s), spendable - s.used, s.selected).taken);
    BriefInOrder(candidates, budget, quotas);
    SameIds(Final(candidates, budget, quotas).selected, SelectionOf(candidates, budget, quotas).selected);
  }

  lemma InItsPass(fitting: seq<Candidate>, spendable: nat, order: seq<Quota>, n: nat, c: Candidate)
    requires n < |order|
    requires var pool := OfKind(fitting, order[n].kind);
             DistinctIds(pool) && c in pool && Tokens(pool) as real <= spendable as real * order[n].share
    ensures var s := Passes(fitting, spendable, order[..n + 1]); c.id in IdsOf(s.selected) || c.id in s.redundant
  {
    hide FillOf, Tokens, Allowance, OfKind;
    var init, q := order[..n], order[n];
    assert order[..n + 1][..n] == init;
    var s, pool := Passes(fitting, spendable, init), OfKind(fitting, q.kind);
    WholeTokens(Tokens(pool), spendable, q);
    AffordablePool(pool, Allowance(spendable, q), s.selected, c);
    IdsOfJoin(s.selected, FillOf(pool, Allowance(spendable, q), s.selected).taken);
  }

  lemma WholeTokens(n: nat, spendable: nat, q: Quota)
    requires n as real <= spendable as real * q.share
    ensures n <= Allowance(spendable, q)
  {
  }

  // ---- order of the input ----------------------------------------------------

  lemma {:induction false} FilterBag(s: seq<Candidate>, p: Candidate -> bool, x: Candidate)
    ensures multiset(Filter(s, p))[x] == if p(x) then multiset(s)[x] else 0
  {
    if s != [] {
      FilterBag(s[..|s| - 1], p, x);
      assert s == s[..|s| - 1] + [s[|s| - 1]];
    }
  }

  lemma FilterSameBag(a: seq<Candidate>, b: seq<Candidate>, p: Candidate -> bool)
    requires multiset(a) == multiset(b)
    ensures multiset(Filter(a, p)) == multiset(Filter(b, p))
  {
    forall x
      ensures multiset(Filter(a, p))[x] == multiset(Filter(b, p))[x]
    {
      FilterBag(a, p, x);
      FilterBag(b, p, x);
    }
  }

  lemma ByDensityTotal()
    ensures Sorting.Total(ByDensity)
  {
  }

  lemma FillSame(a: seq<Candidate>, b: seq<Candidate>, allowance: int, already: seq<Candidate>)
    requires DistinctIds(a) && multiset(a) == multiset(b)
    ensures FillOf(a, allowance, already) == FillOf(b, allowance, already)
  {
    hide Density;
    var p := (c: Candidate) => c.id !in IdsOf(already);
    FilterSameBag(a, b, p);
    FilterMembers(a, p);
    ByDensityTotal();
    var fa := Filter(a, p);
    forall x, y | x in fa && y in fa && ByDensity(x, y) && ByDensity(y, x)
      ensures x == y
    {
      SameId(fa, x, y);
    }
    Sorting.SortIgnoresInputOrder(ByDensity, fa, Filter(b, p));
  }

  lemma {:induction false} PassesSame(a: seq<Candidate>, b: seq<Candidate>, spendable: nat, quotas: seq<Quota>)
    requires DistinctIds(a) && multiset(a) == multiset(b)
    ensures Passes(a, spendable, quotas) == Passes(b, spendable, quotas)
  {
    hide FillOf, Allowance;
    if quotas != [] {
      var q := quotas[|quotas| - 1];
      PassesSame(a, b, spendable, quotas[..|quotas| - 1]);
      var p := (c: Candidate) => c.kind == q.kind;
      FilterSameBag(a, b, p);
      FilterMembers(a, p);
      FillSame(OfKind(a, q.kind), OfKind(b, q.kind), Allowance(spendable, q), Passes(a, spendable, quotas[..|quotas| - 1]).selected);
    }
  }

  lemma LeftoversSame(a: seq<Candidate>, b: seq<Candidate>, s: Sofar)
    requires DistinctIds(a) && multiset(a) == multiset(b)
    ensures DistinctIds(Leftovers(a, s)) && multiset(Leftovers(a, s)) == multiset(Leftovers(b, s))
  {
    hide DistinctIds;
    var q := (c: Candidate) => c.id !in IdsOf(s.selected) && c.id !in s.redundant;
    FilterSameBag(a, b, q);
    FilterMembers(a, q);
  }

  lemma RedistributedSame(a: seq<Candidate>, b: seq<Candidate>, spendable: nat, s: Sofar)
    requires DistinctIds(a) && multiset(a) == multiset(b)
    ensures Redistributed(a, spendable, s) == Redistributed(b, spendable, s)
  {
    hide FillOf, Leftovers, DistinctIds;
    LeftoversSame(a, b, s);
    FillSame(Leftovers(a, s), Leftovers(b, s), spendable - s.used, s.selected);
  }

  lemma FittingSame(a: seq<Candidate>, b: seq<Candidate>, spendable: nat)
    requires DistinctIds(a) && multiset(a) == multiset(b)
    ensures DistinctIds(Fitting(a, spendable)) && multiset(Fitting(a, spendable)) == multiset(Fitting(b, spendable))
    ensures |a| == |b| && |Fitting(a, spendable)| == |Fitting(b, spendable)|
  {
    var p := (c: Candidate) => c.tokens <= spendable;
    FilterSameBag(a, b, p);
    FilterMembers(a, p);
    assert |a| == |multiset(a)| && |b| == |multiset(b)|;
    assert |Filter(a, p)| == |multiset(Filter(a, p))| && |Filter(b, p)| == |multiset(Filter(b, p))|;
  }

  /** A selection is the same, to the order and the counts, however its candidates were listed. */
  lemma InputOrderIrrelevant(a: seq<Candidate>, b: seq<Candidate>, budget: int, quotas: seq<Quota>)
    requires DistinctIds(a) && multiset(a) == multiset(b)
    ensures SelectionOf(a, budget, quotas) == SelectionOf(b, budget, quotas)
  {
    hide Fitting, Passes, Redistributed, ActiveQuotas, UsableBudget, ByPlace, DistinctIds;
    var spendable := UsableBudget(budget);
    var fa, fb := Fitting(a, spendable), Fitting(b, spendable);
    FittingSame(a, b, spendable);
    PassesSame(fa, fb, spendable, ActiveQuotas(quotas));
    RedistributedSame(fa, fb, spendable, Passes(fa, spendable, ActiveQuotas(quotas)));
  }

  // ---- the budget ------------------------------------------------------------

  function Positive(n: int): nat {
    if n > 0 then n else 0
  }

  /** What the quotas together may spend. */
  ghost function Promised(spendable: nat, quotas: seq<Quota>): nat {
    if quotas == [] then 0
    else Promised(spendable, quotas[..|quotas| - 1]) + Positive(Allowance(spendable, quotas[|quotas| - 1]))
  }

  lemma {:induction false} FillSpends(pool: seq<Candidate>, allowance: int, already: seq<Candidate>)
    ensures FillOf(pool, allowance, already).spent <= Positive(allowance)
  {
    GreedySpends(Sorted(pool, already), allowance, Texts(already));
  }

  lemma {:induction false} PassesSpend(fitting: seq<Candidate>, spendable: nat, quotas: seq<Quota>)
    ensures Passes(fitting, spendable, quotas).used <= Promised(spendable, quotas)
  {
    hide FillOf, Allowance;
    if quotas != [] {
      var init, q := quotas[..|quotas| - 1], quotas[|quotas| - 1];
      PassesSpend(fitting, spendable, init);
      FillSpends(OfKind(fitting, q.kind), Allowance(spendable, q), Passes(fitting, spendable, init).selected);
    }
  }

  lemma WithinBudget(candidates: seq<Candidate>, budget: int, quotas: seq<Quota>)
    requires Promised(UsableBudget(budget), ActiveQuotas(quotas)) <= UsableBudget(budget)
    ensures SelectionOf(candidates, budget, quotas).used <= UsableBudget(budget)
  {
    hide FillOf, Passes, ActiveQuotas, UsableBudget, Promised;
    var spendable := UsableBudget(budget);
    var fitting := Fitting(candidates, spendable);
    PassesSpend(fitting, spendable, ActiveQuotas(quotas));
    var s := Passes(fitting, spendable, ActiveQuotas(quotas));
    FillSpends(Leftovers(fitting, s), spendable - s.used, s.selected);
  }

  /** One candidate of one token for each token some quota may spend. */
  ghost function Units(kind: MemoryType, first: Id, n: nat): seq<Candidate> {
    seq(n, i requires 0 <= i < n => Candidate(first + i, kind, {}, 1.0, 1))
  }

  ghost function Crowd(spendable: nat, quotas: seq<Quota>): seq<Candidate> {
    if quotas == [] then []
    else
      var c, q := Crowd(spendable, quotas[..|quotas| - 1]), quotas[|quotas| - 1];
      c + Units(q.kind, |c|, Positive(Allowance(spendable, q)))
  }

  ghost predicate Plain(s: seq<Candidate>) {
    forall i | 0 <= i < |s| :: s[i].tokens == 1 && s[i].words == {}
  }

  lemma {:induction false} CrowdPlain(spendable: nat, quotas: seq<Quota>)
    ensures Plain(Crowd(spendable, quotas))
    ensures forall i | 0 <= i < |Crowd(spendable, quotas)| :: Crowd(spendable, quotas)[i].id == i
    ensures forall c | c in Crowd(spendable, quotas) :: exists i :: 0 <= i < |quotas| && quotas[i].kind == c.kind
  {
    hide Allowance;
    if quotas != [] {
      var init, q := quotas[..|quotas| - 1], quotas[|quotas| - 1];
      CrowdPlain(spendable, init);
      var before := Crowd(spendable, init);
      var all := Crowd(spendable, quotas);
      assert all == before + Units(q.kind, |before|, Positive(Allowance(spendable, q)));
      forall c | c in all
        ensures exists i :: 0 <= i < |quotas| && quotas[i].kind == c.kind
      {
        if c in before {
          var i :| 0 <= i < |init| && init[i].kind == c.kind;
          assert quotas[i].kind == c.kind;
        } else {
          assert quotas[|quotas| - 1].kind == c.kind;
        }
      }
    }
  }

  lemma {:induction false} FilterJoin(a: seq<Candidate>, b: seq<Candidate>, p: Candidate -> bool)
    ensures Filter(a + b, p) == Filter(a, p) + Filter(b, p)
  {
    if b == [] {
      assert a + b == a;
    } else {
      FilterJoin(a, b[..|b| - 1], p);
      assert (a + b)[..|a + b| - 1] == a + b[..|b| - 1];
    }
  }

  lemma {:induction false} FilterAll(s: seq<Candidate>, p: Candidate -> bool)
    requires forall i | 0 <= i < |s| :: p(s[i])
    ensures Filter(s, p) == s
  {
    if s != [] {
      FilterAll(s[..|s| - 1], p);
      assert s == s[..|s| - 1] + [s[|s| - 1]];
    }
  }

  lemma {:induction false} FilterNone(s: seq<Candidate>, p: Candidate -> bool)
    requires forall i | 0 <= i < |s| :: !p(s[i])
    ensures Filter(s, p) == []
  {
    if s != [] {
      FilterNone(s[..|s| - 1], p);
    }
  }

  lemma {:induction false} CrowdOfKind(spendable: nat, quotas: seq<Quota>, j: nat)
    requires DistinctKinds(quotas) && j < |quotas|
    ensures |OfKind(Crowd(spendable, quotas), quotas[j].kind)| == Positive(Allowance(spendable, quotas[j]))
  {
    hide Allowance, Filter;
    var init, q := quotas[..|quotas| - 1], quotas[|quotas| - 1];
    var before, kind := Crowd(spendable, init), quotas[j].kind;
    var more := Units(q.kind, |before|, Positive(Allowance(spendable, q)));
    UnitsOfKind(before, q.kind, |before|, Positive(Allowance(spendable, q)), kind);
    if j < |init| {
      CrowdOfKind(spendable, init, j);
      assert q.kind != kind;
    } else {
      CrowdPlain(spendable, init);
      forall k | 0 <= k < |before|
        ensures before[k].kind != kind
      {
        assert before[k] in before;
        var i :| 0 <= i < |init| && init[i].kind == before[k].kind;
        assert quotas[i].kind != quotas[j].kind;
      }
      FilterNone(before, (c: Candidate) => c.kind == kind);
    }
  }

  lemma UnitsOfKind(before: seq<Candidate>, kind: MemoryType, first: Id, n: nat, wanted: MemoryType)
    ensures |OfKind(before + Units(kind, first, n), wanted)| == |OfKind(before, wanted)| + if kind == wanted then n else 0
  {
    hide Filter;
    var more, p := Units(kind, first, n), (c: Candidate) => c.kind == wanted;
    FilterJoin(before, more, p);
    if kind == wanted {
      FilterAll(more, p);
    } else {
      FilterNone(more, p);
    }
  }

  lemma {:induction false} PlainTokens(s: seq<Candidate>)
    requires Plain(s)
    ensures Tokens(s) == |s|
  {
    if s != [] {
      PlainTokens(s[..|s| - 1]);
    }
  }

  lemma WordlessIsNovel(texts: seq<Words>)
    ensures !Redundant({}, texts)
  {
  }

  /** A pool of plain candidates as large as the allowance is spent to the last token. */
  lemma PlainSpendsAll(pool: seq<Candidate>, allowance: nat, already: seq<Candidate>)
    requires DistinctIds(pool) && Plain(pool) && |pool| == allowance && IdsOf(pool) !! IdsOf(already)
    ensures FillOf(pool, allowance, already).spent == allowance
  {
    hide FillOf, Similarity, Redundant, Diverse;
    var sorted, f := Sorted(pool, already), FillOf(pool, allowance, already);
    FillFacts(pool, allowance, already);
    SortedMembers(pool, already);
    forall c | c in pool
      ensures c in sorted && c.tokens == 1 && c.words == {}
    {
      assert c.id in IdsOf(pool);
    }
    forall x | x in f.rejected
      ensures false
    {
      var c :| c in sorted && c.id == x && Redundant(c.words, Texts(already) + Texts(f.taken));
      WordlessIsNovel(Texts(already) + Texts(f.taken));
    }
    if f.left == [] {
      SameIds(pool, sorted);
      IdsCount(pool);
      IdsCount(f.taken);
      assert IdsOf(f.taken) == IdsOf(pool);
      forall i | 0 <= i < |f.taken|
        ensures f.taken[i].tokens == 1 && f.taken[i].words == {}
      {
        assert f.taken[i] in sorted;
      }
      PlainTokens(f.taken);
    } else {
      assert f.left[0] in f.left;
    }
  }

  /** The kinds already served never contribute to a later pool. */
  lemma {:induction false} PassesKinds(fitting: seq<Candidate>, spendable: nat, quotas: seq<Quota>, c: Candidate)
    requires DistinctIds(fitting) && DistinctKinds(quotas)
    requires c in fitting && c.id in IdsOf(Passes(fitting, spendable, quotas).selected)
    ensures exists i :: 0 <= i < |quotas| && quotas[i].kind == c.kind
  {
    hide FillOf, Allowance, DistinctIds, Sound;
    var init, q := quotas[..|quotas| - 1], quotas[|quotas| - 1];
    var s := Passes(fitting, spendable, init);
    var pool := OfKind(fitting, q.kind);
    var f := FillOf(pool, Allowance(spendable, q), s.selected);
    IdsOfJoin(s.selected, f.taken);
    if c.id in IdsOf(s.selected) {
      PassesKinds(fitting, spendable, init, c);
      var i :| 0 <= i < |init| && init[i].kind == c.kind;
      assert quotas[i].kind == c.kind;
    } else {
      FilterMembers(fitting, (d: Candidate) => d.kind == q.kind);
      TakenFromPool(fitting, pool, Allowance(spendable, q), s.selected, c);
      assert quotas[|quotas| - 1].kind == c.kind;
    }
  }

  lemma TakenFromPool(fitting: seq<Candidate>, pool: seq<Candidate>, allowance: int, already: seq<Candidate>, c: Candidate)
    requires DistinctIds(fitting) && DistinctIds(pool) && (forall d | d in pool :: d in fitting)
    requires c in fitting && c.id in IdsOf(FillOf(pool, allowance, already).taken)
    ensures c in pool
  {
    hide FillOf, Sorted, DistinctIds, Diverse, Witnessed;
    FillFacts(pool, allowance, already);
    SortedMembers(pool, already);
    var d :| d in FillOf(pool, allowance, already).taken && d.id == c.id;
    assert d in Sorted(pool, already);
    SameId(fitting, c, d);
  }

  /** On the crowd, each pass spends its whole allowance. */
  lemma {:induction false} CrowdSpends(spendable: nat, quotas: seq<Quota>, n: nat)
    requires DistinctKinds(quotas) && n <= |quotas|
    ensures Passes(Crowd(spendable, quotas), spendable, quotas[..n]).used == Promised(spendable, quotas[..n])
  {
    hide FillOf, Allowance, Plain;
    if n > 0 {
      var crowd, init, q := Crowd(spendable, quotas), quotas[..n - 1], quotas[n - 1];
      assert quotas[..n][..n - 1] == init;
      CrowdSpends(spendable, quotas, n - 1);
      var s, pool := Passes(crowd, spendable, init), OfKind(crowd, q.kind);
      CrowdPlain(spendable, quotas);
      CrowdOfKind(spendable, quotas, n - 1);
      CrowdPool(spendable, quotas, n - 1);
      if Allowance(spendable, q) > 0 {
        PlainSpendsAll(pool, Allowance(spendable, q), s.selected);
      } else {
        FillSpends(pool, Allowance(spendable, q), s.selected);
      }
    }
  }

  lemma CrowdPool(spendable: nat, quotas: seq<Quota>, n: nat)
    requires DistinctKinds(quotas) && n < |quotas|
    ensures var pool := OfKind(Crowd(spendable, quotas), quotas[n].kind);
            && DistinctIds(pool) && Plain(pool)
            && IdsOf(pool) !! IdsOf(Passes(Crowd(spendable, quotas), spendable, quotas[..n]).selected)
  {
    hide FillOf, Allowance, Passes, Crowd;
    var crowd, q, init := Crowd(spendable, quotas), quotas[n], quotas[..n];
    CrowdPlain(spendable, quotas);
    FilterMembers(crowd, (c: Candidate) => c.kind == q.kind);
    var pool := OfKind(crowd, q.kind);
    forall i | 0 <= i < |pool|
      ensures pool[i].tokens == 1 && pool[i].words == {}
    {
      assert pool[i] in pool;
    }
    forall c | c in pool
      ensures c.id !in IdsOf(Passes(crowd, spendable, init).selected)
    {
      if c.id in IdsOf(Passes(crowd, spendable, init).selected) {
        PassesKinds(crowd, spendable, init, c);
      }
    }
  }

  /** The budget can never be exceeded, whatever the candidates, exactly when the quotas
      together promise no more than it. */
  lemma BudgetExactly(budget: int, quotas: seq<Quota>)
    requires DistinctKinds(quotas)
    ensures (forall candidates :: SelectionOf(candidates, budget, quotas).used <= UsableBudget(budget))
            <==> Promised(UsableBudget(budget), ActiveQuotas(quotas)) <= UsableBudget(budget)
  {
    hide ActiveQuotas, UsableBudget, Promised, SelectionOf;
    var spendable, order := UsableBudget(budget), ActiveQuotas(quotas);
    if Promised(spendable, order) <= spendable {
      forall candidates
        ensures SelectionOf(candidates, budget, quotas).used <= spendable
      {
        WithinBudget(candidates, budget, quotas);
      }
    } else {
      CrowdOverspends(budget, quotas);
      assert SelectionOf(Crowd(spendable, order), budget, quotas).used > spendable;
    }
  }

  /** The candidates that overspend are ordinary ones: distinct, and each costing a token. */
  lemma CrowdOverspends(budget: int, quotas: seq<Quota>)
    requires DistinctKinds(quotas)
    requires Promised(UsableBudget(budget), ActiveQuotas(quotas)) > UsableBudget(budget)
    ensures var crowd := Crowd(UsableBudget(budget), ActiveQuotas(quotas));
            && DistinctIds(crowd) && (forall c | c in crowd :: c.tokens > 0)
            && SelectionOf(crowd, budget, quotas).used > UsableBudget(budget)
  {
    hide ActiveQuotas, Promised, Passes, Crowd;
    var spendable, order := UsableBudget(budget), ActiveQuotas(quotas);
    var crowd := Crowd(spendable, order);
    QuotasKeepKinds(quotas);
    CrowdPlain(spendable, order);
    CrowdSpends(spendable, order, |order|);
    assert order[..|order|] == order;
    forall c | c in crowd
      ensures c.tokens == 1
    {
    }
    FilterAll(crowd, (c: Candidate) => c.tokens <= spendable);
    assert Fitting(crowd, spendable) == crowd;
  }

  ghost function Shares(quotas: seq<Quota>): real {
    if quotas == [] then 0.0 else Shares(quotas[..|quotas| - 1]) + quotas[|quotas| - 1].share
  }

  ghost function Part(spendable: nat, share: real): real {
    spendable as real * share
  }

  lemma {:induction false} PromisedBelowShares(spendable: nat, quotas: seq<Quota>)
    requires forall q | q in quotas :: q.share >= 0.0
    ensures Promised(spendable, quotas) as real <= Part(spendable, Shares(quotas))
  {
    hide Allowance, Part;
    if quotas != [] {
      var init, q := quotas[..|quotas| - 1], quotas[|quotas| - 1];
      assert q in quotas && forall r | r in init :: r in quotas;
      PromisedBelowShares(spendable, init);
      AllowanceBelowShare(spendable, q);
      Distribute(spendable, Shares(init), q.share);
    } else {
      NoPart(spendable);
    }
  }

  lemma NoPart(spendable: nat)
    ensures Part(spendable, 0.0) == 0.0
  {
  }

  lemma AllowanceBelowShare(spendable: nat, q: Quota)
    requires q.share >= 0.0
    ensures Positive(Allowance(spendable, q)) as real <= Part(spendable, q.share)
  {
    assert spendable as real * q.share >= 0.0;
  }

  lemma Distribute(spendable: nat, x: real, y: real)
    ensures Part(spendable, x + y) == Part(spendable, x) + Part(spendable, y)
  {
  }

  lemma {:induction false} SharesOfBag(a: seq<Quota>, b: seq<Quota>)
    requires multiset(a) == multiset(b)
    ensures Shares(a) == Shares(b)
    decreases |a|
  {
    if a == [] {
      assert |multiset(b)| == 0;
    } else {
      var i := Sorting.LastElsewhere(a, b);
      SharesOfBag(a[..|a| - 1], b[..i] + b[i + 1..]);
      SharesMoved(b, i);
    }
  }

  lemma {:induction false} SharesMoved(b: seq<Quota>, i: nat)
    requires i < |b|
    ensures Shares(b) == Shares(b[..i] + b[i + 1..]) + b[i].share
  {
    var n := |b| - 1;
    if i == n {
      assert b[..i] + b[i + 1..] == b[..n];
    } else {
      SharesMoved(b[..n], i);
      assert b[..n][..i] == b[..i];
      assert (b[..i] + b[i + 1..])[..n - 1] == b[..n][..i] + b[..n][i + 1..];
    }
  }

  /** Non-negative shares of at most one in all, such as the default ones, never overspend. */
  lemma FairSharesWithinBudget(candidates: seq<Candidate>, budget: int, quotas: seq<Quota>)
    requires forall q | q in quotas :: q.share >= 0.0
    requires Shares(quotas) <= 1.0
    ensures SelectionOf(candidates, budget, quotas).used <= UsableBudget(budget)
    ensures budget >= 1 ==> SelectionOf(candidates, budget, quotas).used <= budget
    ensures budget >= 2 ==> 10 * SelectionOf(candidates, budget, quotas).used <= 9 * budget
  {
    NineTenths(budget);
    hide SelectionOf, ActiveQuotas, UsableBudget, Promised, Shares, Part;
    var q := if quotas == [] then TYPE_QUOTA else quotas;
    var order, spendable := ActiveQuotas(quotas), UsableBudget(budget);
    DefaultShares();
    ActiveShares(quotas);
    SharesOfBag(q, order);
    PromisedBelowShares(spendable, order);
    AtMostWhole(spendable, Shares(order));
    WithinBudget(candidates, budget, quotas);
  }

  /** The usable budget is nine tenths of the budget, rounded down, and at least one token. */
  lemma NineTenths(budget: int)
    ensures budget < 2 ==> UsableBudget(budget) == 1
    ensures budget >= 2 ==>
              && 1 <= UsableBudget(budget)
              && 10 * UsableBudget(budget) <= 9 * budget < 10 * UsableBudget(budget) + 10
  {
  }

  lemma ActiveShares(quotas: seq<Quota>)
    ensures var q := if quotas == [] then TYPE_QUOTA else quotas;
            multiset(ActiveQuotas(quotas)) == multiset(q) && forall x :: x in ActiveQuotas(quotas) <==> x in q
  {
    var q := if quotas == [] then TYPE_QUOTA else quotas;
    Sorting.SortKeeps(ByShare, q);
    Sorting.SortMembers(ByShare, q);
  }

  lemma AtMostWhole(spendable: nat, share: real)
    requires share <= 1.0
    ensures Part(spendable, share) <= spendable as real
  {
    assert spendable as real * (1.0 - share) >= 0.0;
  }

  lemma DefaultShares()
    ensures Shares(TYPE_QUOTA) == 1.0 && forall q | q in TYPE_QUOTA :: q.share >= 0.0
  {
    hide Shares;
    var a, b, c, d := Quota(CONSTRAINT, 0.25), Quota(DECISION, 0.40), Quota(FACT, 0.20), Quota(TASK, 0.15);
    ShareStep([], a);
    ShareStep([a], b);
    ShareStep([a, b], c);
    ShareStep([a, b, c], d);
    NoShares();
    assert [] + [a] == [a] && [a] + [b] == [a, b] && [a, b] + [c] == [a, b, c] && [a, b, c] + [d] == TYPE_QUOTA;
  }

  lemma NoShares()
    ensures Shares([]) == 0.0
  {
  }

  lemma ShareStep(init: seq<Quota>, q: Quota)
    ensures Shares(init + [q]) == Shares(init) + q.share
  {
    assert (init + [q])[..|init|] == init;
  }
}

/** Greedy filling is within one item of the best possible filling, when no two candidates
    share a word and every one is worth something. */
module Greedily {
  import opened Basics
  import opened Schema
  import opened Selector
  import opened Brief
  import Sorting

  // ---- sums over a set of candidates -----------------------------------------

  ghost function ScoreOf(s: set<Candidate>): real {
    if s == {} then 0.0 else var c :| c in s; c.score + ScoreOf(s - {c})
  }

  ghost function TokensOf(s: set<Candidate>): nat {
    if s == {} then 0 else var c :| c in s; c.tokens + TokensOf(s - {c})
  }

  lemma {:induction false} ScoreWithout(s: set<Candidate>, c: Candidate)
    requires c in s
    ensures ScoreOf(s) == c.score + ScoreOf(s - {c})
    decreases |s|
  {
    var d :| d in s && ScoreOf(s) == d.score + ScoreOf(s - {d});
    if d != c {
      ScoreWithout(s - {d}, c);
      ScoreWithout(s - {c}, d);
      assert s - {d} - {c} == s - {c} - {d};
    }
  }

  lemma {:induction false} TokensWithout(s: set<Candidate>, c: Candidate)
    requires c in s
    ensures TokensOf(s) == c.tokens + TokensOf(s - {c})
    decreases |s|
  {
    var d :| d in s && TokensOf(s) == d.tokens + TokensOf(s - {d});
    if d != c {
      TokensWithout(s - {d}, c);
      TokensWithout(s - {c}, d);
      assert s - {d} - {c} == s - {c} - {d};
    }
  }

  ghost function Scores(s: seq<Candidate>): real {
    if s == [] then 0.0 else s[0].score + Scores(s[1..])
  }

  // ---- worth and overlap -----------------------------------------------------

  predicate Worthwhile(c: Candidate) {
    c.score > 0.0 && c.tokens > 0
  }

  /** No candidate shares a word with another, or with a text already in the brief. */
  ghost predicate Unrelated(s: seq<Candidate>, texts: seq<Words>) {
    && (forall i, j | 0 <= i < |s| && 0 <= j < |s| && i != j :: Similarity(s[i].words, s[j].words) == 0.0)
    && (forall i, t | 0 <= i < |s| && 0 <= t < |texts| :: Similarity(s[i].words, texts[t]) == 0.0)
  }

  /** What n tokens cost at a price per token. */
  ghost function Cost(price: real, n: nat): real {
    price * n as real
  }

  /** At the price of its own density, a candidate costs its score. */
  lemma DensityEarns(c: Candidate)
    requires Worthwhile(c)
    ensures Density(c) > 0.0 && Cost(Density(c), c.tokens) == c.score
  {
  }

  lemma Dearer(x: real, y: real, n: nat)
    requires x <= y
    ensures Cost(x, n) <= Cost(y, n)
  {
    assert (y - x) * n as real >= 0.0;
  }

  lemma CostAdds(x: real, a: nat, b: nat)
    ensures Cost(x, a + b) == Cost(x, a) + Cost(x, b)
  {
  }

  lemma CostGrows(x: real, a: nat, b: nat)
    requires x >= 0.0 && a <= b
    ensures Cost(x, a) <= Cost(x, b)
  {
    assert x * (b - a) as real >= 0.0;
  }

  lemma {:induction false} NothingClose(words: Words, texts: seq<Words>)
    requires forall t | 0 <= t < |texts| :: Similarity(words, texts[t]) == 0.0
    ensures Closest(words, texts) == 0.0 && !Redundant(words, texts)
  {
    if texts != [] {
      NothingClose(words, texts[..|texts| - 1]);
    }
  }

  lemma ValueIsDensity(s: seq<Candidate>, texts: seq<Words>, c: Candidate)
    requires Unrelated(s, texts) && c in s && Worthwhile(c)
    ensures Value(c, texts) == Density(c) && !Redundant(c.words, texts)
  {
    var i :| 0 <= i < |s| && s[i] == c;
    NothingClose(c.words, texts);
    DensityEarns(c);
  }

  lemma StillUnrelated(s: seq<Candidate>, i: nat, texts: seq<Words>)
    requires Unrelated(s, texts) && i < |s|
    ensures Unrelated(Without(s, i), texts + [s[i].words])
  {
    hide Similarity;
    var r := Without(s, i);
    var more := texts + [s[i].words];
    forall j, k | 0 <= j < |r| && 0 <= k < |r| && j != k
      ensures Similarity(r[j].words, r[k].words) == 0.0
    {
      assert r[j] == s[if j < i then j else j + 1] && r[k] == s[if k < i then k else k + 1];
    }
    forall j, t | 0 <= j < |r| && 0 <= t < |more|
      ensures Similarity(r[j].words, more[t]) == 0.0
    {
      assert r[j] == s[if j < i then j else j + 1];
    }
  }

  lemma {:induction false} DensestExists(s: seq<Candidate>)
    requires s != []
    ensures exists m :: m in s && forall c | c in s :: Density(c) <= Density(m)
  {
    hide Density;
    var init, last := s[..|s| - 1], s[|s| - 1];
    assert s == init + [last];
    if init == [] {
      assert last in s && forall c | c in s :: Density(c) <= Density(last);
    } else {
      DensestExists(init);
      var m :| m in init && forall c | c in init :: Density(c) <= Density(m);
      var d := if Density(last) <= Density(m) then m else last;
      assert d in s && forall c | c in s :: Density(c) <= Density(d);
    }
  }

  // ---- prices ----------------------------------------------------------------

  /** At a price no candidate beats, no set earns more than it costs. */
  lemma {:induction false} PricedOut(s: set<Candidate>, price: real)
    requires forall c | c in s :: Worthwhile(c) && Density(c) <= price
    ensures ScoreOf(s) <= Cost(price, TokensOf(s))
    decreases |s|
  {
    hide Density, Cost;
    if c :| c in s {
      PricedOut(s - {c}, price);
      ScoreWithout(s, c);
      TokensWithout(s, c);
      DensityEarns(c);
      Dearer(Density(c), price, c.tokens);
      CostAdds(price, c.tokens, TokensOf(s - {c}));
    } else {
      CostAdds(price, 0, 0);
    }
  }

  ghost predicate Members(s: set<Candidate>, remaining: seq<Candidate>) {
    forall c | c in s :: c in remaining
  }

  /** Some price per token makes the greedy filling, with one more item, beat the set s. */
  ghost predicate Priced(s: set<Candidate>, remaining: seq<Candidate>, room: nat, taken: seq<Candidate>, top: real, price: real) {
    && price >= 0.0
    && (price == 0.0 || exists c :: c in remaining && price <= Density(c))
    && ScoreOf(s) - Cost(price, TokensOf(s)) <= Scores(taken) + top - Cost(price, room)
  }

  lemma PriceOfTheUnaffordable(s: set<Candidate>, remaining: seq<Candidate>, room: nat, taken: seq<Candidate>, top: real, m: Candidate)
    requires Members(s, remaining) && (forall c | c in remaining :: Worthwhile(c) && c.score <= top)
    requires m in remaining && m.tokens > room && (forall c | c in remaining :: Density(c) <= Density(m))
    requires Scores(taken) >= 0.0
    ensures Priced(s, remaining, room, taken, top, Density(m))
  {
    hide Density, Cost;
    PricedOut(s, Density(m));
    DensityEarns(m);
    CostGrows(Density(m), room, m.tokens);
  }

  lemma PriceOfTheRest(s: set<Candidate>, remaining: seq<Candidate>, i: nat, room: nat, taken: seq<Candidate>, top: real, price: real)
    requires Members(s, remaining) && i < |remaining| && remaining[i].tokens <= room && Worthwhile(remaining[i])
    requires forall c | c in remaining :: Density(c) <= Density(remaining[i])
    requires Priced(s - {remaining[i]}, Without(remaining, i), room - remaining[i].tokens, taken, top, price)
    requires forall c | c in Without(remaining, i) :: c in remaining
    ensures Priced(s, remaining, room, [remaining[i]] + taken, top, price)
  {
    hide Density, Cost;
    var best := remaining[i];
    assert Scores([best] + taken) == best.score + Scores(taken) by {
      assert ([best] + taken)[1..] == taken;
    }
    DensityEarns(best);
    CostAdds(price, room - best.tokens, best.tokens);
    if best in s {
      ScoreWithout(s, best);
      TokensWithout(s, best);
      CostAdds(price, best.tokens, TokensOf(s - {best}));
    } else {
      assert s - {best} == s;
      assert price <= Density(best);
      Dearer(price, Density(best), best.tokens);
    }
  }

  lemma {:induction false} TakenPositive(s: seq<Candidate>)
    requires forall c | c in s :: c.score > 0.0
    ensures Scores(s) >= 0.0
  {
    if s != [] {
      TakenPositive(s[1..]);
    }
  }

  lemma {:induction false} PriceExists(
    remaining: seq<Candidate>, room: nat, texts: seq<Words>, top: real, s: set<Candidate>) returns (price: real)
    requires DistinctIds(remaining) && Unrelated(remaining, texts)
    requires (forall c | c in remaining :: Worthwhile(c) && c.score <= top) && top >= 0.0
    requires Members(s, remaining)
    ensures Priced(s, remaining, room, Greedy(remaining, room, texts).taken, top, price)
    decreases |remaining|
  {
    hide Density, Greedy, Best, Value, Redundant, Priced, Unrelated, Worthwhile, Partitioned, DistinctIds;
    TakenFromThese(remaining, room, texts);
    TakenWorthwhile(remaining, Greedy(remaining, room, texts).taken);
    if remaining == [] {
      NoneLeft(room, texts);
      GreedyEnds(remaining, room, texts);
      assert s == {};
      NothingPriced(remaining, room, top);
      price := 0.0;
      return;
    }
    DensestExists(remaining);
    var m :| m in remaining && forall c | c in remaining :: Density(c) <= Density(m);
    if m.tokens > room {
      PriceOfTheUnaffordable(s, remaining, room, Greedy(remaining, room, texts).taken, top, m);
      price := Density(m);
      return;
    }
    var k :| 0 <= k < |remaining| && remaining[k] == m;
    BestDecides(remaining, room, texts, k);
    var i := Best(remaining, room, texts).value;
    ValueIsDensity(remaining, texts, m);
    ValueIsDensity(remaining, texts, remaining[i]);
    WithoutOne(remaining, i);
    StillUnrelated(remaining, i, texts);
    GreedyStep(remaining, room, texts);
    price := PriceExists(Without(remaining, i), room - remaining[i].tokens, texts + [remaining[i].words], top, s - {remaining[i]});
    PriceOfTheRest(s, remaining, i, room,
                   Greedy(Without(remaining, i), room - remaining[i].tokens, texts + [remaining[i].words]).taken, top, price);
  }

  lemma TakenFromThese(remaining: seq<Candidate>, room: int, texts: seq<Words>)
    requires DistinctIds(remaining)
    ensures forall c | c in Greedy(remaining, room, texts).taken :: c in remaining
  {
    GreedyPartitions(remaining, room, texts);
  }

  lemma TakenWorthwhile(remaining: seq<Candidate>, taken: seq<Candidate>)
    requires (forall c | c in taken :: c in remaining) && forall c | c in remaining :: Worthwhile(c)
    ensures Scores(taken) >= 0.0
  {
    TakenPositive(taken);
  }

  lemma NothingPriced(remaining: seq<Candidate>, room: nat, top: real)
    requires top >= 0.0
    ensures Priced({}, remaining, room, [], top, 0.0)
  {
  }

  lemma NothingShared(pool: seq<Candidate>, already: seq<Candidate>)
    requires DistinctIds(pool)
    requires forall c, d | c in pool && d in pool && c != d :: c.words * d.words == {}
    requires forall c, a | c in pool && a in already :: c.words * a.words == {}
    ensures Unrelated(Sorted(pool, already), Texts(already))
  {
    hide Sorted;
    SortedMembers(pool, already);
    var s := Sorted(pool, already);
    forall i, j | 0 <= i < |s| && 0 <= j < |s| && i != j
      ensures Similarity(s[i].words, s[j].words) == 0.0
    {
      assert s[i].id != s[j].id && s[i] in s && s[j] in s;
    }
    forall i, t | 0 <= i < |s| && 0 <= t < |Texts(already)|
      ensures Similarity(s[i].words, Texts(already)[t]) == 0.0
    {
      assert s[i] in s && already[t] in already;
    }
  }

  /** No affordable set of new candidates scores more than the greedy filling and one more
      item: here top is at least every single score. */
  lemma WithinOneItem(pool: seq<Candidate>, allowance: nat, already: seq<Candidate>, top: real, s: set<Candidate>)
    requires DistinctIds(pool)
    requires forall c, d | c in pool && d in pool && c != d :: c.words * d.words == {}
    requires forall c, a | c in pool && a in already :: c.words * a.words == {}
    requires (forall c | c in pool :: 0.0 < c.score <= top && c.tokens > 0) && top >= 0.0
    requires forall c | c in s :: c in pool && c.id !in IdsOf(already)
    requires TokensOf(s) <= allowance
    ensures ScoreOf(s) <= Scores(FillOf(pool, allowance, already).taken) + top
  {
    hide Greedy, Unrelated, Sorted, Cost;
    SortedMembers(pool, already);
    NothingShared(pool, already);
    var price := PriceExists(Sorted(pool, already), allowance, Texts(already), top, s);
    CostGrows(price, TokensOf(s), allowance);
  }
}

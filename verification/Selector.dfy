/** Choosing memories for a token budget: a quota for each type, greedy fill by density with
    a diversity term, redistribution of what is left, and honest counts of what was dropped.
    Floats of the original are exact reals here. */
module Selector {
  import opened Basics
  import opened Schema
  import Sorting

  type Id = nat
  type Words = set<string>

  datatype Candidate = Candidate(id: Id, kind: MemoryType, words: Words, score: real, tokens: nat)

  datatype Quota = Quota(kind: MemoryType, share: real)

  const TYPE_QUOTA: seq<Quota> := [Quota(CONSTRAINT, 0.25), Quota(DECISION, 0.40), Quota(FACT, 0.20), Quota(TASK, 0.15)]
  const MMR_LAMBDA: real := 0.7
  const DUPLICATE_SIMILARITY: real := 0.6
  const SAFETY_MARGIN: real := 0.10

  // ---- measures --------------------------------------------------------------

  /** Rounding towards zero. */
  function Truncate(x: real): (n: int)
    ensures x >= 0.0 ==> 0 <= n && n as real <= x < n as real + 1.0
    ensures x <= 0.0 ==> n <= 0 && n as real - 1.0 < x <= n as real
  {
    if x >= 0.0 then x.Floor else -((-x).Floor)
  }

  function UsableBudget(budget: int): nat {
    var n := Truncate(budget as real * (1.0 - SAFETY_MARGIN));
    if n > 1 then n else 1
  }

  function Density(c: Candidate): real {
    if c.tokens == 0 then 0.0 else c.score / c.tokens as real
  }

  function Similarity(a: Words, b: Words): real {
    if a == {} || b == {} then 0.0 else |a * b| as real / |a + b| as real
  }

  function Closest(words: Words, texts: seq<Words>): real {
    if texts == [] then 0.0
    else
      var m, s := Closest(words, texts[..|texts| - 1]), Similarity(words, texts[|texts| - 1]);
      if s > m then s else m
  }

  function Value(c: Candidate, texts: seq<Words>): real {
    MMR_LAMBDA * Density(c)
    + (1.0 - MMR_LAMBDA) * (1.0 - Closest(c.words, texts)) * (if Density(c) == 0.0 then 0.000000001 else Density(c))
  }

  predicate Redundant(words: Words, texts: seq<Words>) {
    exists i | 0 <= i < |texts| :: Similarity(words, texts[i]) >= DUPLICATE_SIMILARITY
  }

  predicate ByDensity(a: Candidate, b: Candidate) {
    Density(a) > Density(b) || (Density(a) == Density(b) && a.id <= b.id)
  }

  function Section(kind: MemoryType): nat {
    match kind
    case CONSTRAINT => 0
    case DECISION => 1
    case FACT => 2
    case TASK => 3
  }

  predicate ByPlace(a: Candidate, b: Candidate) {
    Section(a.kind) < Section(b.kind)
    || (Section(a.kind) == Section(b.kind) && (a.score > b.score || (a.score == b.score && a.id <= b.id)))
  }

  predicate ByShare(a: Quota, b: Quota) {
    a.share >= b.share
  }

  function Filter(s: seq<Candidate>, p: Candidate -> bool): seq<Candidate> {
    if s == [] then []
    else Filter(s[..|s| - 1], p) + if p(s[|s| - 1]) then [s[|s| - 1]] else []
  }

  function Texts(s: seq<Candidate>): seq<Words> {
    seq(|s|, i requires 0 <= i < |s| => s[i].words)
  }

  function IdsOf(s: seq<Candidate>): set<Id> {
    set c | c in s :: c.id
  }

  function Tokens(s: seq<Candidate>): nat {
    if s == [] then 0 else Tokens(s[..|s| - 1]) + s[|s| - 1].tokens
  }

  // ---- greedy fill of one allowance ------------------------------------------

  /** The first affordable candidate of the highest value. */
  function Best(remaining: seq<Candidate>, room: int, texts: seq<Words>): (b: Option<nat>)
    ensures b.Some? ==> b.value < |remaining| && remaining[b.value].tokens <= room
  {
    if remaining == [] then None
    else
      var n := |remaining| - 1;
      var b := Best(remaining[..n], room, texts);
      if remaining[n].tokens > room then b
      else if b.None? || Value(remaining[n], texts) > Value(remaining[b.value], texts) then Some(n)
      else b
  }

  function Without<T>(s: seq<T>, i: nat): seq<T>
    requires i < |s|
  {
    s[..i] + s[i + 1..]
  }

  datatype Filled = Filled(taken: seq<Candidate>, spent: nat, rejected: set<Id>, left: seq<Candidate>)

  /** What greedy filling takes, rejects and leaves, from a sorted list and some room. */
  function Greedy(remaining: seq<Candidate>, room: int, texts: seq<Words>): Filled
    decreases |remaining|
  {
    var b := Best(remaining, room, texts);
    if b.None? then Filled([], 0, {}, remaining)
    else
      var best, rest := remaining[b.value], Without(remaining, b.value);
      if Redundant(best.words, texts) then
        var f := Greedy(rest, room, texts);
        f.(rejected := {best.id} + f.rejected)
      else
        var f := Greedy(rest, room - best.tokens, texts + [best.words]);
        f.(taken := [best] + f.taken, spent := best.tokens + f.spent)
  }

  function Sorted(pool: seq<Candidate>, already: seq<Candidate>): seq<Candidate> {
    Sorting.Sort(ByDensity, Filter(pool, (c: Candidate) => c.id !in IdsOf(already)))
  }

  function FillOf(pool: seq<Candidate>, allowance: int, already: seq<Candidate>): Filled {
    Greedy(Sorted(pool, already), allowance, Texts(already))
  }

  method Choose(remaining: seq<Candidate>, room: int, texts: seq<Words>) returns (best: Option<nat>)
    ensures best == Best(remaining, room, texts)
  {
    best := None;
    var bestValue := 0.0;
    for i := 0 to |remaining|
      invariant best == Best(remaining[..i], room, texts)
      invariant best.Some? ==> bestValue == Value(remaining[best.value], texts)
    {
      assert remaining[..i + 1][..i] == remaining[..i];
      var candidate := remaining[i];
      if candidate.tokens <= room {
        var value := Value(candidate, texts);
        if best.None? || value > bestValue {
          best, bestValue := Some(i), value;
        }
      }
    }
    assert remaining[..|remaining|] == remaining;
  }

  lemma GreedyEnds(remaining: seq<Candidate>, room: int, texts: seq<Words>)
    requires Best(remaining, room, texts).None?
    ensures Greedy(remaining, room, texts) == Filled([], 0, {}, remaining)
  {
  }

  lemma NoneLeft(room: int, texts: seq<Words>)
    ensures Best([], room, texts).None?
  {
  }

  lemma GreedyStep(remaining: seq<Candidate>, room: int, texts: seq<Words>)
    requires Best(remaining, room, texts).Some?
    ensures var i := Best(remaining, room, texts).value;
            var best, rest := remaining[i], Without(remaining, i);
            if Redundant(best.words, texts) then
              var f := Greedy(rest, room, texts);
              Greedy(remaining, room, texts) == Filled(f.taken, f.spent, {best.id} + f.rejected, f.left)
            else
              var f := Greedy(rest, room - best.tokens, texts + [best.words]);
              Greedy(remaining, room, texts) == Filled([best] + f.taken, best.tokens + f.spent, f.rejected, f.left)
  {
    hide Redundant, Best, Value;
  }

  method Fill(pool: seq<Candidate>, allowance: int, already: seq<Candidate>)
    returns (taken: seq<Candidate>, spent: nat, rejected: set<Id>)
    ensures Filled(taken, spent, rejected, FillOf(pool, allowance, already).left) == FillOf(pool, allowance, already)
  {
    hide Best, Redundant, Greedy;
    var chosenText := Texts(already);
    var remaining := Sorted(pool, already);
    taken, spent, rejected := [], 0, {};
    ghost var all := FillOf(pool, allowance, already);
    while remaining != []
      invariant var f := Greedy(remaining, allowance - spent, chosenText);
                all == Filled(taken + f.taken, spent + f.spent, rejected + f.rejected, f.left)
      decreases |remaining|
    {
      var b := Choose(remaining, allowance - spent, chosenText);
      if b.None? {
        GreedyEnds(remaining, allowance - spent, chosenText);
        break;
      }
      var best := remaining[b.value];
      GreedyStep(remaining, allowance - spent, chosenText);
      remaining := Without(remaining, b.value);
      if Redundant(best.words, chosenText) {
        rejected := rejected + {best.id};
        continue;
      }
      taken := taken + [best];
      chosenText := chosenText + [best.words];
      spent := spent + best.tokens;
    }
    if remaining == [] {
      NoneLeft(allowance - spent, chosenText);
      GreedyEnds(remaining, allowance - spent, chosenText);
    }
  }

  // ---- the whole selection ---------------------------------------------------

  datatype Drops = Drops(tooLarge: int, tooSimilar: int, noBudget: int)

  datatype Selection = Selection(selected: seq<Candidate>, used: nat, budget: int, considered: nat, dropped: Drops)

  datatype Sofar = Sofar(selected: seq<Candidate>, redundant: set<Id>, used: nat)

  function Join(s: Sofar, f: Filled): Sofar {
    Sofar(s.selected + f.taken, s.redundant + f.rejected, s.used + f.spent)
  }

  function Allowance(spendable: nat, q: Quota): int {
    Truncate(spendable as real * q.share)
  }

  function Fitting(candidates: seq<Candidate>, spendable: nat): seq<Candidate> {
    Filter(candidates, (c: Candidate) => c.tokens <= spendable)
  }

  function OfKind(fitting: seq<Candidate>, kind: MemoryType): seq<Candidate> {
    Filter(fitting, (c: Candidate) => c.kind == kind)
  }

  function Leftovers(fitting: seq<Candidate>, s: Sofar): seq<Candidate> {
    Filter(fitting, (c: Candidate) => c.id !in IdsOf(s.selected) && c.id !in s.redundant)
  }

  function Passes(fitting: seq<Candidate>, spendable: nat, quotas: seq<Quota>): Sofar {
    if quotas == [] then Sofar([], {}, 0)
    else
      var s, q := Passes(fitting, spendable, quotas[..|quotas| - 1]), quotas[|quotas| - 1];
      Join(s, FillOf(OfKind(fitting, q.kind), Allowance(spendable, q), s.selected))
  }

  function Redistributed(fitting: seq<Candidate>, spendable: nat, s: Sofar): Sofar {
    if spendable - s.used > 0 then Join(s, FillOf(Leftovers(fitting, s), spendable - s.used, s.selected)) else s
  }

  /** A count that is reported; a reason without one is left out of the report. */
  function Counted(n: int): (r: int)
    ensures r >= 0 && (n >= 0 ==> r == n) && (n < 0 ==> r == 0)
  {
    if n > 0 then n else 0
  }

  function ActiveQuotas(quotas: seq<Quota>): seq<Quota> {
    Sorting.Sort(ByShare, if quotas == [] then TYPE_QUOTA else quotas)
  }

  function Final(candidates: seq<Candidate>, budget: int, quotas: seq<Quota>): Sofar {
    var spendable := UsableBudget(budget);
    var fitting := Fitting(candidates, spendable);
    Redistributed(fitting, spendable, Passes(fitting, spendable, ActiveQuotas(quotas)))
  }

  function SelectionOf(candidates: seq<Candidate>, budget: int, quotas: seq<Quota>): Selection {
    var fitting := Fitting(candidates, UsableBudget(budget));
    var s := Final(candidates, budget, quotas);
    Selection(Sorting.Sort(ByPlace, s.selected), s.used, budget, |candidates|,
              Drops(Counted(|candidates| - |fitting|), Counted(|s.redundant|),
                    Counted(|fitting| - |s.selected| - |s.redundant|)))
  }

  method Select(candidates: seq<Candidate>, budget: int, quotas: seq<Quota>) returns (selection: Selection)
    ensures selection == SelectionOf(candidates, budget, quotas)
  {
    hide FillOf, Fitting, OfKind, Leftovers, Allowance, ActiveQuotas, UsableBudget;
    var spendable := UsableBudget(budget);
    var fitting := Fitting(candidates, spendable);
    var tooLarge := |candidates| - |fitting|;
    var selected: seq<Candidate>, redundant: set<Id>, used := [], {}, 0;
    var order := ActiveQuotas(quotas);
    for i := 0 to |order|
      invariant Sofar(selected, redundant, used) == Passes(fitting, spendable, order[..i])
    {
      assert order[..i + 1][..i] == order[..i];
      var pool := OfKind(fitting, order[i].kind);
      var taken, spent, rejected := Fill(pool, Allowance(spendable, order[i]), selected);
      selected, redundant, used := selected + taken, redundant + rejected, used + spent;
    }
    assert order[..|order|] == order;
    var remaining := (spendable as int) - used;
    if remaining > 0 {
      var leftovers := Leftovers(fitting, Sofar(selected, redundant, used));
      var taken, spent, rejected := Fill(leftovers, remaining, selected);
      selected, redundant, used := selected + taken, redundant + rejected, used + spent;
    }
    var dropped := Drops(Counted(tooLarge), Counted(|redundant|), Counted(|fitting| - |selected| - |redundant|));
    selection := Selection(Sorting.Sort(ByPlace, selected), used, budget, |candidates|, dropped);
  }
}

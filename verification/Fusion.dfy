/** Reciprocal rank fusion, over exact rationals. */
module Fusion {
  import opened Basics
  import Sorting

  type Id = nat

  const RRF_K: nat := 60
  const OVERFETCH: nat := 3

  datatype Fused = Fused(id: Id, score: real, lexicalRank: Option<nat>, semanticRank: Option<nat>)

  /** A mapping from retriever name to ranking, in insertion order. */
  datatype Named = Named(name: string, ids: seq<Id>)

  ghost predicate Distinct(s: seq<Id>) {
    forall i, j | 0 <= i < j < |s| :: s[i] != s[j]
  }

  function Weight(weights: map<string, real>, name: string): real {
    if name in weights then weights[name] else 1.0
  }

  // ---- the scores a fusion should produce ------------------------------------

  /** What one ranking adds: weight / (k + rank) for each place the id stands at. */
  ghost function Contribution(ids: seq<Id>, k: nat, w: real, id: Id): real {
    if ids == [] then 0.0
    else Contribution(ids[..|ids| - 1], k, w, id)
         + (if ids[|ids| - 1] == id then w / (k + |ids|) as real else 0.0)
  }

  ghost function Score(rankings: seq<Named>, k: nat, weights: map<string, real>, id: Id): real {
    if rankings == [] then 0.0
    else
      var r := rankings[|rankings| - 1];
      Score(rankings[..|rankings| - 1], k, weights, id) + Contribution(r.ids, k, Weight(weights, r.name), id)
  }

  /** The last place of the id, counted from one. */
  ghost function Place(ids: seq<Id>, id: Id): Option<nat> {
    if ids == [] then None
    else if ids[|ids| - 1] == id then Some(|ids|)
    else Place(ids[..|ids| - 1], id)
  }

  ghost function PlaceUnder(rankings: seq<Named>, name: string, id: Id): Option<nat> {
    if rankings == [] then None
    else
      var r := rankings[|rankings| - 1];
      if r.name == name then Place(r.ids, id) else PlaceUnder(rankings[..|rankings| - 1], name, id)
  }

  ghost predicate Occurs(rankings: seq<Named>, id: Id) {
    exists r | 0 <= r < |rankings| :: id in rankings[r].ids
  }

  // ---- the order of results --------------------------------------------------

  predicate Before(a: Fused, b: Fused) {
    a.score > b.score || (a.score == b.score && a.id <= b.id)
  }

  lemma BeforeTotal()
    ensures Sorting.Total(Before)
  {
  }

  function Lookup(m: map<Id, real>, id: Id): real {
    if id in m then m[id] else 0.0
  }

  function PositionOf(positions: map<string, map<Id, nat>>, name: string, id: Id): Option<nat> {
    if name in positions && id in positions[name] then Some(positions[name][id]) else None
  }

  /** What the caller gets: every id that occurs, once, with its score and places, by
      descending score and then ascending id. */
  ghost predicate FusionOf(rankings: seq<Named>, k: nat, weights: map<string, real>, fused: seq<Fused>) {
    && Scored(rankings, k, weights, fused)
    && (forall i, j | 0 <= i < j < |fused| ::
          fused[i].score > fused[j].score || (fused[i].score == fused[j].score && fused[i].id < fused[j].id))
  }

  ghost predicate Tallied(rankings: seq<Named>, k: nat, weights: map<string, real>,
                          scores: map<Id, real>, positions: map<string, map<Id, nat>>, seen: seq<Id>) {
    && (forall id :: Lookup(scores, id) == Score(rankings, k, weights, id))
    && (forall name, id :: PositionOf(positions, name, id) == PlaceUnder(rankings, name, id))
    && (forall id :: id in scores <==> Occurs(rankings, id))
    && Listing(seen, scores)
  }

  ghost predicate Added(scores0: map<Id, real>, scores: map<Id, real>, ids: seq<Id>, k: nat, w: real) {
    && (forall id :: Lookup(scores, id) == Lookup(scores0, id) + Contribution(ids, k, w, id))
    && (forall id :: id in scores <==> id in scores0 || id in ids)
  }

  ghost predicate Placed(places: map<Id, nat>, ids: seq<Id>) {
    forall id :: (if id in places then Some(places[id]) else None) == Place(ids, id)
  }

  ghost predicate Listing(seen: seq<Id>, scores: map<Id, real>) {
    (forall id :: id in seen <==> id in scores) && Distinct(seen)
  }

  lemma AddedNext(scores0: map<Id, real>, scores: map<Id, real>, ids: seq<Id>, id: Id, k: nat, w: real)
    requires Added(scores0, scores, ids, k, w)
    ensures Added(scores0, scores[id := Lookup(scores, id) + w / (k + |ids| + 1) as real], ids + [id], k, w)
  {
    var next := ids + [id];
    assert next[..|next| - 1] == ids;
  }

  lemma PlacedNext(places: map<Id, nat>, ids: seq<Id>, id: Id)
    requires Placed(places, ids)
    ensures Placed(places[id := |ids| + 1], ids + [id])
  {
    var next := ids + [id];
    assert next[..|next| - 1] == ids;
  }

  lemma ListingNext(seen: seq<Id>, scores: map<Id, real>, id: Id, s: real)
    requires Listing(seen, scores)
    ensures Listing(if id in scores then seen else seen + [id], scores[id := s])
  {
    if id !in scores {
      assert forall x :: x in seen + [id] <==> x in seen || x == id;
    }
  }

  /** One ranking folded into the dictionaries.  `seen` is the insertion order of `scores`. */
  method Tally(r: Named, k: nat, w: real, scores0: map<Id, real>, seen0: seq<Id>)
    returns (scores: map<Id, real>, places: map<Id, nat>, seen: seq<Id>)
    requires Listing(seen0, scores0)
    ensures Added(scores0, scores, r.ids, k, w) && Placed(places, r.ids) && Listing(seen, scores)
  {
    hide Added, Placed, Listing;
    NothingAdded(scores0, k, w);
    assert r.ids[..0] == [];
    scores, places, seen := scores0, map[], seen0;
    for index := 0 to |r.ids|
      invariant Added(scores0, scores, r.ids[..index], k, w)
      invariant Placed(places, r.ids[..index])
      invariant Listing(seen, scores)
    {
      var rank, id := index + 1, r.ids[index];
      assert r.ids[..index + 1] == r.ids[..index] + [id];
      PlacedNext(places, r.ids[..index], id);
      AddedNext(scores0, scores, r.ids[..index], id, k, w);
      ListingNext(seen, scores, id, Lookup(scores, id) + w / (k + rank) as real);
      places := places[id := rank];
      if id !in scores {
        seen := seen + [id];
      }
      scores := scores[id := Lookup(scores, id) + w / (k + rank) as real];
    }
    assert r.ids[..|r.ids|] == r.ids;
  }

  lemma NothingAdded(scores: map<Id, real>, k: nat, w: real)
    ensures Added(scores, scores, [], k, w) && Placed(map[], [])
  {
  }

  lemma PositionNext(init: seq<Named>, last: Named, positions: map<string, map<Id, nat>>, places: map<Id, nat>,
                     name: string, id: Id)
    requires PositionOf(positions, name, id) == PlaceUnder(init, name, id)
    requires (if id in places then Some(places[id]) else None) == Place(last.ids, id)
    ensures PositionOf(positions[last.name := places], name, id) == PlaceUnder(init + [last], name, id)
  {
    hide Place;
    var next := init + [last];
    assert next[..|next| - 1] == init && next[|next| - 1] == last;
    if name == last.name {
      assert PlaceUnder(next, name, id) == Place(last.ids, id);
    } else {
      assert PlaceUnder(next, name, id) == PlaceUnder(init, name, id);
    }
  }

  lemma ScoreNext(init: seq<Named>, last: Named, k: nat, weights: map<string, real>, id: Id)
    ensures Score(init + [last], k, weights, id)
            == Score(init, k, weights, id) + Contribution(last.ids, k, Weight(weights, last.name), id)
  {
    assert (init + [last])[..|init|] == init;
  }

  lemma OccursNext(init: seq<Named>, last: Named, id: Id)
    ensures Occurs(init + [last], id) <==> Occurs(init, id) || id in last.ids
  {
    var next := init + [last];
    if Occurs(init, id) {
      var r :| 0 <= r < |init| && id in init[r].ids;
      assert id in next[r].ids;
    }
    if id in last.ids {
      assert id in next[|init|].ids;
    }
  }

  /** Folding one more ranking in keeps the dictionaries exact. */
  lemma TalliedNext(init: seq<Named>, last: Named, k: nat, weights: map<string, real>,
                    scores: map<Id, real>, positions: map<string, map<Id, nat>>, seen: seq<Id>,
                    scores': map<Id, real>, places: map<Id, nat>, seen': seq<Id>)
    requires Tallied(init, k, weights, scores, positions, seen)
    requires Added(scores, scores', last.ids, k, Weight(weights, last.name))
    requires Placed(places, last.ids) && Listing(seen', scores')
    ensures Tallied(init + [last], k, weights, scores', positions[last.name := places], seen')
  {
    hide Place, PlaceUnder, Contribution, Score, PositionOf, Occurs;
    forall name, id
      ensures PositionOf(positions[last.name := places], name, id) == PlaceUnder(init + [last], name, id)
    {
      PositionNext(init, last, positions, places, name, id);
    }
    forall id
      ensures Lookup(scores', id) == Score(init + [last], k, weights, id)
      ensures Occurs(init + [last], id) <==> id in scores'
    {
      ScoreNext(init, last, k, weights, id);
      OccursNext(init, last, id);
    }
  }

  lemma NothingTallied(k: nat, weights: map<string, real>)
    ensures Tallied([], k, weights, map[], map[], [])
  {
  }

  lemma TalliedKeys(rankings: seq<Named>, k: nat, weights: map<string, real>,
                    scores: map<Id, real>, positions: map<string, map<Id, nat>>, seen: seq<Id>)
    requires Tallied(rankings, k, weights, scores, positions, seen)
    ensures Listing(seen, scores)
  {
    hide Score, PlaceUnder, Occurs;
  }

  method ReciprocalRankFusion(rankings: seq<Named>, k: nat, weights: map<string, real>) returns (fused: seq<Fused>)
    ensures FusionOf(rankings, k, weights, fused)
  {
    hide Tallied, Scored, FusionOf, Place, Added, Placed, Listing;
    var scores: map<Id, real>, positions: map<string, map<Id, nat>>, seen: seq<Id> := map[], map[], [];
    NothingTallied(k, weights);
    assert rankings[..0] == [];
    for r := 0 to |rankings|
      invariant Tallied(rankings[..r], k, weights, scores, positions, seen)
    {
      assert rankings[..r + 1] == rankings[..r] + [rankings[r]];
      TalliedKeys(rankings[..r], k, weights, scores, positions, seen);
      var scores', places, seen' := Tally(rankings[r], k, Weight(weights, rankings[r].name), scores, seen);
      TalliedNext(rankings[..r], rankings[r], k, weights, scores, positions, seen, scores', places, seen');
      scores, positions, seen := scores', positions[rankings[r].name := places], seen';
    }
    assert rankings[..|rankings|] == rankings;
    TalliedKeys(rankings, k, weights, scores, positions, seen);
    var unsorted := seq(|seen|, i requires 0 <= i < |seen| =>
      Fused(seen[i], Lookup(scores, seen[i]), PositionOf(positions, "lexical", seen[i]), PositionOf(positions, "semantic", seen[i])));
    Listed(rankings, k, weights, scores, positions, seen, unsorted);
    fused := Sorting.Sort(Before, unsorted);
    SortedFusion(rankings, k, weights, unsorted, fused);
  }

  lemma Listed(rankings: seq<Named>, k: nat, weights: map<string, real>,
               scores: map<Id, real>, positions: map<string, map<Id, nat>>, seen: seq<Id>, unsorted: seq<Fused>)
    requires Tallied(rankings, k, weights, scores, positions, seen) && |unsorted| == |seen|
    requires forall i | 0 <= i < |seen| :: unsorted[i] == Fused(
               seen[i], Lookup(scores, seen[i]), PositionOf(positions, "lexical", seen[i]), PositionOf(positions, "semantic", seen[i]))
    ensures Scored(rankings, k, weights, unsorted)
  {
    hide Score, PlaceUnder;
    forall i | 0 <= i < |seen|
      ensures Occurs(rankings, seen[i])
    {
      assert seen[i] in seen;
    }
    forall id | Occurs(rankings, id)
      ensures exists i :: 0 <= i < |unsorted| && unsorted[i].id == id
    {
      var i :| 0 <= i < |seen| && seen[i] == id;
      assert unsorted[i].id == id;
    }
  }

  /** Every id that occurs, once, with its score and places; in any order. */
  ghost predicate Scored(rankings: seq<Named>, k: nat, weights: map<string, real>, unsorted: seq<Fused>) {
    && (forall i | 0 <= i < |unsorted| :: ScoredAt(rankings, k, weights, unsorted[i]))
    && (forall id | Occurs(rankings, id) :: exists i :: 0 <= i < |unsorted| && unsorted[i].id == id)
    && (forall i, j | 0 <= i < j < |unsorted| :: unsorted[i].id != unsorted[j].id)
  }

  ghost predicate ScoredAt(rankings: seq<Named>, k: nat, weights: map<string, real>, f: Fused) {
    && f.score == Score(rankings, k, weights, f.id)
    && f.lexicalRank == PlaceUnder(rankings, "lexical", f.id)
    && f.semanticRank == PlaceUnder(rankings, "semantic", f.id)
    && Occurs(rankings, f.id)
  }

  lemma SortedFusion(rankings: seq<Named>, k: nat, weights: map<string, real>, unsorted: seq<Fused>, fused: seq<Fused>)
    requires fused == Sorting.Sort(Before, unsorted)
    requires Scored(rankings, k, weights, unsorted)
    ensures FusionOf(rankings, k, weights, fused)
  {
    hide Score, PlaceUnder, Occurs, ScoredAt;
    BeforeTotal();
    Sorting.SortOrders(Before, unsorted);
    Sorting.SortMembers(Before, unsorted);
    Sorting.SortKeeps(Before, unsorted);
    Sorting.PermutedDistinct((f: Fused) => f.id, unsorted, fused);
    forall id | Occurs(rankings, id)
      ensures exists i :: 0 <= i < |fused| && fused[i].id == id
    {
      var i :| 0 <= i < |unsorted| && unsorted[i].id == id;
      assert unsorted[i] in fused;
    }
    forall i | 0 <= i < |fused|
      ensures ScoredAt(rankings, k, weights, fused[i])
    {
      assert fused[i] in fused;
      var j :| 0 <= j < |unsorted| && unsorted[j] == fused[i];
    }
  }

  // ---- two retrievers --------------------------------------------------------

  function Pair(lexical: seq<Id>, semantic: seq<Id>): seq<Named> {
    [Named("lexical", lexical), Named("semantic", semantic)]
  }

  lemma PairScore(lexical: seq<Id>, semantic: seq<Id>, id: Id)
    ensures Score(Pair(lexical, semantic), RRF_K, map[], id)
            == Contribution(lexical, RRF_K, 1.0, id) + Contribution(semantic, RRF_K, 1.0, id)
  {
    var p := Pair(lexical, semantic);
    assert p[..1][..0] == [];
    assert Score(p[..0], RRF_K, map[], id) == 0.0;
    assert Score(p[..1], RRF_K, map[], id) == Contribution(lexical, RRF_K, 1.0, id);
  }

  lemma {:induction false} AbsentAddsNothing(ids: seq<Id>, k: nat, w: real, id: Id)
    requires id !in ids
    ensures Contribution(ids, k, w, id) == 0.0
  {
    if ids != [] {
      AbsentAddsNothing(ids[..|ids| - 1], k, w, id);
    }
  }

  lemma {:induction false} PlaceAdds(ids: seq<Id>, k: nat, w: real, i: nat)
    requires Distinct(ids) && i < |ids|
    ensures Contribution(ids, k, w, ids[i]) == w / (k + i + 1) as real
  {
    var init := ids[..|ids| - 1];
    if i == |ids| - 1 {
      AbsentAddsNothing(init, k, w, ids[i]);
    } else {
      PlaceAdds(init, k, w, i);
    }
  }

  /** What two rankings make of an id that both list: the weight of each, or one where none is given,
      over k plus its place, places counted from one. */
  lemma WeightedPlaces(a: Named, b: Named, k: nat, weights: map<string, real>, i: nat, j: nat, fused: seq<Fused>, n: nat)
    requires Distinct(a.ids) && Distinct(b.ids) && i < |a.ids| && j < |b.ids| && a.ids[i] == b.ids[j]
    requires FusionOf([a, b], k, weights, fused) && n < |fused| && fused[n].id == a.ids[i]
    ensures var v := if a.name in weights then weights[a.name] else 1.0;
            var w := if b.name in weights then weights[b.name] else 1.0;
            fused[n].score == v / (k + i + 1) as real + w / (k + j + 1) as real
  {
    hide Contribution;
    var p := [a, b];
    assert p[..1][..0] == [] && p[..1] == [a];
    assert ScoredAt(p, k, weights, fused[n]);
    assert Score(p[..0], k, weights, a.ids[i]) == 0.0;
    assert Score(p[..1], k, weights, a.ids[i]) == Contribution(a.ids, k, Weight(weights, a.name), a.ids[i]);
    PlaceAdds(a.ids, k, Weight(weights, a.name), i);
    PlaceAdds(b.ids, k, Weight(weights, b.name), j);
  }

  /** The places reported are those in the lists themselves, counted from one; none where not listed. */
  lemma PlacesReported(lexical: seq<Id>, semantic: seq<Id>, k: nat, weights: map<string, real>, fused: seq<Fused>, n: nat)
    requires Distinct(lexical) && Distinct(semantic) && FusionOf(Pair(lexical, semantic), k, weights, fused) && n < |fused|
    ensures match fused[n].lexicalRank
            case Some(place) => 1 <= place <= |lexical| && lexical[place - 1] == fused[n].id
            case None => fused[n].id !in lexical
    ensures match fused[n].semanticRank
            case Some(place) => 1 <= place <= |semantic| && semantic[place - 1] == fused[n].id
            case None => fused[n].id !in semantic
  {
    hide Contribution, Score, Place;
    var p, id := Pair(lexical, semantic), fused[n].id;
    assert ScoredAt(p, k, weights, fused[n]);
    assert p[..1][0] == p[0] && |p[..1]| == 1;
    assert |"lexical"| != |"semantic"|;
    assert PlaceUnder(p, "semantic", id) == Place(semantic, id);
    assert PlaceUnder(p, "lexical", id) == PlaceUnder(p[..1], "lexical", id);
    assert PlaceUnder(p[..1], "lexical", id) == Place(lexical, id);
    PlaceFound(lexical, fused[n].id);
    PlaceFound(semantic, fused[n].id);
  }

  lemma {:induction false} PlaceFound(ids: seq<Id>, id: Id)
    ensures match Place(ids, id)
            case Some(place) => 1 <= place <= |ids| && ids[place - 1] == id
            case None => id !in ids
  {
    if ids != [] && ids[|ids| - 1] != id {
      PlaceFound(ids[..|ids| - 1], id);
      assert ids == ids[..|ids| - 1] + [ids[|ids| - 1]];
    }
  }

  lemma ShareShrinks(a: nat, b: nat)
    requires 0 < a <= b
    ensures 1.0 / b as real <= 1.0 / a as real
    ensures a < b ==> 1.0 / b as real < 1.0 / a as real
  {
    var x, y := a as real, b as real;
    assert 1.0 / x - 1.0 / y == (y - x) / (x * y);
  }

  /** Everything both retrievers found outscores everything only one of them found. */
  ghost predicate AgreementFirst(lexical: seq<Id>, semantic: seq<Id>) {
    forall a, b |
      a in lexical && a in semantic && ((b in lexical && b !in semantic) || (b !in lexical && b in semantic)) ::
      Score(Pair(lexical, semantic), RRF_K, map[], a) > Score(Pair(lexical, semantic), RRF_K, map[], b)
  }

  lemma Both(ids: seq<Id>, a: Id)
    requires Distinct(ids) && |ids| <= 60 && a in ids
    ensures Contribution(ids, RRF_K, 1.0, a) >= 1.0 / 120.0
  {
    var i :| 0 <= i < |ids| && ids[i] == a;
    PlaceAdds(ids, RRF_K, 1.0, i);
    ShareShrinks(RRF_K + i + 1, 120);
  }

  lemma Single(ids: seq<Id>, other: seq<Id>, b: Id)
    requires Distinct(ids) && b in ids && b !in other
    ensures Contribution(ids, RRF_K, 1.0, b) + Contribution(other, RRF_K, 1.0, b) <= 1.0 / 61.0
  {
    var m :| 0 <= m < |ids| && ids[m] == b;
    PlaceAdds(ids, RRF_K, 1.0, m);
    AbsentAddsNothing(other, RRF_K, 1.0, b);
    ShareShrinks(61, RRF_K + m + 1);
  }

  lemma AgreementWins(lexical: seq<Id>, semantic: seq<Id>, a: Id, b: Id)
    requires Distinct(lexical) && Distinct(semantic) && |lexical| <= 60 && |semantic| <= 60
    requires a in lexical && a in semantic
    requires (b in lexical && b !in semantic) || (b !in lexical && b in semantic)
    ensures Score(Pair(lexical, semantic), RRF_K, map[], a) > Score(Pair(lexical, semantic), RRF_K, map[], b)
  {
    hide Contribution, Score;
    PairScore(lexical, semantic, a);
    PairScore(lexical, semantic, b);
    Both(lexical, a);
    Both(semantic, a);
    if b in lexical {
      Single(lexical, semantic, b);
    } else {
      Single(semantic, lexical, b);
    }
    assert 1.0 / 120.0 + 1.0 / 120.0 > 1.0 / 61.0;
  }

  function Far(n: nat): seq<Id> {
    seq(63, i requires 0 <= i < 63 => if i == 62 then 62 else n + i)
  }

  /** At rank 63 in both lists an id scores below the top of either list alone. */
  lemma AgreementLoses()
    ensures Distinct(Far(0)) && Distinct(Far(100)) && !AgreementFirst(Far(0), Far(100))
  {
    var x, y := Far(0), Far(100);
    assert x[62] == 62 && y[62] == 62 && x[0] == 0 && 0 !in y;
    PairScore(x, y, 62);
    PairScore(x, y, 0);
    PlaceAdds(x, RRF_K, 1.0, 62);
    PlaceAdds(y, RRF_K, 1.0, 62);
    PlaceAdds(x, RRF_K, 1.0, 0);
    AbsentAddsNothing(y, RRF_K, 1.0, 0);
  }

  /** Two over-fetched rankings always put agreement first exactly when at most 20 results are asked for. */
  lemma AgreementExactlyUpToTwenty(limit: nat)
    ensures (forall lexical, semantic |
               Distinct(lexical) && Distinct(semantic) && |lexical| <= limit * OVERFETCH && |semantic| <= limit * OVERFETCH ::
               AgreementFirst(lexical, semantic))
            <==> limit <= 20
  {
    if limit <= 20 {
      forall lexical, semantic |
        Distinct(lexical) && Distinct(semantic) && |lexical| <= limit * OVERFETCH && |semantic| <= limit * OVERFETCH
        ensures AgreementFirst(lexical, semantic)
      {
        forall a, b |
          a in lexical && a in semantic && ((b in lexical && b !in semantic) || (b !in lexical && b in semantic))
          ensures Score(Pair(lexical, semantic), RRF_K, map[], a) > Score(Pair(lexical, semantic), RRF_K, map[], b)
        {
          AgreementWins(lexical, semantic, a, b);
        }
      }
    } else {
      AgreementLoses();
      assert |Far(0)| <= limit * OVERFETCH && |Far(100)| <= limit * OVERFETCH;
    }
  }

  /** In the fused list itself: agreement precedes, at any truncation. */
  lemma AgreementPrecedes(lexical: seq<Id>, semantic: seq<Id>, limit: nat, fused: seq<Fused>, i: nat, j: nat)
    requires Distinct(lexical) && Distinct(semantic) && limit <= 20
    requires |lexical| <= limit * OVERFETCH && |semantic| <= limit * OVERFETCH
    requires FusionOf(Pair(lexical, semantic), RRF_K, map[], fused) && i < |fused| && j < |fused|
    requires fused[i].lexicalRank.Some? && fused[i].semanticRank.Some?
    requires !(fused[j].lexicalRank.Some? && fused[j].semanticRank.Some?)
    ensures i < j
  {
    PairPlaces(lexical, semantic, fused[i].id);
    PairPlaces(lexical, semantic, fused[j].id);
    assert Occurs(Pair(lexical, semantic), fused[j].id);
    AgreementWins(lexical, semantic, fused[i].id, fused[j].id);
  }

  lemma {:induction false} PlaceMember(ids: seq<Id>, id: Id)
    ensures Place(ids, id).Some? <==> id in ids
  {
    if ids != [] {
      PlaceMember(ids[..|ids| - 1], id);
    }
  }

  lemma PairPlaces(lexical: seq<Id>, semantic: seq<Id>, id: Id)
    ensures PlaceUnder(Pair(lexical, semantic), "lexical", id).Some? <==> id in lexical
    ensures PlaceUnder(Pair(lexical, semantic), "semantic", id).Some? <==> id in semantic
    ensures Occurs(Pair(lexical, semantic), id) <==> id in lexical || id in semantic
  {
    var p := Pair(lexical, semantic);
    assert p[..1][..0] == [] && p[..1][0] == p[0];
    PlaceMember(lexical, id);
    PlaceMember(semantic, id);
    assert id in lexical ==> id in p[0].ids;
    assert id in semantic ==> id in p[1].ids;
  }

  ghost function Ids(fused: seq<Fused>): seq<Id> {
    seq(|fused|, i requires 0 <= i < |fused| => fused[i].id)
  }

  lemma LexicalScore(lexical: seq<Id>, i: nat)
    requires Distinct(lexical) && i < |lexical|
    ensures Score(Pair(lexical, []), RRF_K, map[], lexical[i]) == 1.0 / (RRF_K + i + 1) as real
  {
    PairScore(lexical, [], lexical[i]);
    PlaceAdds(lexical, RRF_K, 1.0, i);
  }

  /** Alone, the lexical list falls strictly in score. */
  lemma LexicalFalls(lexical: seq<Id>, i: nat, j: nat)
    requires Distinct(lexical) && i < j < |lexical|
    ensures Score(Pair(lexical, []), RRF_K, map[], lexical[i]) > Score(Pair(lexical, []), RRF_K, map[], lexical[j])
  {
    LexicalScore(lexical, i);
    LexicalScore(lexical, j);
    ShareShrinks(RRF_K + i + 1, RRF_K + j + 1);
  }

  lemma LexicalNeverTies(lexical: seq<Id>, i: nat, j: nat)
    requires Distinct(lexical) && i < |lexical| && j < |lexical| && i != j
    ensures Score(Pair(lexical, []), RRF_K, map[], lexical[i]) != Score(Pair(lexical, []), RRF_K, map[], lexical[j])
  {
    if i < j {
      LexicalFalls(lexical, i, j);
    } else {
      LexicalFalls(lexical, j, i);
    }
  }

  /** Two lists of the same ids, both falling strictly by one measure, are the same list. */
  lemma {:induction false} SameOrder(a: seq<Id>, b: seq<Id>, score: map<Id, real>)
    requires Falling(a, score) && Falling(b, score)
    requires forall id :: id in a <==> id in b
    ensures a == b
  {
    EmptyAlike(a, b);
    if a != [] {
      FirstIsHighest(a, score, b[0]);
      FirstIsHighest(b, score, a[0]);
      assert a[0] == b[0];
      forall id
        ensures id in a[1..] <==> id in b[1..]
      {
        RestOf(a, score, id);
        RestOf(b, score, id);
      }
      SameOrder(a[1..], b[1..], score);
      assert a == [a[0]] + a[1..] && b == [b[0]] + b[1..];
    }
  }

  lemma EmptyAlike(a: seq<Id>, b: seq<Id>)
    requires forall id :: id in a <==> id in b
    ensures a == [] <==> b == []
    ensures a != [] ==> a[0] in b && b[0] in a
  {
    if a != [] {
      assert a[0] in a;
    }
    if b != [] {
      assert b[0] in b;
    }
  }

  lemma FirstIsHighest(s: seq<Id>, score: map<Id, real>, id: Id)
    requires s != [] && Falling(s, score) && id in s
    ensures score[s[0]] >= score[id]
    ensures score[s[0]] == score[id] ==> id == s[0]
  {
    var i :| 0 <= i < |s| && s[i] == id;
    assert i > 0 ==> score[s[0]] > score[s[i]];
  }

  ghost predicate Falling(s: seq<Id>, score: map<Id, real>) {
    && (forall i | 0 <= i < |s| :: s[i] in score)
    && (forall i, j | 0 <= i < j < |s| :: score[s[i]] > score[s[j]])
  }

  lemma RestOf(s: seq<Id>, score: map<Id, real>, id: Id)
    requires s != [] && Falling(s, score)
    ensures id in s[1..] <==> id in s && id != s[0]
  {
    assert forall j | 1 <= j < |s| :: s[j] != s[0];
    assert id in s ==> id == s[0] || id in s[1..];
  }

  /** With nothing from the semantic side, fusion is the lexical order, unchanged. */
  lemma LexicalOnly(lexical: seq<Id>, fused: seq<Fused>)
    requires Distinct(lexical) && FusionOf(Pair(lexical, []), RRF_K, map[], fused)
    ensures Ids(fused) == lexical
  {
    hide Score, PlaceUnder, Contribution;
    var ids := Ids(fused);
    forall id
      ensures id in ids <==> id in lexical
    {
      PairPlaces(lexical, [], id);
      if id in ids {
        var i :| 0 <= i < |ids| && ids[i] == id;
        assert Occurs(Pair(lexical, []), fused[i].id);
      }
      if id in lexical {
        var i :| 0 <= i < |fused| && fused[i].id == id;
        assert ids[i] == id;
      }
    }
    var score := map id | id in lexical :: Score(Pair(lexical, []), RRF_K, map[], id);
    FallingBoth(lexical, fused, score);
    SameOrder(ids, lexical, score);
  }

  lemma FallingBoth(lexical: seq<Id>, fused: seq<Fused>, score: map<Id, real>)
    requires Distinct(lexical) && FusionOf(Pair(lexical, []), RRF_K, map[], fused)
    requires forall id :: id in Ids(fused) <==> id in lexical
    requires forall id :: id in score <==> id in lexical
    requires forall id | id in lexical :: score[id] == Score(Pair(lexical, []), RRF_K, map[], id)
    ensures Falling(lexical, score) && Falling(Ids(fused), score)
  {
    hide Score, PlaceUnder, Contribution;
    forall i, j | 0 <= i < j < |lexical|
      ensures score[lexical[i]] > score[lexical[j]]
    {
      LexicalFalls(lexical, i, j);
    }
    var ids := Ids(fused);
    forall i | 0 <= i < |ids|
      ensures ids[i] in score && score[ids[i]] == fused[i].score
    {
      assert ids[i] in ids;
    }
    forall i, j | 0 <= i < j < |ids|
      ensures score[ids[i]] > score[ids[j]]
    {
      FusedNeverTies(lexical, fused, i, j);
    }
  }

  lemma FusedNeverTies(lexical: seq<Id>, fused: seq<Fused>, i: nat, j: nat)
    requires Distinct(lexical) && FusionOf(Pair(lexical, []), RRF_K, map[], fused)
    requires i < j < |fused| && fused[i].id in lexical && fused[j].id in lexical
    ensures fused[i].score > fused[j].score
  {
    hide Score, PlaceUnder, Contribution;
    var m :| 0 <= m < |lexical| && lexical[m] == fused[i].id;
    var n :| 0 <= n < |lexical| && lexical[n] == fused[j].id;
    assert fused[i].id != fused[j].id;
    LexicalNeverTies(lexical, m, n);
  }

  /** A single semantic hit, fused with nothing. */
  lemma OneFound(id: Id)
    ensures FusionOf(Pair([], [id]), RRF_K, map[],
                     [Fused(id, Score(Pair([], [id]), RRF_K, map[], id), None, PlaceUnder(Pair([], [id]), "semantic", id))])
  {
    hide Score, PlaceUnder;
    var p := Pair([], [id]);
    var fused := [Fused(id, Score(p, RRF_K, map[], id), None, PlaceUnder(p, "semantic", id))];
    PairPlaces([], [id], id);
    assert ScoredAt(p, RRF_K, map[], fused[0]);
    forall x | Occurs(p, x)
      ensures exists i :: 0 <= i < |fused| && fused[i].id == x
    {
      PairPlaces([], [id], x);
      assert fused[0].id == x;
    }
    assert Scored(p, RRF_K, map[], fused);
  }
}

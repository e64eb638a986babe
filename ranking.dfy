/**
 * `_rank_places`: the rating and distance filters, the scoring loop, the
 * sort, the diversity pass and the re-sort, the reasons, and the final
 * selection: the top 6, or, when the venues come from several search
 * keywords, at most `max(2, 8 // groups)` per keyword, re-sorted, top 8.
 */
module Ranking {
  import opened Common
  import opened Geometry
  import opened Venues
  import opened Requirements
  import opened Scoring
  import opened Sorting
  import opened Ranked
  import opened Diversity
  import opened Reasons

  // ----- filters -----

  /** The venues of `places` that satisfy `keep`, in order. */
  function KeepIf(places: seq<Venue>, keep: Venue -> bool): (r: seq<Venue>)
    ensures |r| <= |places|
    ensures forall v :: v in r <==> v in places && keep(v)
    decreases |places|
  {
    if places == [] then []
    else
      var front := places[..|places| - 1];
      assert places == front + [places[|places| - 1]];
      KeepIf(front, keep) + (if keep(places[|places| - 1]) then [places[|places| - 1]] else [])
  }

  /** The top-level `rating` field must reach `minRating`, when that is positive. */
  function ByRating(places: seq<Venue>, minRating: real): seq<Venue> {
    if minRating > 0.0 then KeepIf(places, (v: Venue) => v.topRating >= minRating) else places
  }

  /** The filter's reading of a venue's position: `location` when it has a comma, else the `lng`/`lat` fields. */
  function FilterCoord(v: Venue): Option<Coord> {
    if ViewLocation(v).NoLocation? then v.fallbackCoord else v.parsedLocation
  }

  const NO_DISTANCE_LIMIT: int := 100000

  /** A venue whose position does not parse is dropped. */
  predicate WithinLimit(v: Venue, center: Coord, maxDistance: int, dist: (Coord, Coord) -> real) {
    FilterCoord(v).Some? && dist(center, FilterCoord(v).value) <= maxDistance as real
  }

  function ByDistance(places: seq<Venue>, center: Coord, maxDistance: int, dist: (Coord, Coord) -> real): seq<Venue> {
    if maxDistance < NO_DISTANCE_LIMIT then KeepIf(places, (v: Venue) => WithinLimit(v, center, maxDistance, dist)) else places
  }

  /** The distance filter loop. */
  method FilterByDistance(places: seq<Venue>, center: Coord, maxDistance: int, dist: (Coord, Coord) -> real)
    returns (kept: seq<Venue>)
    requires maxDistance < NO_DISTANCE_LIMIT
    ensures kept == ByDistance(places, center, maxDistance, dist)
  {
    kept := [];
    for i := 0 to |places|
      invariant kept == KeepIf(places[..i], (v: Venue) => WithinLimit(v, center, maxDistance, dist))
    {
      assert places[..i + 1][..i] == places[..i];
      var coord := FilterCoord(places[i]);
      if coord.Some? && dist(center, coord.value) <= maxDistance as real {
        kept := kept + [places[i]];
      }
    }
    assert places[..|places|] == places;
  }

  // ----- per-keyword balancing -----

  /** `place.get('_source_keyword', '未知')` */
  function GroupKey(p: Ranked): string {
    if p.venue.sourceKeyword.Some? then p.venue.sourceKeyword.value else "未知"
  }

  /** The place carries a non-empty `_source_keyword`. */
  predicate Tagged(p: Ranked) {
    p.venue.sourceKeyword.Some? && p.venue.sourceKeyword.value != []
  }

  predicate AnyTagged(ps: seq<Ranked>) {
    exists i :: 0 <= i < |ps| && Tagged(ps[i])
  }

  /** The group keys, in order of first appearance (the iteration order of `by_keyword`). */
  function GroupKeys(ps: seq<Ranked>): (keys: seq<string>)
    ensures forall k :: k in keys <==> exists i :: 0 <= i < |ps| && GroupKey(ps[i]) == k
    ensures forall i, j :: 0 <= i < j < |keys| ==> keys[i] != keys[j]
    ensures |keys| <= |ps|
    decreases |ps|
  {
    if ps == [] then []
    else
      var front := GroupKeys(ps[..|ps| - 1]);
      var k := GroupKey(ps[|ps| - 1]);
      assert forall i :: 0 <= i < |ps| - 1 ==> ps[..|ps| - 1][i] == ps[i];
      if k in front then front else front + [k]
  }

  /** Some place of key `x` comes before every place of key `y`. */
  predicate AppearsBefore(ps: seq<Ranked>, x: string, y: string) {
    exists p :: 0 <= p < |ps| && GroupKey(ps[p]) == x && forall q :: 0 <= q <= p ==> GroupKey(ps[q]) != y
  }

  lemma AppearsBeforeAt(ps: seq<Ranked>, x: string, y: string, p: int)
    requires 0 <= p < |ps| && GroupKey(ps[p]) == x
    requires forall q :: 0 <= q <= p ==> GroupKey(ps[q]) != y
    ensures AppearsBefore(ps, x, y)
  {
  }

  /** The keys are in order of first appearance. */
  lemma {:induction false} GroupKeysFirstAppearance(ps: seq<Ranked>)
    ensures forall a, b :: 0 <= a < b < |GroupKeys(ps)| ==> AppearsBefore(ps, GroupKeys(ps)[a], GroupKeys(ps)[b])
    decreases |ps|
  {
    if ps != [] {
      var front := ps[..|ps| - 1];
      var keys := GroupKeys(ps);
      var fk := GroupKeys(front);
      GroupKeysFirstAppearance(front);
      assert forall i :: 0 <= i < |front| ==> front[i] == ps[i];
      assert keys == fk || keys == fk + [GroupKey(ps[|ps| - 1])];
      forall a, b | 0 <= a < b < |keys|
        ensures AppearsBefore(ps, keys[a], keys[b])
      {
        if b < |fk| {
          assert keys[a] == fk[a] && keys[b] == fk[b];
          assert AppearsBefore(front, fk[a], fk[b]);
          var p :| 0 <= p < |front| && GroupKey(front[p]) == fk[a]
            && forall q :: 0 <= q <= p ==> GroupKey(front[q]) != fk[b];
          AppearsBeforeAt(ps, keys[a], keys[b], p);
        } else {
          assert keys[a] == fk[a] && fk[a] in fk;
          var p :| 0 <= p < |front| && GroupKey(front[p]) == fk[a];
          assert keys[b] !in fk;
          forall q | 0 <= q <= p
            ensures GroupKey(ps[q]) != keys[b]
          {
            assert GroupKey(front[q]) in fk;
          }
          AppearsBeforeAt(ps, keys[a], keys[b], p);
        }
      }
    }
  }

  /** `by_keyword[k]`: the places of group `k`, in order. */
  function OfGroup(ps: seq<Ranked>, k: string): (r: seq<Ranked>)
    ensures |r| <= |ps|
    ensures forall x :: x in r ==> x in ps && GroupKey(x) == k
    decreases |ps|
  {
    if ps == [] then []
    else OfGroup(ps[..|ps| - 1], k) + (if GroupKey(ps[|ps| - 1]) == k then [ps[|ps| - 1]] else [])
  }

  lemma {:induction false} OfGroupAbsent(ps: seq<Ranked>, k: string)
    requires forall i :: 0 <= i < |ps| ==> GroupKey(ps[i]) != k
    ensures OfGroup(ps, k) == []
    decreases |ps|
  {
    if ps != [] {
      OfGroupAbsent(ps[..|ps| - 1], k);
    }
  }

  /** `max(2, 8 // len(by_keyword))` */
  function MaxPerKeyword(groups: nat): (m: nat)
    requires groups > 0
    ensures m >= 2 && (groups <= 4 ==> m * groups <= 8)
  {
    Max(2, 8 / groups)
  }

  /** `balanced_places` after the loop over `keys`: the first `m` places of each group, group after group. */
  function Picks(ps: seq<Ranked>, keys: seq<string>, m: nat): (r: seq<Ranked>)
    decreases |keys|
  {
    if keys == [] then [] else Picks(ps, keys[..|keys| - 1], m) + Take(OfGroup(ps, keys[|keys| - 1]), m)
  }

  function Balanced(ps: seq<Ranked>): seq<Ranked>
    requires ps != []
  {
    Picks(ps, GroupKeys(ps), MaxPerKeyword(|GroupKeys(ps)|))
  }

  lemma {:induction false} OfGroupAppend(a: seq<Ranked>, b: seq<Ranked>, k: string)
    ensures OfGroup(a + b, k) == OfGroup(a, k) + OfGroup(b, k)
    decreases |b|
  {
    if b != [] {
      var b', last := b[..|b| - 1], b[|b| - 1];
      var tail := if GroupKey(last) == k then [last] else [];
      assert (a + b)[..|a + b| - 1] == a + b';
      assert (a + b)[|a + b| - 1] == last;
      assert OfGroup(a + b, k) == OfGroup(a + b', k) + tail;
      assert OfGroup(b, k) == OfGroup(b', k) + tail;
      OfGroupAppend(a, b', k);
      assert OfGroup(a, k) + OfGroup(b', k) + tail == OfGroup(a, k) + (OfGroup(b', k) + tail);
    } else {
      assert a + b == a;
    }
  }

  lemma {:induction false} OfGroupUniform(s: seq<Ranked>, k: string, k': string)
    requires forall x :: x in s ==> GroupKey(x) == k'
    ensures OfGroup(s, k) == if k == k' then s else []
    decreases |s|
  {
    if s != [] {
      var front, last := s[..|s| - 1], s[|s| - 1];
      assert s == front + [last];
      forall x | x in front
        ensures GroupKey(x) == k'
      {
        assert x in s;
      }
      OfGroupUniform(front, k, k');
      assert GroupKey(last) == k' by {
        assert last in s;
      }
      if k == k' {
        assert OfGroup(s, k) == front + [last];
      } else {
        assert OfGroup(s, k) == OfGroup(front, k) + [];
      }
    }
  }

  /**
   * The balanced list holds, for each group key, exactly the first `m` places
   * of that group (in ranked order), and nothing of a key not listed.
   */
  lemma {:induction false} PicksOfGroup(ps: seq<Ranked>, keys: seq<string>, m: nat, k: string)
    requires forall i, j :: 0 <= i < j < |keys| ==> keys[i] != keys[j]
    ensures OfGroup(Picks(ps, keys, m), k) == if k in keys then Take(OfGroup(ps, k), m) else []
    decreases |keys|
  {
    if keys != [] {
      var front, last := keys[..|keys| - 1], keys[|keys| - 1];
      PicksOfGroup(ps, front, m, k);
      OfGroupAppend(Picks(ps, front, m), Take(OfGroup(ps, last), m), k);
      OfGroupUniform(Take(OfGroup(ps, last), m), k, last);
      assert k in keys <==> k in front || k == last;
      assert last !in front;
    }
  }

  /** Every place of the balanced list is a ranked place. */
  lemma {:induction false} PicksFromRanked(ps: seq<Ranked>, keys: seq<string>, m: nat)
    ensures forall x :: x in Picks(ps, keys, m) ==> x in ps
    decreases |keys|
  {
    if keys != [] {
      PicksFromRanked(ps, keys[..|keys| - 1], m);
    }
  }

  /** The final selection from the ranked, reasoned list. */
  function Selection(ranked: seq<Ranked>): seq<Ranked> {
    if ranked != [] && AnyTagged(ranked) then Take(SortDesc(Balanced(ranked), Score), 8)
    else Take(ranked, 6)
  }

  /** At most 8 places, and without keyword tags the top 6 of the ranked list. */
  lemma SelectionSize(ranked: seq<Ranked>)
    ensures |Selection(ranked)| <= 8
    ensures !AnyTagged(ranked) ==> Selection(ranked) == Take(ranked, 6)
  {
  }

  /** The selection is ordered by score when the ranked list is. */
  lemma SelectionSorted(ranked: seq<Ranked>)
    requires SortedDesc(ranked, Score)
    ensures SortedDesc(Selection(ranked), Score)
  {
    if ranked != [] && AnyTagged(ranked) {
      SortDescSorted(Balanced(ranked), Score);
    }
  }

  /** Every selected place comes from the ranked list. */
  lemma SelectionFromRanked(ranked: seq<Ranked>, x: Ranked)
    requires x in Selection(ranked)
    ensures x in ranked
  {
    if ranked != [] && AnyTagged(ranked) {
      var b := Balanced(ranked);
      SortDescMember(b, Score, x);
      PicksFromRanked(ranked, GroupKeys(ranked), MaxPerKeyword(|GroupKeys(ranked)|));
    }
  }

  /** With keyword tags, each keyword keeps its first `max(2, 8 // groups)` places before the final cut. */
  lemma BalancedPerKeyword(ranked: seq<Ranked>, k: string)
    requires ranked != []
    ensures var m := MaxPerKeyword(|GroupKeys(ranked)|);
      OfGroup(Balanced(ranked), k) == Take(OfGroup(ranked, k), m) && |OfGroup(Balanced(ranked), k)| <= m
  {
    var keys := GroupKeys(ranked);
    PicksOfGroup(ranked, keys, MaxPerKeyword(|keys|), k);
    if k !in keys {
      OfGroupAbsent(ranked, k);
    }
  }

  // ----- the whole ranking -----

  /** The scoring loop's result for every kept venue. */
  function ScoreAll(kept: seq<Venue>, center: Coord, keywords: string, text: string, n: Numerics): (r: seq<Ranked>)
    ensures |r| == |kept|
  {
    seq(|kept|, i requires 0 <= i < |kept| => ScorePlace(kept[i], center, keywords, text, n))
  }

  function WithReasons(ranked: seq<Ranked>, showReal: real -> string): (r: seq<Ranked>)
    ensures |r| == |ranked|
  {
    seq(|ranked|, i requires 0 <= i < |ranked| => ranked[i].(reason := ReasonText(ranked[i], showReal)))
  }

  /** The venues that pass both filters. */
  function Kept(places: seq<Venue>, center: Coord, minRating: real, maxDistance: int, n: Numerics): seq<Venue> {
    ByDistance(ByRating(places, minRating), center, maxDistance, n.dist)
  }

  /** The scored venues, sorted, adjusted for diversity, re-sorted and given their reasons. */
  function Reasoned(kept: seq<Venue>, center: Coord, keywords: string, text: string, n: Numerics): seq<Ranked> {
    WithReasons(SortDesc(Diversified(SortDesc(ScoreAll(kept, center, keywords, text, n), Score), BrandKey), Score), n.showReal)
  }

  function Rank(places: seq<Venue>, center: Coord, keywords: string, text: string,
                minRating: real, maxDistance: int, n: Numerics): seq<Ranked> {
    var kept := Kept(places, center, minRating, maxDistance, n);
    if kept == [] then [] else Selection(Reasoned(kept, center, keywords, text, n))
  }

  /** Adding reasons changes no score, so the order by score is kept. */
  lemma WithReasonsSorted(ranked: seq<Ranked>, showReal: real -> string)
    requires SortedDesc(ranked, Score)
    ensures SortedDesc(WithReasons(ranked, showReal), Score)
  {
  }

  lemma ScoreAllVenues(kept: seq<Venue>, center: Coord, keywords: string, text: string, n: Numerics)
    ensures VenuesOf(ScoreAll(kept, center, keywords, text, n)) == kept
  {
  }

  lemma WithReasonsVenues(ranked: seq<Ranked>, showReal: real -> string)
    ensures VenuesOf(WithReasons(ranked, showReal)) == VenuesOf(ranked)
  {
  }

  /** Scoring, sorting, the diversity pass and the reasons keep exactly the kept venues, each once. */
  lemma ReasonedVenues(kept: seq<Venue>, center: Coord, keywords: string, text: string, n: Numerics)
    ensures multiset(VenuesOf(Reasoned(kept, center, keywords, text, n))) == multiset(kept)
    ensures SortedDesc(Reasoned(kept, center, keywords, text, n), Score)
  {
    var scored := ScoreAll(kept, center, keywords, text, n);
    var adjusted := Diversified(SortDesc(scored, Score), BrandKey);
    ScoreAllVenues(kept, center, keywords, text, n);
    SortDescImage(scored, Score, VenueOf);
    DiversifiedVenues(SortDesc(scored, Score), BrandKey);
    SortDescImage(adjusted, Score, VenueOf);
    WithReasonsVenues(SortDesc(adjusted, Score), n.showReal);
    SortDescSorted(adjusted, Score);
    WithReasonsSorted(SortDesc(adjusted, Score), n.showReal);
  }

  /**
   * The ranking returns nothing when the filters leave nothing; otherwise at
   * most 8 places, in order of score, each a venue that passed both filters.
   */
  lemma RankProperties(places: seq<Venue>, center: Coord, keywords: string, text: string,
                       minRating: real, maxDistance: int, n: Numerics)
    ensures Kept(places, center, minRating, maxDistance, n) == [] ==> Rank(places, center, keywords, text, minRating, maxDistance, n) == []
    ensures |Rank(places, center, keywords, text, minRating, maxDistance, n)| <= 8
    ensures SortedDesc(Rank(places, center, keywords, text, minRating, maxDistance, n), Score)
    ensures forall x :: x in Rank(places, center, keywords, text, minRating, maxDistance, n) ==>
      x.venue in Kept(places, center, minRating, maxDistance, n)
  {
    var kept := Kept(places, center, minRating, maxDistance, n);
    if kept != [] {
      var ranked := Reasoned(kept, center, keywords, text, n);
      assert Rank(places, center, keywords, text, minRating, maxDistance, n) == Selection(ranked);
      ReasonedVenues(kept, center, keywords, text, n);
      SelectionSize(ranked);
      SelectionSorted(ranked);
      forall x | x in Selection(ranked)
        ensures x.venue in kept
      {
        SelectedVenue(ranked, kept, x);
      }
    }
  }

  /** A selected place carries one of the venues the ranked list was built from. */
  lemma SelectedVenue(ranked: seq<Ranked>, kept: seq<Venue>, x: Ranked)
    requires multiset(VenuesOf(ranked)) == multiset(kept)
    requires x in Selection(ranked)
    ensures x.venue in kept
  {
    SelectionFromRanked(ranked, x);
    var i :| 0 <= i < |ranked| && ranked[i] == x;
    assert VenuesOf(ranked)[i] == x.venue;
    assert x.venue in multiset(VenuesOf(ranked));
  }

  /** A kept venue is an input venue, rated at least `minRating` when that is positive. */
  lemma KeptVenues(places: seq<Venue>, center: Coord, minRating: real, maxDistance: int, n: Numerics, v: Venue)
    requires v in Kept(places, center, minRating, maxDistance, n)
    ensures v in places && (minRating > 0.0 ==> v.topRating >= minRating)
    ensures maxDistance < NO_DISTANCE_LIMIT ==> WithinLimit(v, center, maxDistance, n.dist)
  {
  }

  // ----- the loops of `_rank_places` -----

  /** The scoring loop: the five components and their sum for each kept venue. */
  method ScoreVenues(kept: seq<Venue>, center: Coord, keywords: string, text: string, n: Numerics)
    returns (scored: seq<Ranked>)
    ensures scored == ScoreAll(kept, center, keywords, text, n)
  {
    scored := [];
    for i := 0 to |kept|
      invariant |scored| == i
      invariant forall j :: 0 <= j < i ==> scored[j] == ScorePlace(kept[j], center, keywords, text, n)
    {
      var v := kept[i];
      var base := BaseScore(v);
      var popularity := PopularityScore(v, n.log10);
      var distance := DistanceScore(v, center, n.dist, n.pow);
      var scenario := ScenarioScore(v, keywords);
      var points, matched, confidence := RequirementScore(v, text);
      ConfidenceMapAgrees(v, Recognized(text), confidence);
      var total := base.score + popularity.score + distance.score + scenario.score as real + points as real;
      var p := Ranked(v, total, base, popularity, distance, scenario, points, matched, confidence, None, []);
      assert p == ScorePlace(v, center, keywords, text, n);
      ghost var before := scored;
      scored := scored + [p];
      forall j | 0 <= j < i + 1
        ensures scored[j] == ScorePlace(kept[j], center, keywords, text, n)
      {
        if j < i {
          assert scored[j] == before[j];
        }
      }
    }
  }

  /** The reason loop: every place gets its `_recommendation_reason`. */
  method AssignReasons(ranked: seq<Ranked>, showReal: real -> string) returns (r: seq<Ranked>)
    ensures r == WithReasons(ranked, showReal)
  {
    r := ranked;
    for i := 0 to |r|
      invariant |r| == |ranked|
      invariant forall j :: 0 <= j < i ==> r[j] == ranked[j].(reason := ReasonText(ranked[j], showReal))
      invariant forall j :: i <= j < |r| ==> r[j] == ranked[j]
    {
      r := r[i := r[i].(reason := ReasonText(r[i], showReal))];
    }
  }

  /** The grouping loop: `by_keyword`, whose keys keep their insertion order. */
  method GroupByKeyword(ranked: seq<Ranked>) returns (keys: seq<string>, groups: map<string, seq<Ranked>>)
    ensures keys == GroupKeys(ranked)
    ensures forall k :: k in groups <==> k in keys
    ensures forall k :: k in groups ==> groups[k] == OfGroup(ranked, k)
  {
    keys, groups := [], map[];
    for i := 0 to |ranked|
      invariant keys == GroupKeys(ranked[..i])
      invariant forall k :: k in groups <==> k in keys
      invariant forall k :: k in groups ==> groups[k] == OfGroup(ranked[..i], k)
    {
      var k := GroupKey(ranked[i]);
      assert ranked[..i + 1][..i] == ranked[..i] && ranked[..i + 1][i] == ranked[i];
      if k !in groups {
        OfGroupAbsent(ranked[..i], k);
        keys := keys + [k];
        groups := groups[k := []];
      }
      groups := groups[k := groups[k] + [ranked[i]]];
    }
    assert ranked[..|ranked|] == ranked;
  }

  /** The selection loop: the first `m` places of each group, group after group. */
  method PickGroups(ranked: seq<Ranked>, keys: seq<string>, groups: map<string, seq<Ranked>>, m: nat)
    returns (balanced: seq<Ranked>)
    requires forall k :: k in keys ==> k in groups && groups[k] == OfGroup(ranked, k)
    ensures balanced == Picks(ranked, keys, m)
  {
    balanced := [];
    for j := 0 to |keys|
      invariant balanced == Picks(ranked, keys[..j], m)
    {
      assert keys[..j + 1][..j] == keys[..j] && keys[..j + 1][j] == keys[j];
      balanced := balanced + Take(groups[keys[j]], m);
    }
    assert keys[..|keys|] == keys;
  }

  /** Scoring, sorting, the diversity pass on the list in place, re-sorting and the reasons. */
  method OrderPlaces(kept: seq<Venue>, center: Coord, keywords: string, text: string, n: Numerics)
    returns (ranked: seq<Ranked>)
    ensures ranked == Reasoned(kept, center, keywords, text, n)
  {
    var scored := ScoreVenues(kept, center, keywords, text, n);
    var sorted := SortDesc(scored, Score);
    var a := new Ranked[|sorted|](i requires 0 <= i < |sorted| => sorted[i]);
    assert a[..] == sorted;
    ApplyDiversity(a, BrandKey);
    ranked := AssignReasons(SortDesc(a[..], Score), n.showReal);
  }

  /** `_rank_places` without its logging and the unused price table. */
  method RankPlaces(places: seq<Venue>, center: Coord, keywords: string, text: string,
                    minRating: real, maxDistance: int, n: Numerics)
    returns (result: seq<Ranked>)
    ensures result == Rank(places, center, keywords, text, minRating, maxDistance, n)
  {
    var kept := ByRating(places, minRating);
    if maxDistance < NO_DISTANCE_LIMIT {
      kept := FilterByDistance(kept, center, maxDistance, n.dist);
    }
    if kept == [] {
      return [];
    }
    var ranked := OrderPlaces(kept, center, keywords, text, n);
    if AnyTagged(ranked) {
      var keys, groups := GroupByKeyword(ranked);
      assert GroupKey(ranked[0]) in keys;
      var balanced := PickGroups(ranked, keys, groups, MaxPerKeyword(|keys|));
      result := Take(SortDesc(balanced, Score), 8);
    } else {
      result := Take(ranked, 6);
    }
  }
}

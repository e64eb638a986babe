/**
 * The four numeric components of the V2 venue score that do not depend on the
 * requirement table: base (rating, at most 30), popularity (reviews and photos,
 * at most 20), distance (non-linear decay, at most 25) and scenario (at most 15).
 *
 * `log10`, `x ** 1.5` and the square root of the planar distance are not
 * computed: they are passed in, and the lemmas state what they assume of them.
 */
module Scoring {
  import opened Common
  import opened Geometry
  import opened Venues

  /** The base component with the rating it was computed from and the `_has_rating` flag. */
  datatype Base = Base(score: real, rating: real, hasRating: bool)

  function BaseScore(v: Venue): (b: Base)
    ensures b.hasRating <==> v.bizRating.Some? && v.bizRating.value != 0.0
    ensures b.hasRating ==> b.rating == v.bizRating.value
    ensures !b.hasRating ==> b.rating == 3.5 && b.score == 21.0
    ensures b.score <= 30.0
    ensures b.score == (if b.rating <= 5.0 then b.rating * 6.0 else 30.0)
  {
    var parsed := if v.bizRating.Some? then v.bizRating.value else 0.0;
    if parsed == 0.0 then Base(MinR(3.5, 5.0) * 6.0, 3.5, false)
    else Base(MinR(parsed, 5.0) * 6.0, parsed, true)
  }

  /** A higher rating never lowers the base component, and a rated venue scores within [0, 30]. */
  lemma BaseScoreMonotone(v: Venue, w: Venue)
    requires v.bizRating.Some? && w.bizRating.Some?
    requires 0.0 < v.bizRating.value <= w.bizRating.value
    ensures 0.0 < BaseScore(v).score <= BaseScore(w).score <= 30.0
  {
  }

  /** The popularity component with the review and photo counts it was computed from. */
  datatype Popularity = Popularity(score: real, reviewCount: int, photoCount: nat)

  /** `min(photos * 2, 6)`: each of the first three photos is worth two points. */
  function PhotoPoints(photoCount: nat): (p: nat)
    ensures p <= 6 && p <= 2 * photoCount
    ensures p == 6 || p == 2 * photoCount
  {
    Min(photoCount * 2, 6)
  }

  function PopularityScore(v: Venue, log10: int -> real): (p: Popularity)
    ensures p.score <= 20.0
    ensures p.reviewCount == (if v.bizReviewCount.Some? then v.bizReviewCount.value else 0)
    ensures p.photoCount == v.photoCount
    ensures p.reviewCount <= 0 ==> p.score == PhotoPoints(v.photoCount) as real
  {
    var reviews := if v.bizReviewCount.Some? then v.bizReviewCount.value else 0;
    var reviewPoints := if reviews > 0 then log10(reviews + 1) * 5.0 else 0.0;
    Popularity(MinR(20.0, reviewPoints + PhotoPoints(v.photoCount) as real), reviews, v.photoCount)
  }

  /** `log10(n) >= 0` for every argument the popularity formula passes it. */
  ghost predicate LogNonNegative(log10: int -> real) {
    forall n :: n >= 2 ==> log10(n) >= 0.0
  }

  /** With a non-negative logarithm the popularity component lies in [0, 20]. */
  lemma PopularityBounds(v: Venue, log10: int -> real)
    requires LogNonNegative(log10)
    ensures 0.0 <= PopularityScore(v, log10).score <= 20.0
  {
    var reviews := PopularityScore(v, log10).reviewCount;
    if reviews > 0 {
      assert log10(reviews + 1) >= 0.0;
    }
  }

  /** What `ratio ** 1.5` is assumed to satisfy on [0, 1]: it starts at 0, ends at 1 and never decreases. */
  ghost predicate IsDecayCurve(pow: real -> real) {
    && pow(0.0) == 0.0
    && pow(1.0) == 1.0
    && (forall x :: 0.0 <= x <= 1.0 ==> 0.0 <= pow(x) <= 1.0)
    && (forall x, y :: 0.0 <= x <= y <= 1.0 ==> pow(x) <= pow(y))
  }

  const FULL_DISTANCE_POINTS: real := 25.0
  const FAR_DISTANCE_POINTS: real := 5.0
  const NEAR_METERS: real := 500.0
  const FAR_METERS: real := 2500.0

  /** The distance component for a venue `d` metres from the centre. */
  function DistancePoints(d: real, pow: real -> real): real {
    if d <= NEAR_METERS then FULL_DISTANCE_POINTS
    else if d <= FAR_METERS then
      var ratio := (d - NEAR_METERS) / 2000.0;
      25.0 * (1.0 - pow(ratio) * 0.8)
    else FAR_DISTANCE_POINTS
  }

  /** The distance component stays within [5, 25]: full marks within 500 m, the floor beyond 2500 m. */
  lemma DistancePointsBounds(d: real, pow: real -> real)
    requires IsDecayCurve(pow)
    ensures FAR_DISTANCE_POINTS <= DistancePoints(d, pow) <= FULL_DISTANCE_POINTS
    ensures d <= NEAR_METERS ==> DistancePoints(d, pow) == FULL_DISTANCE_POINTS
    ensures d > FAR_METERS ==> DistancePoints(d, pow) == FAR_DISTANCE_POINTS
    ensures d == FAR_METERS ==> DistancePoints(d, pow) == FAR_DISTANCE_POINTS
  {
    if NEAR_METERS < d <= FAR_METERS {
      var ratio := (d - NEAR_METERS) / 2000.0;
      assert 0.0 <= ratio <= 1.0;
      assert 0.0 <= pow(ratio) <= 1.0;
      if d == FAR_METERS {
        assert ratio == 1.0;
      }
    }
  }

  /** A venue further away never gets more distance points than a nearer one. */
  lemma DistancePointsMonotone(d1: real, d2: real, pow: real -> real)
    requires IsDecayCurve(pow) && d1 <= d2
    ensures DistancePoints(d2, pow) <= DistancePoints(d1, pow)
  {
    DistancePointsBounds(d1, pow);
    DistancePointsBounds(d2, pow);
    if NEAR_METERS < d1 && d2 <= FAR_METERS {
      var r1, r2 := (d1 - NEAR_METERS) / 2000.0, (d2 - NEAR_METERS) / 2000.0;
      assert 0.0 <= r1 <= r2 <= 1.0;
      assert pow(r1) <= pow(r2);
    }
  }

  /** The distance component and the distance it was computed from; `None` stands for `float('inf')`. */
  datatype DistanceResult = DistanceResult(score: real, distance: Option<real>)

  /** `_calculate_distance_score_v2`: `dist` is the planar distance from the centre. */
  function DistanceScore(v: Venue, center: Coord, dist: (Coord, Coord) -> real, pow: real -> real): (r: DistanceResult)
    ensures !ViewLocation(v).At? <==> r == DistanceResult(0.0, None)
    ensures ViewLocation(v).At? ==> r.distance == Some(dist(center, ViewLocation(v).coord))
    ensures r.distance.Some? ==> r.score == DistancePoints(r.distance.value, pow)
  {
    match ViewLocation(v)
    case At(place) =>
      var d := dist(center, place);
      DistanceResult(DistancePoints(d, pow), Some(d))
    case _ => DistanceResult(0.0, None)
  }

  /** A venue whose location reads as a coordinate scores within [5, 25]; one that does not scores 0. */
  lemma DistanceScoreBounds(v: Venue, center: Coord, dist: (Coord, Coord) -> real, pow: real -> real)
    requires IsDecayCurve(pow)
    ensures var r := DistanceScore(v, center, dist, pow);
      if ViewLocation(v).At? then FAR_DISTANCE_POINTS <= r.score <= FULL_DISTANCE_POINTS else r.score == 0.0
  {
    var r := DistanceScore(v, center, dist, pow);
    if r.distance.Some? {
      DistancePointsBounds(r.distance.value, pow);
    }
  }

  /** The scenario component and the keyword it credits. */
  datatype Scenario = Scenario(score: int, keyword: string)

  /** The first of `words` that occurs in `placeType`. */
  function FirstWordIn(words: seq<string>, placeType: string): (r: Option<nat>)
    ensures r.Some? ==> r.value < |words| && Contains(placeType, words[r.value])
    ensures r.Some? ==> forall k :: 0 <= k < r.value ==> !Contains(placeType, words[k])
    ensures r.None? ==> forall k :: 0 <= k < |words| ==> !Contains(placeType, words[k])
  {
    if words == [] then None
    else if Contains(placeType, words[0]) then Some(0)
    else
      var rest := FirstWordIn(words[1..], placeType);
      if rest.Some? then Some(rest.value + 1) else None
  }

  /** The search keywords as the scenario rule splits them: `、` counts as a space. */
  function KeywordList(keywords: string): seq<string> {
    Words(ReplaceChar(keywords, '、', ' '))
  }

  /** `_calculate_scenario_match_score`. */
  function ScenarioScore(v: Venue, keywords: string): (s: Scenario)
    ensures s.score == 15 || s.score == 8 || s.score == 0
    ensures s.score == 15 <==> v.sourceKeyword.Some? && v.sourceKeyword.value != [] && Contains(keywords, v.sourceKeyword.value)
    ensures s.score == 15 ==> s.keyword == v.sourceKeyword.value
    ensures s.score == 8 ==> s.keyword in KeywordList(keywords) && Contains(v.placeType, s.keyword)
    ensures s.score == 8 ==>
      var first := FirstWordIn(KeywordList(keywords), v.placeType);
      first.Some? && s.keyword == KeywordList(keywords)[first.value]
    ensures s.score == 0 ==> s.keyword == [] && forall w :: w in KeywordList(keywords) ==> !Contains(v.placeType, w)
  {
    if v.sourceKeyword.Some? && v.sourceKeyword.value != [] && Contains(keywords, v.sourceKeyword.value) then
      Scenario(15, v.sourceKeyword.value)
    else
      var words := KeywordList(keywords);
      match FirstWordIn(words, v.placeType)
      case Some(k) => Scenario(8, words[k])
      case None => Scenario(0, [])
  }
}

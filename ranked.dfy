/**
 * A venue as `_rank_places` annotates it: the five score components, the
 * total `_score`, the matched requirements with their confidence, the
 * diversity penalty and the recommendation reason.
 */
module Ranked {
  import opened Common
  import opened Geometry
  import opened Venues
  import opened Profiles
  import opened Requirements
  import opened Scoring
  import opened Sorting

  /** The numeric functions the ranking uses but does not compute. */
  datatype Numerics = Numerics(
    /** `_calculate_distance`: the square root of the planar squared distance. */
    dist: (Coord, Coord) -> real,
    /** `x ** 1.5` */
    pow: real -> real,
    /** `math.log10` of an integer argument */
    log10: int -> real,
    /** Python's `str()` of a float, as an f-string prints it */
    showReal: real -> string)

  /** What the numeric functions are assumed to satisfy. */
  ghost predicate Sound(n: Numerics) {
    IsPlanarDistance(n.dist) && IsDecayCurve(n.pow) && LogNonNegative(n.log10)
  }

  datatype Ranked = Ranked(
    venue: Venue,
    /** `_score` */
    score: real,
    base: Base,
    popularity: Popularity,
    /** the distance component and `_distance` (set only for a parsable location) */
    distance: DistanceResult,
    /** the scenario component and `_matched_scenario` */
    scenario: Scenario,
    requirementPoints: int,
    /** `_matched_requirements` */
    matched: seq<Req>,
    /** `_requirement_confidence` */
    confidence: map<Req, Confidence>,
    /** `_diversity_penalty`, absent until the diversity pass sets it */
    diversityPenalty: Option<int>,
    /** `_recommendation_reason`, empty until the reason pass sets it */
    reason: string)

  /** `_requirement_confidence` of a venue: the tier of each matched requirement. */
  function ConfidenceMap(v: Venue, reqs: seq<Req>): (m: map<Req, Confidence>)
    ensures forall r :: r in m ==> r in MatchedRequirements(v, reqs) && Tier(v, r) == Some(m[r])
  {
    map r | r in MatchedRequirements(v, reqs) && r in Tiers(v) :: Tiers(v)[r]
  }

  /** The annotations the scoring loop of `_rank_places` writes for one venue. */
  function ScorePlace(v: Venue, center: Coord, keywords: string, text: string, n: Numerics): (p: Ranked)
    ensures p.venue == v && p.diversityPenalty.None? && p.reason == []
    ensures p.score == p.base.score + p.popularity.score + p.distance.score
                       + p.scenario.score as real + p.requirementPoints as real
  {
    var reqs := Recognized(text);
    var base := BaseScore(v);
    var popularity := PopularityScore(v, n.log10);
    var distance := DistanceScore(v, center, n.dist, n.pow);
    var scenario := ScenarioScore(v, keywords);
    var points := RequirementPoints(v, reqs);
    Ranked(v, base.score + popularity.score + distance.score + scenario.score as real + points as real,
           base, popularity, distance, scenario, points,
           MatchedRequirements(v, reqs), ConfidenceMap(v, reqs), None, [])
  }

  /** The total never exceeds 100 = 30 + 20 + 25 + 15 + 10, and is never negative for a non-negative rating. */
  lemma ScoreBounds(v: Venue, center: Coord, keywords: string, text: string, n: Numerics)
    requires Sound(n)
    ensures ScorePlace(v, center, keywords, text, n).score <= 100.0
    ensures v.bizRating.None? || v.bizRating.value >= 0.0 ==> ScorePlace(v, center, keywords, text, n).score >= 0.0
  {
    DistanceScoreBounds(v, center, n.dist, n.pow);
    PopularityBounds(v, n.log10);
    RequirementScoreBounds(v, text);
  }

  /** `ConfidenceMap` is the map `_calculate_requirement_score` returns. */
  lemma ConfidenceMapAgrees(v: Venue, reqs: seq<Req>, confidence: map<Req, Confidence>)
    requires forall r :: r in confidence <==> r in MatchedRequirements(v, reqs)
    requires forall r :: r in confidence ==> Tier(v, r) == Some(confidence[r])
    ensures confidence == ConfidenceMap(v, reqs)
  {
    var tiers := Tiers(v);
    assert forall r :: r in tiers <==> Tier(v, r).Some?;
    assert forall r :: r in tiers ==> Tier(v, r) == Some(tiers[r]);
    RestrictedTiers(confidence, tiers, MatchedRequirements(v, reqs), r => Tier(v, r));
  }

  /**
   * A map that holds exactly the listed keys, each at the tier `tier` gives
   * it, is the table of all tiers restricted to those keys.
   */
  lemma RestrictedTiers<K, V>(conf: map<K, V>, tiers: map<K, V>, keys: seq<K>, tier: K -> Option<V>)
    requires forall k :: k in tiers <==> tier(k).Some?
    requires forall k :: k in tiers ==> tier(k) == Some(tiers[k])
    requires forall k :: k in conf <==> k in keys
    requires forall k :: k in conf ==> tier(k) == Some(conf[k])
    ensures conf == map k | k in keys && k in tiers :: tiers[k]
  {
    var m := map k | k in keys && k in tiers :: tiers[k];
    assert conf.Keys == m.Keys;
  }

  /** The sort key of `_rank_places`. */
  function Score(p: Ranked): real {
    p.score
  }

  function VenueOf(p: Ranked): Venue {
    p.venue
  }

  /** The venues of a ranked list, in order. */
  function VenuesOf(ps: seq<Ranked>): (vs: seq<Venue>)
    ensures |vs| == |ps| && forall i :: 0 <= i < |ps| ==> vs[i] == ps[i].venue
  {
    Image(ps, VenueOf)
  }
}

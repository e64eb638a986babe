/**
 * `_generate_recommendation_reason`: up to two short reasons for a venue,
 * taken in a fixed order of priority (distance, rating, popularity, matched
 * requirements, scenario), with a generic reason when none applies.
 */
module Reasons {
  import opened Common
  import opened Profiles
  import opened Requirements
  import opened Ranked

  datatype Reason =
    | Nearest(meters: int)        // within 500 m
    | Convenient(meters: int)     // within 800 m
    | Excellent(rating: real)     // rated at least 4.5
    | WellRated(rating: real)     // rated at least 4.0
    | Crowded(reviews: int)       // at least 500 reviews
    | Popular(reviews: int)       // at least 100 reviews
    | Meets(reqs: seq<Req>)       // the first two matched requirements
    | Fits(scenario: string)      // the matched scenario keyword
    | Central                     // nothing stands out, within 1500 m
    | Distinctive                 // nothing stands out

  /** `_distance` is below `limit`; a venue without one is infinitely far. */
  predicate Within(p: Ranked, limit: real) {
    p.distance.distance.Some? && p.distance.distance.value < limit
  }

  function DistanceReasons(p: Ranked): seq<Reason> {
    if Within(p, 500.0) then [Nearest(Trunc(p.distance.distance.value))]
    else if Within(p, 800.0) then [Convenient(Trunc(p.distance.distance.value))]
    else []
  }

  function RatingReasons(p: Ranked): seq<Reason> {
    if p.base.rating >= 4.5 && p.base.hasRating then [Excellent(p.base.rating)]
    else if p.base.rating >= 4.0 && p.base.hasRating then [WellRated(p.base.rating)]
    else []
  }

  function ReviewReasons(p: Ranked): seq<Reason> {
    if p.popularity.reviewCount >= 500 then [Crowded(p.popularity.reviewCount)]
    else if p.popularity.reviewCount >= 100 then [Popular(p.popularity.reviewCount)]
    else []
  }

  /** Every reason that applies, in order of priority. */
  function Strengths(p: Ranked): (r: seq<Reason>)
    ensures |r| <= 5
  {
    DistanceReasons(p) + RatingReasons(p) + ReviewReasons(p)
    + (if p.matched != [] then [Meets(Take(p.matched, 2))] else [])
    + (if p.scenario.keyword != [] then [Fits(p.scenario.keyword)] else [])
  }

  /** The reasons given: the first two that apply, else the generic one. */
  function ReasonsFor(p: Ranked): (r: seq<Reason>)
    ensures 1 <= |r| <= 2
    ensures Strengths(p) != [] ==> r == Take(Strengths(p), 2)
    ensures Strengths(p) == [] ==> r == [if Within(p, 1500.0) then Central else Distinctive]
  {
    var all := Strengths(p);
    if all == [] then [if Within(p, 1500.0) then Central else Distinctive] else Take(all, 2)
  }

  /** A venue within 500 m always leads with its distance, and a venue with no strength gets the generic reason. */
  lemma ReasonPriority(p: Ranked)
    ensures Within(p, 500.0) ==> ReasonsFor(p)[0] == Nearest(Trunc(p.distance.distance.value))
    ensures (!Within(p, 800.0) && RatingReasons(p) == [] && ReviewReasons(p) == [] && p.matched == [] &&
             p.scenario.keyword == []) ==> |ReasonsFor(p)| == 1 && (ReasonsFor(p)[0].Central? || ReasonsFor(p)[0].Distinctive?)
  {
  }

  function Labels(rs: seq<Req>): (r: seq<string>)
    ensures |r| == |rs|
  {
    seq(|rs|, i requires 0 <= i < |rs| => Label(rs[i]))
  }

  /** The text of one reason; `showReal` prints a float as an f-string does. */
  function Text(r: Reason, showReal: real -> string): string {
    match r
    case Nearest(m) => "距离最近，仅" + IntToDecimal(m) + "米"
    case Convenient(m) => "位置便利，约" + IntToDecimal(m) + "米"
    case Excellent(x) => "口碑极佳，评分" + showReal(x)
    case WellRated(x) => "评价良好，" + showReal(x) + "分"
    case Crowded(n) => "人气火爆，" + IntToDecimal(n) + "条评价"
    case Popular(n) => "热门推荐，" + IntToDecimal(n) + "人评价"
    case Meets(rs) => "满足" + Join("、", Labels(rs)) + "需求"
    case Fits(s) => "符合" + s + "场景"
    case Central => "位置适中，综合评价不错"
    case Distinctive => "特色场所，值得一试"
  }

  function Texts(rs: seq<Reason>, showReal: real -> string): (t: seq<string>)
    ensures |t| == |rs|
  {
    seq(|rs|, i requires 0 <= i < |rs| => Text(rs[i], showReal))
  }

  /** `_recommendation_reason`: the reasons joined with `；`. */
  function ReasonText(p: Ranked, showReal: real -> string): (s: string)
    ensures s != []
  {
    var parts := Texts(ReasonsFor(p), showReal);
    assert Text(ReasonsFor(p)[0], showReal) != [];
    assert |parts| == 2 ==> Join("；", parts) == parts[0] + "；" + Join("；", parts[1..]);
    Join("；", parts)
  }
}

/**
 * `assess_request_complexity`: points for the number of places, of venue
 * kinds, of special requirements and of filters decide between the agent
 * and the rule-based recommender.
 */
module Complexity {
  import opened Common

  /** The fields of a request the assessment reads; `None` where the client sent null. */
  datatype Request = Request(
    locations: seq<string>,
    keywords: Option<string>,
    userRequirements: Option<string>,
    minRating: Option<real>,
    maxDistance: Option<int>,
    priceRange: Option<string>)

  datatype Assessment = Assessment(useAgent: bool, complexityScore: int, reasons: seq<string>, modeName: string)

  /** The agent module is switched off in the deployed service. */
  const AGENT_AVAILABLE: bool := false
  const AGENT_THRESHOLD: int := 40
  const AGENT_MODE: string := "Agent智能模式"
  const RULE_MODE: string := "快速规则模式"
  const FILTER_REASON: string := "有精确筛选条件"
  const DOWNGRADE_REASON: string := "Agent模块不可用，使用增强规则模式"

  const REQUIREMENT_WORDS: seq<string> := ["商务", "安静", "停车", "Wi-Fi", "包间", "儿童", "24小时", "久坐"]

  /** A score contribution and the reasons it adds. */
  datatype Part = Part(points: int, reasons: seq<string>)

  function LocationPart(n: nat): (p: Part)
    ensures p.points == (if n >= 4 then 30 else if n == 3 then 15 else 0)
    ensures |p.reasons| == (if n >= 3 then 1 else 0)
  {
    if n >= 4 then Part(30, [NatToDecimal(n) + "个地点，需要复杂的中心点计算"])
    else if n >= 3 then Part(15, [NatToDecimal(n) + "个地点"])
    else Part(0, [])
  }

  /** `len(keywords.split()) if keywords else 0` */
  function KeywordCount(keywords: Option<string>): nat {
    if keywords.Some? && keywords.value != [] then |Words(keywords.value)| else 0
  }

  function KeywordPart(n: nat): (p: Part)
    ensures p.points == (if n >= 3 then 25 else if n == 2 then 12 else 0)
    ensures |p.reasons| == (if n >= 2 then 1 else 0)
  {
    if n >= 3 then Part(25, [NatToDecimal(n) + "种场所类型，需要智能平衡"])
    else if n >= 2 then Part(12, [NatToDecimal(n) + "种场所类型"])
    else Part(0, [])
  }

  /** `sum(1 for kw in req_keywords if kw in requirements)` */
  function MatchedRequirements(text: string, words: seq<string>): (n: nat)
    ensures n <= |words|
    ensures n == 0 <==> forall i :: 0 <= i < |words| ==> !Contains(text, words[i])
    ensures n == |words| <==> forall i :: 0 <= i < |words| ==> Contains(text, words[i])
    decreases |words|
  {
    if words == [] then 0
    else
      var init := words[..|words| - 1];
      var n := MatchedRequirements(text, init);
      assert forall i :: 0 <= i < |init| ==> init[i] == words[i];
      n + (if Contains(text, words[|words| - 1]) then 1 else 0)
  }

  /** Positions of the requirement words that occur in the text. */
  function MatchedPositions(text: string, words: seq<string>): set<int> {
    set i | 0 <= i < |words| && Contains(text, words[i])
  }

  /** The match count is the number of requirement words that occur in the text. */
  lemma {:induction false} MatchedCount(text: string, words: seq<string>)
    ensures MatchedRequirements(text, words) == |MatchedPositions(text, words)|
    decreases |words|
  {
    if words != [] {
      var last := |words| - 1;
      var init := words[..last];
      MatchedCount(text, init);
      var before, after := MatchedPositions(text, init), MatchedPositions(text, words);
      var found := if Contains(text, words[last]) then {last} else {};
      forall i
        ensures i in after <==> i in before + found
      {
        if 0 <= i < last {
          assert init[i] == words[i];
        }
      }
      if Contains(text, words[last]) {
        assert after == before + {last};
        assert last !in before;
        assert |after| == |before| + 1;
        assert MatchedRequirements(text, words) == MatchedRequirements(text, init) + 1;
      } else {
        assert after == before;
        assert MatchedRequirements(text, words) == MatchedRequirements(text, init);
      }
    }
  }

  function RequirementPart(requirements: Option<string>): (p: Part)
    ensures p.points in {0, 15, 20, 25}
    ensures |p.reasons| == (if p.points == 0 then 0 else 1)
    ensures requirements.None? || requirements.value == [] ==> p == Part(0, [])
    ensures requirements.Some? && requirements.value != [] ==>
      var m := MatchedRequirements(requirements.value, REQUIREMENT_WORDS);
      && (p.points == 25 <==> m >= 3)
      && (p.points == 15 <==> m == 2)
      && (p.points == 20 <==> m < 2 && |requirements.value| > 50)
      && (m >= 2 ==> IsPrefix(NatToDecimal(m), p.reasons[0]))
  {
    if requirements.None? || requirements.value == [] then Part(0, [])
    else
      var text := requirements.value;
      var matched := MatchedRequirements(text, REQUIREMENT_WORDS);
      if matched >= 3 then Part(25, [NatToDecimal(matched) + "个特殊需求，需要综合权衡"])
      else if matched >= 2 then Part(15, [NatToDecimal(matched) + "个特殊需求"])
      else if |text| > 50 then Part(20, ["详细的自定义需求描述"])
      else Part(0, [])
  }

  /** Python truthiness of the three filters: a zero or null value is no filter. */
  predicate RatingFilter(r: Request) { r.minRating.Some? && r.minRating.value != 0.0 && r.minRating.value > 0.0 }
  predicate DistanceFilter(r: Request) { r.maxDistance.Some? && r.maxDistance.value != 0 && r.maxDistance.value < 10000 }
  predicate PriceFilter(r: Request) { r.priceRange.Some? && r.priceRange.value != [] }

  function FilterPart(r: Request): (p: Part)
    ensures p.points == 5 * ((if RatingFilter(r) then 1 else 0) + (if DistanceFilter(r) then 1 else 0) + (if PriceFilter(r) then 1 else 0))
    ensures p.reasons == if RatingFilter(r) || DistanceFilter(r) || PriceFilter(r) then [FILTER_REASON] else []
  {
    var points := (if RatingFilter(r) then 5 else 0) + (if DistanceFilter(r) then 5 else 0) + (if PriceFilter(r) then 5 else 0);
    Part(points, if points > 0 then [FILTER_REASON] else [])
  }

  /** The raw sum of the four parts, before the cap. */
  function RawScore(r: Request): int {
    LocationPart(|r.locations|).points + KeywordPart(KeywordCount(r.keywords)).points
    + RequirementPart(r.userRequirements).points + FilterPart(r).points
  }

  /** `assess_request_complexity`, for a given availability of the agent. */
  function Assess(r: Request, agentAvailable: bool): Assessment {
    var score := RawScore(r);
    var reasons := LocationPart(|r.locations|).reasons + KeywordPart(KeywordCount(r.keywords)).reasons
                   + RequirementPart(r.userRequirements).reasons + FilterPart(r).reasons;
    var useAgent := score >= AGENT_THRESHOLD && agentAvailable;
    var downgrade := if score >= AGENT_THRESHOLD && !agentAvailable then [DOWNGRADE_REASON] else [];
    Assessment(useAgent, Min(score, 100), reasons + downgrade, if useAgent then AGENT_MODE else RULE_MODE)
  }

  /** The raw score stays within 0..95, so the cap at 100 never applies. */
  lemma ScoreRange(r: Request, agentAvailable: bool)
    ensures 0 <= RawScore(r) <= 95
    ensures Assess(r, agentAvailable).complexityScore == RawScore(r)
  {
  }

  /**
   * The agent is chosen exactly when it is available and the score reaches
   * 40; the mode name follows the choice; the downgrade note is added exactly
   * when the score reaches 40 without an agent; the filter note appears at
   * most once, and exactly when a filter is active.
   */
  lemma AssessDecision(r: Request, agentAvailable: bool)
    ensures var a := Assess(r, agentAvailable);
      && (a.useAgent <==> agentAvailable && a.complexityScore >= AGENT_THRESHOLD)
      && (a.modeName == RULE_MODE <==> !a.useAgent)
      && (DOWNGRADE_REASON in a.reasons <==> !agentAvailable && a.complexityScore >= AGENT_THRESHOLD)
      && (FILTER_REASON in a.reasons <==> RatingFilter(r) || DistanceFilter(r) || PriceFilter(r))
  {
    ScoreRange(r, agentAvailable);
    var loc := LocationPart(|r.locations|).reasons;
    var kw := KeywordPart(KeywordCount(r.keywords)).reasons;
    var req := RequirementPart(r.userRequirements).reasons;
    ReasonsAreNotNotes(r);
    var a := Assess(r, agentAvailable);
    var downgrade := if RawScore(r) >= AGENT_THRESHOLD && !agentAvailable then [DOWNGRADE_REASON] else [];
    assert a.reasons == loc + kw + req + FilterPart(r).reasons + downgrade;
    assert AGENT_MODE != RULE_MODE;
    assert DOWNGRADE_REASON != FILTER_REASON;
  }

  /** The first three parts never produce either note. */
  lemma ReasonsAreNotNotes(r: Request)
    ensures var rs := LocationPart(|r.locations|).reasons + KeywordPart(KeywordCount(r.keywords)).reasons
                      + RequirementPart(r.userRequirements).reasons;
      DOWNGRADE_REASON !in rs && FILTER_REASON !in rs
  {
    var n := |r.locations|;
    var k := KeywordCount(r.keywords);
    DecimalPrefixDiffers(n, "个地点，需要复杂的中心点计算");
    DecimalPrefixDiffers(n, "个地点");
    DecimalPrefixDiffers(k, "种场所类型，需要智能平衡");
    DecimalPrefixDiffers(k, "种场所类型");
    if r.userRequirements.Some? && r.userRequirements.value != [] {
      var m := MatchedRequirements(r.userRequirements.value, REQUIREMENT_WORDS);
      DecimalPrefixDiffers(m, "个特殊需求，需要综合权衡");
      DecimalPrefixDiffers(m, "个特殊需求");
    }
  }

  /** A reason that starts with a count is neither note, since both start with a letter. */
  lemma DecimalPrefixDiffers(n: nat, tail: string)
    ensures NatToDecimal(n) + tail != DOWNGRADE_REASON && NatToDecimal(n) + tail != FILTER_REASON
  {
    var d := NatToDecimal(n);
    DecimalHead(n);
    assert (d + tail)[0] == d[0];
  }

  lemma {:induction false} DecimalHead(n: nat)
    ensures '0' <= NatToDecimal(n)[0] <= '9'
    decreases n
  {
    if n >= 10 {
      DecimalHead(n / 10);
    }
  }

  /** In the deployed service the rule mode is always chosen. */
  lemma DeployedAlwaysRules(r: Request)
    ensures !Assess(r, AGENT_AVAILABLE).useAgent && Assess(r, AGENT_AVAILABLE).modeName == RULE_MODE
  {
  }
}

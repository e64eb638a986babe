/**
 * The three-tier requirement matcher of `_calculate_requirement_score`.
 * Free text is first normalised to canonical requirements through an alias
 * table; each recognised requirement is then matched at most once, by the
 * first tier that accepts it: a venue field rule ("high", 4 points), the first
 * brand named in the venue's name ("medium", 2 points, strength at least 0.7),
 * or the first category default named in its type or name ("low", 1 point,
 * strength at least 0.8). The sum is capped at 10.
 *
 * Strengths of the brand table are written in tenths (0.7 is 7), so that the
 * thresholds compare integers.
 */
module Requirements {
  import opened Common
  import opened Venues
  import opened Profiles

  datatype Confidence = High | Medium | Low

  /** The canonical name the source stores in `_matched_requirements`. */
  function Label(r: Req): string {
    match r
    case Parking => "停车"
    case Quiet => "安静"
    case Business => "商务"
    case Transit => "交通"
    case PrivateRoom => "包间"
    case WiFi => "WiFi"
    case LongStay => "可以久坐"
    case KidFriendly => "适合儿童"
    case Open24h => "24小时营业"
  }

  /** The requirements in the order of the alias table. */
  const AllReqs: seq<Req> := [Parking, Quiet, Business, Transit, PrivateRoom, WiFi, LongStay, KidFriendly, Open24h]

  function Aliases(r: Req): seq<string> {
    match r
    case Parking => ["停车", "车位", "停车场", "免费停车", "方便停车", "停车方便"]
    case Quiet => ["安静", "环境好", "氛围", "静", "舒适", "环境安静"]
    case Business => ["商务", "会议", "办公", "谈事", "工作"]
    case Transit => ["交通", "地铁", "公交", "方便", "交通便利"]
    case PrivateRoom => ["包间", "私密", "独立", "包厢", "有包间"]
    case WiFi => ["wifi", "无线", "网络", "上网", "免费wifi"]
    case LongStay => ["久坐", "可以久坐", "坐着办公", "长时间"]
    case KidFriendly => ["儿童", "带娃", "亲子", "小孩", "适合儿童"]
    case Open24h => ["24小时", "通宵", "夜间", "凌晨"]
  }

  /** Some needle occurs in `hay`. */
  predicate AnyIn(hay: string, needles: seq<string>) {
    exists j | 0 <= j < |needles| :: Contains(hay, needles[j])
  }

  /** Requirements of `rs` whose aliases occur in `text`, in the order of `rs`. */
  function RecognizedAmong(text: string, rs: seq<Req>): (r: seq<Req>)
    ensures forall q :: q in r <==> q in rs && AnyIn(Lower(text), Aliases(q))
    ensures |r| <= |rs|
  {
    if rs == [] then []
    else (if AnyIn(Lower(text), Aliases(rs[0])) then [rs[0]] else []) + RecognizedAmong(text, rs[1..])
  }

  /** `user_reqs`: empty for empty text, else the requirements whose aliases the text mentions. */
  function Recognized(text: string): seq<Req> {
    if text == [] then [] else RecognizedAmong(text, AllReqs)
  }

  // ---------------------------------------------------------------- Layer 1

  datatype Field = Tag | ParkingType | NaviPoiid | PlaceType | Address

  function FieldText(v: Venue, f: Field): string {
    match f
    case Tag => v.tag
    case ParkingType => v.parkingType
    case NaviPoiid => v.naviPoiid
    case PlaceType => v.placeType
    case Address => v.address
  }

  /** `poi_match_rules[r]["check_fields"]`; empty for requirements without a rule. */
  function RuleFields(r: Req): seq<Field> {
    match r
    case Parking => [Tag, ParkingType, NaviPoiid]
    case Quiet => [Tag]
    case Business => [Tag, PlaceType]
    case Transit => [Tag, Address]
    case PrivateRoom => [Tag]
    case WiFi => [Tag]
    case _ => []
  }

  /** `poi_match_rules[r]["match_values"]`. */
  function RuleValues(r: Req): seq<string> {
    match r
    case Parking => ["停车", "车位", "免费停车", "parking"]
    case Quiet => ["安静", "环境", "氛围", "舒适", "优雅"]
    case Business => ["商务", "会议", "办公", "商务区"]
    case Transit => ["地铁", "公交", "站", "枢纽"]
    case PrivateRoom => ["包间", "包厢", "私密", "独立房间"]
    case WiFi => ["wifi", "无线", "免费WiFi", "网络"]
    case _ => []
  }

  /**
   * `mv.lower()` for each match value of the rule for `r`: the values the
   * comparison actually uses (only "免费WiFi" changes).
   */
  function LoweredRuleValues(r: Req): seq<string> {
    match r
    case Parking => ["停车", "车位", "免费停车", "parking"]
    case Quiet => ["安静", "环境", "氛围", "舒适", "优雅"]
    case Business => ["商务", "会议", "办公", "商务区"]
    case Transit => ["地铁", "公交", "站", "枢纽"]
    case PrivateRoom => ["包间", "包厢", "私密", "独立房间"]
    case WiFi => ["wifi", "无线", "免费wifi", "网络"]
    case _ => []
  }

  lemma LoweredRuleValuesAgree(r: Req)
    ensures |LoweredRuleValues(r)| == |RuleValues(r)|
    ensures forall j :: 0 <= j < |RuleValues(r)| ==> LoweredRuleValues(r)[j] == Lower(RuleValues(r)[j])
  {
  }

  /** The aliases are lower case already, so `alias.lower()` is the alias itself. */
  lemma AliasesLowerCase(r: Req)
    ensures forall j :: 0 <= j < |Aliases(r)| ==> Lower(Aliases(r)[j]) == Aliases(r)[j]
  {
  }

  /** Some checked field, lower-cased, contains some lower-cased match value. */
  predicate FieldsHit(v: Venue, fields: seq<Field>, values: seq<string>) {
    exists i | 0 <= i < |fields| :: AnyIn(Lower(FieldText(v, fields[i])), values)
  }

  /** Some checked field of the venue contains some match value of the rule for `r`. */
  predicate Layer1Hit(v: Venue, r: Req) {
    FieldsHit(v, RuleFields(r), LoweredRuleValues(r))
  }

  // ------------------------------------------------------- Layers 2 and 3

  predicate BrandMatches(p: Profile, placeName: string) {
    p.Brand? && Contains(placeName, p.name)
  }

  predicate CategoryMatches(p: Profile, placeType: string, placeName: string) {
    p.CategoryDefault? && (Contains(placeType, p.name) || Contains(placeName, p.name))
  }

  /** Index of the first brand entry whose name occurs in `placeName`, searching from `i`. */
  function FirstBrandFrom(placeName: string, i: nat): (r: Option<nat>)
    requires i <= PROFILE_COUNT
    ensures r.Some? ==> i <= r.value < PROFILE_COUNT && BrandMatches(ProfileAt(r.value), placeName)
    ensures forall j :: i <= j < (if r.Some? then r.value else PROFILE_COUNT) ==> !BrandMatches(ProfileAt(j), placeName)
    decreases PROFILE_COUNT - i
  {
    if i == PROFILE_COUNT then None
    else if BrandMatches(ProfileAt(i), placeName) then Some(i)
    else FirstBrandFrom(placeName, i + 1)
  }

  /** Index of the first category default named in the venue's type or name, searching from `i`. */
  function FirstCategoryFrom(placeType: string, placeName: string, i: nat): (r: Option<nat>)
    requires i <= PROFILE_COUNT
    ensures r.Some? ==> i <= r.value < PROFILE_COUNT && CategoryMatches(ProfileAt(r.value), placeType, placeName)
    ensures forall j :: i <= j < (if r.Some? then r.value else PROFILE_COUNT) ==> !CategoryMatches(ProfileAt(j), placeType, placeName)
    decreases PROFILE_COUNT - i
  {
    if i == PROFILE_COUNT then None
    else if CategoryMatches(ProfileAt(i), placeType, placeName) then Some(i)
    else FirstCategoryFrom(placeType, placeName, i + 1)
  }

  /** The entry layer 2 uses: the first brand named in the venue's name, if any. */
  function BrandOf(placeName: string): (p: Option<Profile>)
    ensures p.Some? ==> p.value.Brand? && Contains(placeName, p.value.name)
  {
    match FirstBrandFrom(placeName, 0)
    case None => None
    case Some(i) => Some(ProfileAt(i))
  }

  /** The entry layer 3 uses: the first category default named in the venue's type or name, if any. */
  function CategoryOf(placeType: string, placeName: string): (p: Option<Profile>)
    ensures p.Some? ==> p.value.CategoryDefault? && (Contains(placeType, p.value.name) || Contains(placeName, p.value.name))
  {
    match FirstCategoryFrom(placeType, placeName, 0)
    case None => None
    case Some(i) => Some(ProfileAt(i))
  }

  /**
   * The tier that accepts a recognised requirement, given the brand entry and
   * the category default found for the venue: the first of the three layers.
   */
  function TierWith(v: Venue, r: Req, brand: Option<Profile>, category: Option<Profile>): Option<Confidence> {
    if Layer1Hit(v, r) then Some(High)
    else if brand.Some? && Strength(brand.value, r) >= MEDIUM_THRESHOLD then Some(Medium)
    else if category.Some? && Strength(category.value, r) >= LOW_THRESHOLD then Some(Low)
    else None
  }

  /** The tier that accepts a recognised requirement for this venue, if any. */
  function Tier(v: Venue, r: Req): Option<Confidence> {
    TierWith(v, r, BrandOf(v.name), CategoryOf(v.placeType, v.name))
  }

  function Weight(c: Confidence): int {
    match c
    case High => 4
    case Medium => 2
    case Low => 1
  }

  /** Every requirement, as listed in `AllReqs`. */
  lemma AllReqsComplete(r: Req)
    ensures r in AllReqs
  {
  }

  /** The tier of every requirement the venue satisfies, given its brand entry and category default. */
  function TiersWith(v: Venue, brand: Option<Profile>, category: Option<Profile>): (m: map<Req, Confidence>)
    ensures forall r :: r in m <==> TierWith(v, r, brand, category).Some?
    ensures forall r :: r in m ==> TierWith(v, r, brand, category) == Some(m[r])
  {
    var m := map r | r in AllReqs && TierWith(v, r, brand, category).Some? :: TierWith(v, r, brand, category).value;
    assert forall r :: TierWith(v, r, brand, category).Some? ==> r in m by {
      forall r | TierWith(v, r, brand, category).Some? {
        AllReqsComplete(r);
      }
    }
    m
  }

  /** The tier of every requirement the venue satisfies. */
  function Tiers(v: Venue): map<Req, Confidence> {
    TiersWith(v, BrandOf(v.name), CategoryOf(v.placeType, v.name))
  }

  /** `Tiers` holds exactly the accepted requirements, each at its tier. */
  lemma TiersAgree(v: Venue, r: Req)
    ensures r in Tiers(v) <==> Tier(v, r).Some?
    ensures r in Tiers(v) ==> Tier(v, r) == Some(Tiers(v)[r])
  {
  }

  predicate HasTier(tiers: map<Req, Confidence>, r: Req, t: Confidence) {
    r in tiers && tiers[r] == t
  }

  /** The requirements of `rs` accepted at tier `t`, in the order of `rs`. */
  function Select(tiers: map<Req, Confidence>, rs: seq<Req>, t: Confidence): (r: seq<Req>)
    ensures |r| <= |rs|
    decreases |rs|
  {
    if rs == [] then []
    else Select(tiers, rs[..|rs| - 1], t) + (if HasTier(tiers, rs[|rs| - 1], t) then [rs[|rs| - 1]] else [])
  }

  lemma {:induction false} SelectMembers(tiers: map<Req, Confidence>, rs: seq<Req>, t: Confidence)
    ensures forall q :: q in Select(tiers, rs, t) <==> q in rs && HasTier(tiers, q, t)
    decreases |rs|
  {
    if rs != [] {
      SelectMembers(tiers, rs[..|rs| - 1], t);
      assert rs == rs[..|rs| - 1] + [rs[|rs| - 1]];
    }
  }

  /**
   * Extending the scanned prefix by one requirement extends the selection,
   * appended to `matched0`, by at most that one.
   */
  lemma SelectStep(tiers: map<Req, Confidence>, matched0: seq<Req>, rs: seq<Req>, k: nat, t: Confidence)
    requires k < |rs|
    ensures Select(tiers, rs[..k + 1], t) == Select(tiers, rs[..k], t) + (if HasTier(tiers, rs[k], t) then [rs[k]] else [])
    ensures matched0 + Select(tiers, rs[..k + 1], t) ==
      matched0 + Select(tiers, rs[..k], t) + (if HasTier(tiers, rs[k], t) then [rs[k]] else [])
  {
    assert rs[..k + 1][..k] == rs[..k];
  }

  lemma {:induction false} SelectDistinct(tiers: map<Req, Confidence>, rs: seq<Req>, t: Confidence)
    requires Distinct(rs)
    ensures Distinct(Select(tiers, rs, t))
    decreases |rs|
  {
    if rs != [] {
      var front := rs[..|rs| - 1];
      SelectDistinct(tiers, front, t);
      SelectMembers(tiers, front, t);
    }
  }

  /** The points earned: `min(10, 4·high + 2·medium + 1·low)`. */
  function PointsOf(tiers: map<Req, Confidence>, reqs: seq<Req>): int {
    Min(10, 4 * |Select(tiers, reqs, High)| + 2 * |Select(tiers, reqs, Medium)| + |Select(tiers, reqs, Low)|)
  }

  function RequirementPoints(v: Venue, reqs: seq<Req>): int {
    PointsOf(Tiers(v), reqs)
  }

  /** `matched`: the high matches, then the medium ones, then the low ones. */
  function MatchedOf(tiers: map<Req, Confidence>, reqs: seq<Req>): seq<Req> {
    Select(tiers, reqs, High) + Select(tiers, reqs, Medium) + Select(tiers, reqs, Low)
  }

  function MatchedRequirements(v: Venue, reqs: seq<Req>): seq<Req> {
    MatchedOf(Tiers(v), reqs)
  }

  lemma {:induction false} RecognizedDistinct(text: string)
    ensures Distinct(Recognized(text))
  {
    if text != [] {
      AmongDistinct(text, AllReqs);
    }
  }

  lemma {:induction false} AmongDistinct(text: string, rs: seq<Req>)
    requires Distinct(rs)
    ensures Distinct(RecognizedAmong(text, rs))
    decreases |rs|
  {
    if rs != [] {
      AmongDistinct(text, rs[1..]);
      assert rs[0] !in rs[1..];
    }
  }

  /** `confidence` records a tier for exactly the matched requirements, the tier they have in `tiers`. */
  predicate ConfidenceAgrees(confidence: map<Req, Confidence>, matched: seq<Req>, tiers: map<Req, Confidence>) {
    (forall r :: r in confidence <==> r in matched) &&
    (forall r :: r in confidence ==> HasTier(tiers, r, confidence[r]))
  }

  lemma ConfidenceExtends(confidence: map<Req, Confidence>, matched: seq<Req>, tiers: map<Req, Confidence>, r: Req, t: Confidence)
    requires ConfidenceAgrees(confidence, matched, tiers)
    requires HasTier(tiers, r, t)
    ensures ConfidenceAgrees(confidence[r := t], matched + [r], tiers)
  {
  }

  /**
   * One pass over the recognised requirements: each one not matched yet that
   * `accepts` holds of is matched at tier `t`, worth `Weight(t)` points.
   * Layer 1 passes its field rules as `accepts`; layers 2 and 3 the strength
   * threshold of the profile they found.
   */
  method MatchPass(reqs: seq<Req>, accepts: Req -> bool, ghost tiers: map<Req, Confidence>, t: Confidence,
                   matched0: seq<Req>, confidence0: map<Req, Confidence>, total0: int)
    returns (matched: seq<Req>, confidence: map<Req, Confidence>, total: int)
    requires Distinct(reqs)
    requires forall r :: r in reqs ==> ((r !in matched0 && accepts(r)) <==> HasTier(tiers, r, t))
    requires ConfidenceAgrees(confidence0, matched0, tiers)
    ensures matched == matched0 + Select(tiers, reqs, t)
    ensures total == total0 + Weight(t) * |Select(tiers, reqs, t)|
    ensures ConfidenceAgrees(confidence, matched, tiers)
  {
    matched, confidence, total := matched0, confidence0, total0;
    for k := 0 to |reqs|
      invariant matched == matched0 + Select(tiers, reqs[..k], t)
      invariant total == total0 + Weight(t) * |Select(tiers, reqs[..k], t)|
      invariant ConfidenceAgrees(confidence, matched, tiers)
    {
      var r := reqs[k];
      SelectStep(tiers, matched0, reqs, k, t);
      SelectMembers(tiers, reqs[..k], t);
      assert r !in reqs[..k];
      if r !in matched && accepts(r) {
        ConfidenceExtends(confidence, matched, tiers, r, t);
        matched := matched + [r];
        confidence := confidence[r := t];
        total := total + Weight(t);
      }
    }
    assert reqs[..|reqs|] == reqs;
  }

  /** The brand loop of layer 2: the first brand entry whose name occurs in the venue's name. */
  method FindBrand(placeName: string) returns (brand: Option<Profile>)
    ensures brand == BrandOf(placeName)
  {
    var i := 0;
    while i < PROFILE_COUNT
      invariant 0 <= i <= PROFILE_COUNT
      invariant FirstBrandFrom(placeName, 0) == FirstBrandFrom(placeName, i)
    {
      var p := ProfileAt(i);
      if BrandMatches(p, placeName) {
        return Some(p);
      }
      i := i + 1;
    }
    return None;
  }

  /** The category loop of layer 3: the first category default named in the venue's type or name. */
  method FindCategory(placeType: string, placeName: string) returns (category: Option<Profile>)
    ensures category == CategoryOf(placeType, placeName)
  {
    var i := 0;
    while i < PROFILE_COUNT
      invariant 0 <= i <= PROFILE_COUNT
      invariant FirstCategoryFrom(placeType, placeName, 0) == FirstCategoryFrom(placeType, placeName, i)
    {
      var p := ProfileAt(i);
      if CategoryMatches(p, placeType, placeName) {
        return Some(p);
      }
      i := i + 1;
    }
    return None;
  }

  /** A tier that no requirement reaches selects nothing. */
  lemma NoneSelected(tiers: map<Req, Confidence>, reqs: seq<Req>, t: Confidence)
    requires forall r :: r in reqs ==> !HasTier(tiers, r, t)
    ensures Select(tiers, reqs, t) == []
  {
    SelectMembers(tiers, reqs, t);
    if Select(tiers, reqs, t) != [] {
      assert Select(tiers, reqs, t)[0] in Select(tiers, reqs, t);
    }
  }

  /** How each tier of `TiersWith` reads off the three layers. */
  lemma TierCases(v: Venue, brand: Option<Profile>, category: Option<Profile>, r: Req)
    ensures HasTier(TiersWith(v, brand, category), r, High) <==> Layer1Hit(v, r)
    ensures HasTier(TiersWith(v, brand, category), r, Medium) <==>
      !Layer1Hit(v, r) && brand.Some? && Strength(brand.value, r) >= MEDIUM_THRESHOLD
    ensures HasTier(TiersWith(v, brand, category), r, Low) <==>
      !Layer1Hit(v, r) && !(brand.Some? && Strength(brand.value, r) >= MEDIUM_THRESHOLD) &&
      category.Some? && Strength(category.value, r) >= LOW_THRESHOLD
  {
    var tiers := TiersWith(v, brand, category);
    var t := TierWith(v, r, brand, category);
    var high := Layer1Hit(v, r);
    var medium := brand.Some? && Strength(brand.value, r) >= MEDIUM_THRESHOLD;
    var low := category.Some? && Strength(category.value, r) >= LOW_THRESHOLD;
    assert t == if high then Some(High) else if medium then Some(Medium) else if low then Some(Low) else None;
    assert r in tiers <==> t.Some?;
    assert r in tiers ==> t == Some(tiers[r]);
  }

  /** Layer 1 accepts exactly the requirements of high tier. */
  lemma FieldPassAgrees(v: Venue, brand: Option<Profile>, category: Option<Profile>, reqs: seq<Req>)
    ensures forall r :: r in reqs ==> ((r !in [] && Layer1Hit(v, r)) <==> HasTier(TiersWith(v, brand, category), r, High))
  {
    forall r | r in reqs {
      TierCases(v, brand, category, r);
    }
  }

  /** After layer 1, layer 2 accepts exactly the requirements of medium tier (none without a brand). */
  lemma BrandPassAgrees(v: Venue, brand: Option<Profile>, category: Option<Profile>, reqs: seq<Req>)
    ensures brand.Some? ==> forall r :: r in reqs ==>
      ((r !in Select(TiersWith(v, brand, category), reqs, High) && Strength(brand.value, r) >= MEDIUM_THRESHOLD)
        <==> HasTier(TiersWith(v, brand, category), r, Medium))
    ensures brand.None? ==> Select(TiersWith(v, brand, category), reqs, Medium) == []
  {
    var tiers := TiersWith(v, brand, category);
    SelectMembers(tiers, reqs, High);
    forall r | r in reqs {
      TierCases(v, brand, category, r);
    }
    if brand.None? {
      NoneSelected(tiers, reqs, Medium);
    }
  }

  /** After layers 1 and 2, layer 3 accepts exactly the requirements of low tier (none without a category). */
  lemma CategoryPassAgrees(v: Venue, brand: Option<Profile>, category: Option<Profile>, reqs: seq<Req>)
    ensures category.Some? ==> forall r :: r in reqs ==>
      ((r !in Select(TiersWith(v, brand, category), reqs, High) + Select(TiersWith(v, brand, category), reqs, Medium)
          && Strength(category.value, r) >= LOW_THRESHOLD)
        <==> HasTier(TiersWith(v, brand, category), r, Low))
    ensures category.None? ==> Select(TiersWith(v, brand, category), reqs, Low) == []
  {
    var tiers := TiersWith(v, brand, category);
    SelectMembers(tiers, reqs, High);
    SelectMembers(tiers, reqs, Medium);
    forall r | r in reqs {
      TierCases(v, brand, category, r);
    }
    if category.None? {
      NoneSelected(tiers, reqs, Low);
    }
  }

  /**
   * The three passes of `_calculate_requirement_score` over the recognised
   * requirements, given the venue's brand entry and category default: each
   * requirement not matched yet is matched by the first layer accepting it.
   */
  method MatchLayers(v: Venue, reqs: seq<Req>, brand: Option<Profile>, category: Option<Profile>)
    returns (total: int, matched: seq<Req>, confidence: map<Req, Confidence>)
    requires Distinct(reqs)
    ensures matched == MatchedOf(TiersWith(v, brand, category), reqs)
    ensures total == 4 * |Select(TiersWith(v, brand, category), reqs, High)|
                   + 2 * |Select(TiersWith(v, brand, category), reqs, Medium)|
                   + |Select(TiersWith(v, brand, category), reqs, Low)|
    ensures ConfidenceAgrees(confidence, matched, TiersWith(v, brand, category))
  {
    ghost var tiers := TiersWith(v, brand, category);
    ghost var high, medium, low := Select(tiers, reqs, High), Select(tiers, reqs, Medium), Select(tiers, reqs, Low);
    FieldPassAgrees(v, brand, category, reqs);
    matched, confidence, total := MatchPass(reqs, r => Layer1Hit(v, r), tiers, High, [], map[], 0);
    assert matched == high;

    BrandPassAgrees(v, brand, category, reqs);
    if brand.Some? {
      var profile := brand.value;
      matched, confidence, total := MatchPass(reqs, r => Strength(profile, r) >= MEDIUM_THRESHOLD, tiers, Medium, matched, confidence, total);
    }
    assert matched == high + medium;
    assert total == 4 * |high| + 2 * |medium|;

    CategoryPassAgrees(v, brand, category, reqs);
    if category.Some? {
      var profile := category.value;
      matched, confidence, total := MatchPass(reqs, r => Strength(profile, r) >= LOW_THRESHOLD, tiers, Low, matched, confidence, total);
    }
    assert matched == high + medium + low;
  }

  /**
   * `_calculate_requirement_score`: the alias scan, then the three passes,
   * the sum capped at 10. The brand and category lookups do not depend on
   * the passes, so they are made first.
   */
  method RequirementScore(v: Venue, text: string) returns (score: int, matched: seq<Req>, confidence: map<Req, Confidence>)
    ensures matched == MatchedRequirements(v, Recognized(text))
    ensures score == RequirementPoints(v, Recognized(text))
    ensures forall r :: r in confidence <==> r in matched
    ensures forall r :: r in confidence ==> Tier(v, r) == Some(confidence[r])
  {
    var reqs := Recognized(text);
    var brand := FindBrand(v.name);
    var category := FindCategory(v.placeType, v.name);
    assert TiersWith(v, brand, category) == Tiers(v);
    if reqs == [] {
      return 0, [], map[];
    }
    RecognizedDistinct(text);
    var total;
    total, matched, confidence := MatchLayers(v, reqs, brand, category);
    score := Min(10, total);
    forall r | r in confidence {
      TiersAgree(v, r);
    }
  }

  /**
   * What the requirement score promises: at most 10 points; each requirement
   * matched at most once, and exactly when it is recognised and some tier
   * accepts it; nothing at all for a text naming no requirement.
   */
  lemma RequirementScoreBounds(v: Venue, text: string)
    ensures 0 <= RequirementPoints(v, Recognized(text)) <= 10
    ensures Distinct(MatchedRequirements(v, Recognized(text)))
    ensures forall r :: r in MatchedRequirements(v, Recognized(text)) <==> r in Recognized(text) && Tier(v, r).Some?
    ensures Recognized(text) == [] ==>
      RequirementPoints(v, Recognized(text)) == 0 && MatchedRequirements(v, Recognized(text)) == []
  {
    var reqs, tiers := Recognized(text), Tiers(v);
    RecognizedDistinct(text);
    MatchedOfProperties(tiers, reqs);
    assert forall r :: r in tiers <==> Tier(v, r).Some?;
  }

  /**
   * For any tier table: the points lie in 0..10; over distinct requirements
   * the matched list repeats none; it holds exactly the listed requirements
   * that have a tier; nothing listed gives nothing matched and no points.
   */
  lemma MatchedOfProperties(tiers: map<Req, Confidence>, reqs: seq<Req>)
    requires Distinct(reqs)
    ensures 0 <= PointsOf(tiers, reqs) <= 10
    ensures Distinct(MatchedOf(tiers, reqs))
    ensures forall r :: r in MatchedOf(tiers, reqs) <==> r in reqs && r in tiers
    ensures reqs == [] ==> PointsOf(tiers, reqs) == 0 && MatchedOf(tiers, reqs) == []
  {
    SelectDistinct(tiers, reqs, High);
    SelectDistinct(tiers, reqs, Medium);
    SelectDistinct(tiers, reqs, Low);
    SelectMembers(tiers, reqs, High);
    SelectMembers(tiers, reqs, Medium);
    SelectMembers(tiers, reqs, Low);
    var high, medium, low := Select(tiers, reqs, High), Select(tiers, reqs, Medium), Select(tiers, reqs, Low);
    DistinctAppend(high, medium);
    DistinctAppend(high + medium, low);
    if reqs == [] {
      NoneSelected(tiers, reqs, High);
      NoneSelected(tiers, reqs, Medium);
      NoneSelected(tiers, reqs, Low);
    }
  }
}

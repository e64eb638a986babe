/**
 * Address resolution rules that involve no network: the alias table of
 * `_enhance_address`, the city vote of `_extract_city_hint`, the choice
 * among text-search hits in `_select_best_poi`, the reading of one text
 * search reply in `_geocode_via_poi`, and the advice of
 * `_get_address_suggestions`.
 */
module Geocoding {
  import opened Common

  // ----- `_enhance_address` -----

  /** Short names of universities and the full query each stands for. */
  const ALIASES: map<string, string> := map[
    "北大" := "北京市海淀区北京大学",
    "清华" := "北京市海淀区清华大学",
    "人大" := "北京市海淀区中国人民大学",
    "北师大" := "北京市海淀区北京师范大学",
    "复旦" := "上海市杨浦区复旦大学",
    "上交" := "上海市闵行区上海交通大学",
    "浙大" := "浙江省杭州市浙江大学",
    "中大" := "广东省广州市中山大学",
    "华工" := "广东省广州市华南理工大学",
    "华科" := "湖北省武汉市华中科技大学"
  ]

  /** `_enhance_address`: strip the text, then replace a known short name by its full query. */
  function EnhanceAddress(address: string): (r: string)
    ensures address == [] ==> r == []
    ensures address != [] && Strip(address) !in ALIASES ==> r == Strip(address)
    ensures address != [] && Strip(address) in ALIASES ==> r == ALIASES[Strip(address)]
  {
    if address == [] then address
    else
      var normalized := Strip(address);
      if normalized in ALIASES then ALIASES[normalized] else normalized
  }

  /** Every full query is longer than every short name, and is already stripped. */
  lemma AliasTargets(k: string)
    requires k in ALIASES
    ensures |k| <= 3 < |ALIASES[k]|
    ensures !IsSpace(ALIASES[k][0]) && !IsSpace(ALIASES[k][|ALIASES[k]| - 1])
  {
  }

  /** Enhancing twice is enhancing once: a full query is neither padded nor a short name. */
  lemma EnhanceIdempotent(address: string)
    ensures EnhanceAddress(EnhanceAddress(address)) == EnhanceAddress(address)
  {
    if address != [] {
      var n := Strip(address);
      if n in ALIASES {
        var full := ALIASES[n];
        AliasTargets(n);
        StripOfStripped(full);
        if full in ALIASES {
          AliasTargets(full);
        }
      } else {
        StripOfStripped(n);
      }
    }
  }

  // ----- `_extract_city_hint` -----

  const CITY_KEYWORDS: seq<string> := [
    "北京", "上海", "广州", "深圳", "杭州", "南京", "武汉", "成都", "西安", "天津",
    "重庆", "苏州", "长沙", "郑州", "济南", "青岛", "大连", "厦门", "福州", "昆明"
  ]

  /** No city keyword is listed twice (their first characters already differ). */
  lemma CityKeywordsDistinct()
    ensures Distinct(CITY_KEYWORDS)
  {
    assert forall i :: 0 <= i < |CITY_KEYWORDS| ==> |CITY_KEYWORDS[i]| == 2;
    assert forall i, j :: 0 <= i < j < |CITY_KEYWORDS| ==> CITY_KEYWORDS[i][0] != CITY_KEYWORDS[j][0];
  }

  lemma CityKeywordLength(c: string)
    requires c in CITY_KEYWORDS
    ensures |c| == 2
  {
    assert forall i :: 0 <= i < |CITY_KEYWORDS| ==> |CITY_KEYWORDS[i]| == 2;
  }

  /** A location votes for a city its text, or its enhanced text, contains. */
  predicate Mentions(loc: string, city: string) {
    Contains(loc, city) || Contains(EnhanceAddress(loc), city)
  }

  /** The `votes` dict: its keys in insertion order, and the counts. */
  datatype Tally = Tally(keys: seq<string>, votes: map<string, nat>)

  ghost predicate WellFormed(t: Tally) {
    Distinct(t.keys) && (forall c :: c in t.votes <==> c in t.keys)
  }

  /** `votes[city] = votes.get(city, 0) + 1`; a new key goes last. */
  function Vote(t: Tally, city: string): Tally {
    if city in t.votes then Tally(t.keys, t.votes[city := t.votes[city] + 1])
    else Tally(t.keys + [city], t.votes[city := 1])
  }

  /** The inner loop: one location votes for each city of `cities` it mentions, in order. */
  function VoteFor(t: Tally, loc: string, cities: seq<string>): Tally
    decreases |cities|
  {
    if cities == [] then t
    else
      var before := VoteFor(t, loc, cities[..|cities| - 1]);
      var c := cities[|cities| - 1];
      if Mentions(loc, c) then Vote(before, c) else before
  }

  /** The outer loop: every non-empty location votes in turn. */
  function TallyOf(locs: seq<string>): Tally
    decreases |locs|
  {
    if locs == [] then Tally([], map[])
    else
      var before := TallyOf(locs[..|locs| - 1]);
      var loc := locs[|locs| - 1];
      if loc == [] then before else VoteFor(before, loc, CITY_KEYWORDS)
  }

  /** How many non-empty locations mention `city`. */
  function VoteCount(locs: seq<string>, city: string): (n: nat)
    ensures n <= |locs|
    decreases |locs|
  {
    if locs == [] then 0
    else VoteCount(locs[..|locs| - 1], city) + (if locs[|locs| - 1] != [] && Mentions(locs[|locs| - 1], city) then 1 else 0)
  }

  /** `votes.get`, as the key of `max`. */
  function VotesOf(votes: map<string, nat>): string -> nat {
    c => Get(votes, c)
  }

  /** `_extract_city_hint`: the first city, in order of first vote, that no city out-votes. */
  function CityHint(locs: seq<string>): string {
    var t := TallyOf(locs);
    if t.keys == [] then "" else t.keys[FirstArgMax(t.keys, VotesOf(t.votes))]
  }

  lemma {:induction false} VoteForCounts(t: Tally, loc: string, cities: seq<string>, c: string)
    requires WellFormed(t) && Distinct(cities)
    ensures WellFormed(VoteFor(t, loc, cities))
    ensures Get(VoteFor(t, loc, cities).votes, c) == Get(t.votes, c) + (if c in cities && Mentions(loc, c) then 1 else 0)
    ensures c in VoteFor(t, loc, cities).votes <==> c in t.votes || (c in cities && Mentions(loc, c))
    decreases |cities|
  {
    if cities != [] {
      var front := cities[..|cities| - 1];
      var last := cities[|cities| - 1];
      assert cities == front + [last];
      VoteForCounts(t, loc, front, c);
      VoteForCounts(t, loc, front, last);
      var before := VoteFor(t, loc, front);
      if Mentions(loc, last) && last !in before.votes {
        DistinctAppend(before.keys, [last]);
      }
    }
  }

  lemma {:induction false} TallyCounts(locs: seq<string>, c: string)
    ensures WellFormed(TallyOf(locs))
    ensures c in CITY_KEYWORDS ==> Get(TallyOf(locs).votes, c) == VoteCount(locs, c)
    ensures c in TallyOf(locs).votes <==> c in CITY_KEYWORDS && VoteCount(locs, c) > 0
    decreases |locs|
  {
    if locs != [] {
      var front := locs[..|locs| - 1];
      TallyCounts(front, c);
      if locs[|locs| - 1] != [] {
        CityKeywordsDistinct();
        VoteForCounts(TallyOf(front), locs[|locs| - 1], CITY_KEYWORDS, c);
      }
    }
  }

  /**
   * The hint is empty exactly when no location names a listed city; otherwise
   * it is a listed city with the most votes.
   */
  lemma CityHintChoice(locs: seq<string>)
    ensures CityHint(locs) == [] <==> forall c :: c in CITY_KEYWORDS ==> VoteCount(locs, c) == 0
    ensures CityHint(locs) != [] ==> CityHint(locs) in CITY_KEYWORDS
    ensures CityHint(locs) != [] ==>
      forall c :: c in CITY_KEYWORDS ==> VoteCount(locs, c) <= VoteCount(locs, CityHint(locs))
  {
    var t := TallyOf(locs);
    TallyCounts(locs, "");
    forall c | c in CITY_KEYWORDS
      ensures VoteCount(locs, c) > 0 <==> c in t.keys
      ensures Get(t.votes, c) == VoteCount(locs, c)
    {
      TallyCounts(locs, c);
    }
    if t.keys != [] {
      var i := FirstArgMax(t.keys, VotesOf(t.votes));
      var hint := t.keys[i];
      TallyCounts(locs, hint);
      assert hint in CITY_KEYWORDS;
      CityKeywordLength(hint);
      forall c | c in CITY_KEYWORDS
        ensures VoteCount(locs, c) <= VoteCount(locs, hint)
      {
        TallyCounts(locs, c);
        if c in t.keys {
          var j :| 0 <= j < |t.keys| && t.keys[j] == c;
        }
      }
    } else {
      forall c | c in CITY_KEYWORDS
        ensures VoteCount(locs, c) == 0
      {
        TallyCounts(locs, c);
      }
    }
  }

  /**
   * Ties go to the city voted for first: the hint is a tallied city, and every
   * city whose first vote came earlier has strictly fewer votes.
   */
  lemma CityHintFirstOfTied(locs: seq<string>)
    ensures CityHint(locs) != [] ==>
      exists i :: 0 <= i < |TallyOf(locs).keys| && TallyOf(locs).keys[i] == CityHint(locs)
        && forall j :: 0 <= j < i ==> VoteCount(locs, TallyOf(locs).keys[j]) < VoteCount(locs, CityHint(locs))
  {
    var t := TallyOf(locs);
    TallyCounts(locs, "");
    if t.keys != [] {
      var i := FirstArgMax(t.keys, VotesOf(t.votes));
      TallyCounts(locs, t.keys[i]);
      forall j | 0 <= j < i
        ensures VoteCount(locs, t.keys[j]) < VoteCount(locs, t.keys[i])
      {
        TallyCounts(locs, t.keys[j]);
      }
    }
  }

  /** The inner loop of `_extract_city_hint`: one location votes for every city it mentions. */
  method CastVotes(keys0: seq<string>, votes0: map<string, nat>, loc: string)
    returns (keys: seq<string>, votes: map<string, nat>)
    ensures Tally(keys, votes) == VoteFor(Tally(keys0, votes0), loc, CITY_KEYWORDS)
  {
    keys, votes := keys0, votes0;
    for k := 0 to |CITY_KEYWORDS|
      invariant Tally(keys, votes) == VoteFor(Tally(keys0, votes0), loc, CITY_KEYWORDS[..k])
    {
      var city := CITY_KEYWORDS[k];
      ghost var before := Tally(keys, votes);
      assert CITY_KEYWORDS[..k + 1][..k] == CITY_KEYWORDS[..k];
      assert VoteFor(Tally(keys0, votes0), loc, CITY_KEYWORDS[..k + 1])
        == if Mentions(loc, city) then Vote(before, city) else before;
      if Mentions(loc, city) {
        if city in votes {
          votes := votes[city := votes[city] + 1];
        } else {
          keys := keys + [city];
          votes := votes[city := 1];
        }
        assert Tally(keys, votes) == Vote(before, city);
      }
    }
    assert CITY_KEYWORDS[..|CITY_KEYWORDS|] == CITY_KEYWORDS;
  }

  /** `_extract_city_hint`: the vote over all locations, then the city with most votes. */
  method ExtractCityHint(locations: seq<string>) returns (hint: string)
    ensures hint == CityHint(locations)
  {
    var keys: seq<string> := [];
    var votes: map<string, nat> := map[];
    for i := 0 to |locations|
      invariant Tally(keys, votes) == TallyOf(locations[..i])
    {
      var loc := locations[i];
      assert locations[..i + 1][..i] == locations[..i];
      if loc != [] {
        keys, votes := CastVotes(keys, votes, loc);
      }
    }
    assert locations[..|locations|] == locations;
    TallyCounts(locations, "");
    if keys == [] {
      return "";
    }
    hint := keys[FirstArgMax(keys, VotesOf(votes))];
  }

  // ----- `_select_best_poi` -----

  /** One text-search hit; a missing `name` is `None`, other missing or empty fields are `""`. */
  datatype Poi = Poi(name: Option<string>, cityname: string, location: string, address: string,
                     pname: string, adname: string)

  /** `poi.get("name", "")` */
  function NameOf(p: Poi): string {
    if p.name.Some? then p.name.value else ""
  }

  predicate ExactName(p: Poi, keywordLower: string) {
    Lower(NameOf(p)) == keywordLower
  }

  predicate NameHas(p: Poi, keywordLower: string) {
    Contains(Lower(NameOf(p)), keywordLower)
  }

  predicate InCity(p: Poi, keywordLower: string, cityHint: string) {
    NameHas(p, keywordLower) && Contains(p.cityname, cityHint)
  }

  /** `_select_best_poi` */
  function SelectBestPoi(pois: seq<Poi>, keyword: string, cityHint: string): (r: Option<Poi>)
    ensures r.None? <==> pois == []
    ensures r.Some? ==> r.value in pois
  {
    if pois == [] then None
    else
      var kl := Lower(keyword);
      match FirstWhere(pois, (p: Poi) => ExactName(p, kl))
      case Some(i) => Some(pois[i])
      case None =>
        var inCity := if cityHint != [] then FirstWhere(pois, (p: Poi) => InCity(p, kl, cityHint)) else None;
        if inCity.Some? then Some(pois[inCity.value])
        else match FirstWhere(pois, (p: Poi) => NameHas(p, kl))
          case Some(i) => Some(pois[i])
          case None => Some(pois[0])
  }

  /**
   * The order of preference: an exact (case-insensitive) name match first;
   * then, given a city hint, a hit whose name holds the keyword in that city;
   * then any hit whose name holds the keyword; then the first hit. Within each
   * rank the earliest hit wins.
   */
  lemma SelectBestPoiPriority(pois: seq<Poi>, keyword: string, cityHint: string)
    requires pois != []
    ensures var r := SelectBestPoi(pois, keyword, cityHint).value;
      var kl := Lower(keyword);
      exists i :: 0 <= i < |pois| && pois[i] == r &&
        if exists j :: 0 <= j < |pois| && ExactName(pois[j], kl) then
          ExactName(r, kl) && forall j :: 0 <= j < i ==> !ExactName(pois[j], kl)
        else if cityHint != [] && exists j :: 0 <= j < |pois| && InCity(pois[j], kl, cityHint) then
          InCity(r, kl, cityHint) && forall j :: 0 <= j < i ==> !InCity(pois[j], kl, cityHint)
        else if exists j :: 0 <= j < |pois| && NameHas(pois[j], kl) then
          NameHas(r, kl) && forall j :: 0 <= j < i ==> !NameHas(pois[j], kl)
        else i == 0
  {
    var kl := Lower(keyword);
    var exact := FirstWhere(pois, (p: Poi) => ExactName(p, kl));
    var inCity := FirstWhere(pois, (p: Poi) => InCity(p, kl, cityHint));
    var has := FirstWhere(pois, (p: Poi) => NameHas(p, kl));
    if exact.Some? {
      assert pois[exact.value] == SelectBestPoi(pois, keyword, cityHint).value;
    } else if cityHint != [] && inCity.Some? {
      assert pois[inCity.value] == SelectBestPoi(pois, keyword, cityHint).value;
    } else if has.Some? {
      assert pois[has.value] == SelectBestPoi(pois, keyword, cityHint).value;
    } else {
      assert pois[0] == SelectBestPoi(pois, keyword, cityHint).value;
    }
  }

  // ----- `_geocode_via_poi` -----

  /** A geocoding result as the rest of the recommender reads it. */
  datatype Geo = Geo(location: string, formattedAddress: string, city: string, province: string,
                     district: string, poiName: Option<string>)

  /** What one text-search request yields. */
  datatype PoiReply =
    | PoiHttpError                                         // status other than 200
    | PoiFailed                                            // an exception while asking
    | PoiAnswer(info: string, status: string, pois: seq<Poi>)

  const LIMIT_EXCEEDED: string := "CUQPS_HAS_EXCEEDED_THE_LIMIT"

  /** A reply that carries hits: not rate limited, status `"1"`, at least one hit. */
  predicate Usable(reply: PoiReply) {
    reply.PoiAnswer? && reply.info != LIMIT_EXCEEDED && reply.status == "1" && reply.pois != []
  }

  /** The result dict built from the chosen hit; `_source` is `"poi"`. */
  function FromPoi(p: Poi, address: string): (g: Geo)
    ensures g.location == p.location && g.city == p.cityname && g.poiName.Some?
    ensures g.poiName.value == (if p.name.Some? then p.name.value else address)
    ensures g.formattedAddress == (if p.address != [] then p.address else g.poiName.value)
    ensures g.province == p.pname && g.district == p.adname
  {
    var name := if p.name.Some? then p.name.value else address;
    Geo(p.location, if p.address != [] then p.address else name, p.cityname, p.pname, p.adname, Some(name))
  }

  /**
   * `_geocode_via_poi`, given the reply to its request: nothing for an empty
   * query, a failed request, the rate limit, a bad status or no hits;
   * otherwise the best hit.
   */
  function GeocodeViaPoi(address: string, cityHint: string, reply: PoiReply): (g: Option<Geo>)
    ensures EnhanceAddress(address) == [] ==> g.None?
    ensures g.Some? ==> Usable(reply) && exists p :: p in reply.pois && g.value == FromPoi(p, address)
    ensures Usable(reply) && EnhanceAddress(address) != [] ==> g.Some?
  {
    var keyword := EnhanceAddress(address);
    if keyword == [] then None
    else match reply
      case PoiHttpError => None
      case PoiFailed => None
      case PoiAnswer(info, status, pois) =>
        if info == LIMIT_EXCEEDED then None
        else if status != "1" || pois == [] then None
        else
          var best := SelectBestPoi(pois, keyword, cityHint);
          if best.None? then None else Some(FromPoi(best.value, address))
  }

  // ----- `_get_address_suggestions` -----

  /** The vague words, in the order the advice lists them, each with its advice. */
  const VAGUE_TERMS: seq<(string, string)> := [
    ("大学", "**请输入完整大学名称**，如 '北京大学'、'清华大学'、'复旦大学'"),
    ("学校", "**请输入具体学校全名**，如 '北京市第一中学'、'上海交通大学附属中学'"),
    ("医院", "**请输入完整医院名称**，如 '北京协和医院'、'上海华山医院'"),
    ("商场", "**请输入具体商场名称**，如 '王府井百货大楼'、'上海环球港'"),
    ("火车站", "**请输入完整站名**，如 '北京站'、'上海虹桥站'、'广州南站'"),
    ("机场", "**请输入完整机场名称**，如 '北京首都国际机场'、'上海浦东国际机场'"),
    ("公园", "**请输入具体公园名称**，如 '颐和园'、'中山公园'、'西湖公园'"),
    ("广场", "**请输入具体广场名称**，如 '天安门广场'、'人民广场'"),
    ("地铁站", "**请输入完整地铁站名**，如 '中关村地铁站'、'人民广场地铁站'"),
    ("购物中心", "**请输入具体购物中心名称**，如 '北京apm'、'上海iapm'")
  ]

  const MAJOR_CITIES: seq<string> := ["北京", "上海", "广州", "深圳", "杭州", "南京", "武汉", "成都", "西安", "天津"]

  /** One line of advice, by what it says. */
  datatype Advice =
    | AskSpecific                  // the heading put first when anything specific was said
    | VagueTerm(advice: string)    // one per vague word the address holds
    | CityOnly(city: string, k: nat)  // three lines for a bare major city
    | TooShort(k: nat)             // three lines for at most 2 characters
    | NotDetailed(k: nat)          // three lines for 3 or 4 characters
    | General(k: nat)              // six lines when nothing specific applies
    | Blank
    | MultiHeading
    | MultiTip(k: nat)             // three closing lines about several locations

  function VagueAdvice(address: string, terms: seq<(string, string)>): (r: seq<Advice>)
    ensures |r| <= |terms|
    ensures forall k :: 0 <= k < |r| ==> r[k].VagueTerm?
    ensures r == [] <==> forall t :: 0 <= t < |terms| ==> !Contains(address, terms[t].0)
    decreases |terms|
  {
    if terms == [] then []
    else
      var rest := VagueAdvice(address, terms[1..]);
      assert forall t :: 1 <= t < |terms| ==> terms[t] == terms[1..][t - 1];
      (if Contains(address, terms[0].0) then [VagueTerm(terms[0].1)] else []) + rest
  }

  /** The vague-word advice holds the advice of exactly the vague words the address contains. */
  lemma {:induction false} VagueAdviceExact(address: string, terms: seq<(string, string)>, a: Advice)
    ensures a in VagueAdvice(address, terms) <==>
      exists t :: 0 <= t < |terms| && Contains(address, terms[t].0) && a == VagueTerm(terms[t].1)
    decreases |terms|
  {
    if terms != [] {
      var rest := terms[1..];
      VagueAdviceExact(address, rest, a);
      var head := if Contains(address, terms[0].0) then [VagueTerm(terms[0].1)] else [];
      assert VagueAdvice(address, terms) == head + VagueAdvice(address, rest);
      if exists t :: 0 <= t < |terms| && Contains(address, terms[t].0) && a == VagueTerm(terms[t].1) {
        var t :| 0 <= t < |terms| && Contains(address, terms[t].0) && a == VagueTerm(terms[t].1);
        if t > 0 {
          assert rest[t - 1] == terms[t];
        }
      }
      if a in VagueAdvice(address, rest) {
        var t :| 0 <= t < |rest| && Contains(address, rest[t].0) && a == VagueTerm(rest[t].1);
        assert terms[t + 1] == rest[t];
      }
    }
  }

  function CityAdvice(address: string): (r: seq<Advice>)
    ensures r == [] <==> address !in MAJOR_CITIES
    ensures forall k :: 0 <= k < |r| ==> r[k].CityOnly?
  {
    if address in MAJOR_CITIES then [CityOnly(address, 0), CityOnly(address, 1), CityOnly(address, 2)] else []
  }

  function LengthAdvice(address: string): (r: seq<Advice>)
    ensures r == [] <==> |address| > 4
    ensures |address| <= 2 ==> r == [TooShort(0), TooShort(1), TooShort(2)]
    ensures 3 <= |address| <= 4 ==> r == [NotDetailed(0), NotDetailed(1), NotDetailed(2)]
    ensures forall k :: 0 <= k < |r| ==> r[k].TooShort? || r[k].NotDetailed?
  {
    if |address| <= 2 then [TooShort(0), TooShort(1), TooShort(2)]
    else if |address| <= 4 then [NotDetailed(0), NotDetailed(1), NotDetailed(2)]
    else []
  }

  /** Everything specific to the address, in the order it is listed. */
  function Specific(address: string): seq<Advice> {
    VagueAdvice(address, VAGUE_TERMS) + CityAdvice(address) + LengthAdvice(address)
  }

  const CLOSING: seq<Advice> := [Blank, MultiHeading, MultiTip(0), MultiTip(1), MultiTip(2)]

  /** `_get_address_suggestions`, line by line. */
  function Suggestions(address: string): seq<Advice> {
    var specific := Specific(address);
    var body := if specific == [] then [General(0), General(1), General(2), General(3), General(4), General(5)]
                else [AskSpecific] + specific;
    body + CLOSING
  }

  /**
   * The general advice appears exactly when nothing specific applies, and the
   * heading leads exactly when something does; an address of at most 4
   * characters always gets specific advice.
   */
  lemma SuggestionsShape(address: string)
    ensures |Suggestions(address)| >= 7
    ensures Suggestions(address)[|Suggestions(address)| - 5..] == CLOSING
    ensures var r := Suggestions(address);
      (r[0] == General(0) <==> Specific(address) == []) &&
      (r[0] == AskSpecific <==> Specific(address) != []) &&
      (Specific(address) != [] ==> r[1..|r| - 5] == Specific(address))
    ensures |address| <= 4 ==> Suggestions(address)[0] == AskSpecific
  {
    var specific := Specific(address);
    var body := if specific == [] then [General(0), General(1), General(2), General(3), General(4), General(5)]
                else [AskSpecific] + specific;
    assert Suggestions(address) == body + CLOSING;
    assert (body + CLOSING)[|body|..] == CLOSING;
    if specific == [] {
      assert |body| == 6;
    } else {
      assert !specific[0].General? by {
        SpecificKinds(address);
      }
      assert (body + CLOSING)[1..|body|] == specific;
      if |address| <= 4 {
        assert LengthAdvice(address) != [];
      }
    }
  }

  /** Specific advice is never the heading nor a general line. */
  lemma SpecificKinds(address: string)
    ensures forall k :: 0 <= k < |Specific(address)| ==> !Specific(address)[k].AskSpecific? && !Specific(address)[k].General?
  {
    var v, c, l := VagueAdvice(address, VAGUE_TERMS), CityAdvice(address), LengthAdvice(address);
    var all := v + c + l;
    assert Specific(address) == all;
    forall k | 0 <= k < |all|
      ensures !all[k].AskSpecific? && !all[k].General?
    {
      if k < |v| {
        assert all[k] == v[k];
      } else if k < |v| + |c| {
        assert all[k] == c[k - |v|];
      } else {
        assert all[k] == l[k - |v| - |c|];
      }
    }
  }

  /** The wording of each line. */
  function AdviceText(a: Advice): string {
    match a
    case AskSpecific => "• **请输入更具体的地址信息**"
    case VagueTerm(advice) => "• " + advice
    case CityOnly(city, k) =>
      if k == 0 then "• **城市名过于宽泛**，请添加具体区域，如 '" + city + "市海淀区中关村'"
      else if k == 1 then "• **或使用知名地标**，如 '" + city + "大学'、'" + city + "火车站'、'" + city + "机场'"
      else "• **推荐格式**：'" + city + "市 + 区县 + 街道/地标'，如 '" + city + "市朝阳区三里屯'"
    case TooShort(k) =>
      if k == 0 then "• **地址过于简短**，请提供更详细的信息"
      else if k == 1 then "• **标准格式**：'省市 + 区县 + 具体地点'，如 '北京市海淀区中关村大街'"
      else "• **或使用完整地标名**：如 '北京大学'、'天安门广场'、'上海外滩'"
    case NotDetailed(k) =>
      if k == 0 then "• **地址信息不够具体**，建议添加更多细节"
      else if k == 1 then "• **如果是地标**：请使用完整名称，如 '北京大学' 而非 '北大'"
      else "• **如果是地址**：请添加区县信息，如 '海淀区' + 您的地址"
    case General(k) =>
      if k == 0 then "• **请输入具体地址**：如 '北京市海淀区中关村大街1号'"
      else if k == 1 then "• **使用知名地标**：如 '北京大学'、'天安门广场'、'上海外滩'"
      else if k == 2 then "• **添加省市区信息**：如 '北京市朝阳区三里屯'"
      else if k == 3 then "• **使用完整建筑名**：如 '王府井百货大楼'、'北京协和医院'"
      else if k == 4 then "• **检查拼写准确性**：确保地名无错别字"
      else "• **尝试官方全称**：避免使用简称或昵称"
    case Blank => ""
    case MultiHeading => "📝 **多地点输入提示：**"
    case MultiTip(k) =>
      if k == 0 then "• 可在一个输入框中用空格分隔多个地点，如 '北京大学 中关村'"
      else if k == 1 then "• 或在不同输入框中分别填写每个地点"
      else "• 完整地址（含'市'、'区'、'县'）不会被自动拆分"
  }

  function SuggestionText(address: string): string {
    var lines := Suggestions(address);
    Join("\n", seq(|lines|, i requires 0 <= i < |lines| => AdviceText(lines[i])))
  }
}

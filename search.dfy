/**
 * The venue search of `execute`: one search per keyword when several are
 * given (merged and de-duplicated by name and location), and a ladder of
 * broader searches while nothing is found. `search(keyword, radius, types)`
 * stands for `_search_pois` around the meeting point.
 */
module Search {
  import opened Common
  import opened Geometry
  import opened Venues

  type Searcher = (string, int, string) -> seq<Venue>

  const SEARCH_RADIUS: int := 5000
  const WIDE_RADIUS: int := 50000
  const FALLBACK_CATEGORIES: seq<string> := ["餐厅", "咖啡馆", "商场", "美食"]
  const WIDE_KEYWORD: string := "餐厅"
  /** The `fallback_keyword` reported after the widened search. */
  const WIDE_LABEL: string := "餐厅（扩大范围）"

  // ----- several keywords -----

  /** `place['_source_keyword'] = keyword` for every hit. */
  function Tagged(places: seq<Venue>, keyword: string): seq<Venue>
  {
    seq(|places|, k requires 0 <= k < |places| => places[k].(sourceKeyword := Some(keyword)))
  }

  /** `all_places`: the tagged hits of each keyword, keyword by keyword. */
  function Merged(keywords: seq<string>, search: Searcher): seq<Venue>
    decreases |keywords|
  {
    if keywords == [] then []
    else
      var kw := keywords[|keywords| - 1];
      Merged(keywords[..|keywords| - 1], search) + Tagged(search(kw, SEARCH_RADIUS, ""), kw)
  }

  /** `f"{name}_{location}"`, the de-duplication identity. */
  function Identity(v: Venue): string {
    v.name + "_" + v.location
  }

  /** The keys of a list. */
  function Keys<T(==)>(s: seq<T>, key: T -> string): (ks: set<string>)
    ensures forall x :: x in s ==> key(x) in ks
    ensures forall k :: k in ks ==> exists x :: x in s && key(x) == k
  {
    set x | x in s :: key(x)
  }

  /** The keys of a list, in order. */
  function KeyList<T(==)>(s: seq<T>, key: T -> string): (ks: seq<string>)
    ensures |ks| == |s| && forall i :: 0 <= i < |s| ==> ks[i] == key(s[i])
  {
    seq(|s|, i requires 0 <= i < |s| => key(s[i]))
  }

  /** The first element of each key, in order. */
  function FirstPerKey<T(==)>(s: seq<T>, key: T -> string): seq<T>
    decreases |s|
  {
    if s == [] then []
    else
      var front := s[..|s| - 1];
      var last := s[|s| - 1];
      FirstPerKey(front, key) + (if key(last) in Keys(front, key) then [] else [last])
  }

  lemma KeysSnoc<T>(front: seq<T>, last: T, key: T -> string)
    ensures Keys(front + [last], key) == Keys(front, key) + {key(last)}
  {
    assert forall x :: x in front + [last] <==> x in front || x == last;
  }

  /** De-duplication loses no key and keeps only elements of the input. */
  lemma {:induction false} FirstPerKeyKeys<T>(s: seq<T>, key: T -> string)
    ensures Keys(FirstPerKey(s, key), key) == Keys(s, key)
    ensures forall x :: x in FirstPerKey(s, key) ==> x in s
    decreases |s|
  {
    if s != [] {
      var front := s[..|s| - 1];
      var last := s[|s| - 1];
      assert s == front + [last];
      FirstPerKeyKeys(front, key);
      KeysSnoc(front, last, key);
      KeysSnoc(FirstPerKey(front, key), last, key);
    }
  }

  /** De-duplication keeps one element per key. */
  lemma {:induction false} FirstPerKeyDistinct<T>(s: seq<T>, key: T -> string)
    ensures Distinct(KeyList(FirstPerKey(s, key), key))
    decreases |s|
  {
    if s != [] {
      var front := s[..|s| - 1];
      var last := s[|s| - 1];
      FirstPerKeyDistinct(front, key);
      var kept := FirstPerKey(front, key);
      if key(last) !in Keys(front, key) {
        FirstPerKeyKeys(front, key);
        assert KeyList(kept + [last], key) == KeyList(kept, key) + [key(last)];
        DistinctAppend(KeyList(kept, key), [key(last)]);
      }
    }
  }

  /** A list with no key twice is left as it is. */
  lemma {:induction false} FirstPerKeyOfDistinct<T>(s: seq<T>, key: T -> string)
    requires Distinct(KeyList(s, key))
    ensures FirstPerKey(s, key) == s
    decreases |s|
  {
    if s != [] {
      var front := s[..|s| - 1];
      var last := s[|s| - 1];
      assert s == front + [last];
      assert KeyList(front, key) == KeyList(s, key)[..|s| - 1];
      FirstPerKeyOfDistinct(front, key);
      forall x | x in front
        ensures key(x) != key(last)
      {
        var i :| 0 <= i < |front| && front[i] == x;
        assert KeyList(s, key)[i] == key(x);
      }
    }
  }

  /** De-duplicating twice is de-duplicating once. */
  lemma FirstPerKeyIdempotent<T>(s: seq<T>, key: T -> string)
    ensures FirstPerKey(FirstPerKey(s, key), key) == FirstPerKey(s, key)
  {
    FirstPerKeyDistinct(s, key);
    FirstPerKeyOfDistinct(FirstPerKey(s, key), key);
  }

  /** `s[i]` is the first element of its key. */
  predicate FirstOfKey<T>(s: seq<T>, key: T -> string, i: int) {
    0 <= i < |s| && forall j :: 0 <= j < i ==> key(s[j]) != key(s[i])
  }

  /** The positions of the first element of each key, in order. */
  function FirstIndices<T(==)>(s: seq<T>, key: T -> string): seq<int>
    decreases |s|
  {
    if s == [] then []
    else
      var front := s[..|s| - 1];
      FirstIndices(front, key) + (if key(s[|s| - 1]) in Keys(front, key) then [] else [|s| - 1])
  }

  /**
   * De-duplication keeps exactly the first element of each key, in input
   * order: its m-th element is `s[FirstIndices(s, key)[m]]`, those positions
   * increase, and a position is listed iff no earlier element has its key.
   */
  lemma {:induction false} FirstPerKeyPositions<T>(s: seq<T>, key: T -> string)
    ensures var idx := FirstIndices(s, key);
      && |idx| == |FirstPerKey(s, key)|
      && (forall m :: 0 <= m < |idx| ==> 0 <= idx[m] < |s| && FirstPerKey(s, key)[m] == s[idx[m]])
      && (forall a, b :: 0 <= a < b < |idx| ==> idx[a] < idx[b])
      && (forall i :: i in idx <==> FirstOfKey(s, key, i))
    decreases |s|
  {
    if s != [] {
      var front := s[..|s| - 1];
      var last := s[|s| - 1];
      var idx := FirstIndices(s, key);
      var fi := FirstIndices(front, key);
      FirstPerKeyPositions(front, key);
      assert forall j :: 0 <= j < |front| ==> front[j] == s[j];
      forall i | 0 <= i < |s| - 1
        ensures FirstOfKey(s, key, i) <==> FirstOfKey(front, key, i)
      {
      }
      if key(last) in Keys(front, key) {
        var x :| x in front && key(x) == key(last);
        var j :| 0 <= j < |front| && front[j] == x;
        assert !FirstOfKey(s, key, |s| - 1);
      } else {
        forall j | 0 <= j < |s| - 1
          ensures key(s[j]) != key(last)
        {
          assert front[j] in front;
        }
        assert FirstOfKey(s, key, |s| - 1);
      }
    }
  }

  /** The merge loop: the hits of each keyword, tagged with it, one keyword after another. */
  method MergeKeywordResults(keywords: seq<string>, search: Searcher) returns (all: seq<Venue>)
    ensures all == Merged(keywords, search)
  {
    all := [];
    for i := 0 to |keywords|
      invariant all == Merged(keywords[..i], search)
    {
      var kw := keywords[i];
      var places := search(kw, SEARCH_RADIUS, "");
      var tagged: seq<Venue> := [];
      for k := 0 to |places|
        invariant tagged == Tagged(places[..k], kw)
      {
        tagged := tagged + [places[k].(sourceKeyword := Some(kw))];
      }
      assert places[..|places|] == places;
      assert keywords[..i + 1][..i] == keywords[..i];
      all := all + tagged;
    }
    assert keywords[..|keywords|] == keywords;
  }

  /** The de-duplication loop over `seen`; `key` is `Identity` in `execute`. */
  method Deduplicate<T(==)>(places: seq<T>, key: T -> string) returns (unique: seq<T>)
    ensures unique == FirstPerKey(places, key)
  {
    var seen: set<string> := {};
    unique := [];
    for i := 0 to |places|
      invariant seen == Keys(places[..i], key)
      invariant unique == FirstPerKey(places[..i], key)
    {
      var place := places[i];
      var identifier := key(place);
      assert places[..i + 1][..i] == places[..i];
      KeysSnoc(places[..i], place, key);
      assert places[..i + 1] == places[..i] + [place];
      if identifier !in seen {
        seen := seen + {identifier};
        unique := unique + [place];
      }
    }
    assert places[..|places|] == places;
  }

  // ----- the fallback ladder -----

  /** What the search settles on: the places, and `fallback_used` with `fallback_keyword`. */
  datatype Found = Found(places: seq<Venue>, fallback: Option<string>)

  /** The first search: per keyword when there are several, else one search with the type code. */
  function FirstSearch(keywords: string, placeType: string, search: Searcher): seq<Venue> {
    var list := Words(keywords);
    if |list| > 1 then FirstPerKey(Merged(list, search), Identity)
    else search(keywords, SEARCH_RADIUS, placeType)
  }

  /** The third rung: the first category, other than `keywords`, whose search finds something. */
  function FallbackRung(keywords: string, categories: seq<string>, search: Searcher): (r: Option<string>)
    ensures r.Some? ==> r.value in categories && r.value != keywords && search(r.value, SEARCH_RADIUS, "") != []
    ensures r.None? ==> forall c :: c in categories && c != keywords ==> search(c, SEARCH_RADIUS, "") == []
    decreases |categories|
  {
    if categories == [] then None
    else if categories[0] != keywords && search(categories[0], SEARCH_RADIUS, "") != [] then Some(categories[0])
    else FallbackRung(keywords, categories[1..], search)
  }

  /** A category tried before the one chosen is the keywords themselves or finds nothing. */
  predicate Skipped(keywords: string, category: string, search: Searcher) {
    category == keywords || search(category, SEARCH_RADIUS, "") == []
  }

  /** The chosen category is the first, in list order, that is not skipped. */
  lemma {:induction false} FallbackRungFirst(keywords: string, categories: seq<string>, search: Searcher)
    ensures var r := FallbackRung(keywords, categories, search);
      r.Some? ==>
        exists k :: 0 <= k < |categories| && categories[k] == r.value &&
          forall j :: 0 <= j < k ==> Skipped(keywords, categories[j], search)
    decreases |categories|
  {
    if categories != [] && !(categories[0] != keywords && search(categories[0], SEARCH_RADIUS, "") != []) {
      var r := FallbackRung(keywords, categories[1..], search);
      FallbackRungFirst(keywords, categories[1..], search);
      if r.Some? {
        var k :| 0 <= k < |categories[1..]| && categories[1..][k] == r.value
          && forall j :: 0 <= j < k ==> Skipped(keywords, categories[1..][j], search);
        assert categories[k + 1] == r.value;
        forall j | 0 <= j < k + 1
          ensures Skipped(keywords, categories[j], search)
        {
          if j > 0 {
            assert categories[j] == categories[1..][j - 1];
          }
        }
      }
    }
  }

  /** The ladder of `execute`: first search, without type code, fallback categories, widened radius. */
  function Ladder(keywords: string, placeType: string, search: Searcher): Found {
    var first := FirstSearch(keywords, placeType, search);
    if first != [] then Found(first, None)
    else
      var second := search(keywords, SEARCH_RADIUS, "");
      if second != [] then Found(second, None)
      else match FallbackRung(keywords, FALLBACK_CATEGORIES, search)
        case Some(c) => Found(search(c, SEARCH_RADIUS, ""), Some(c))
        case None =>
          var wide := search(WIDE_KEYWORD, WIDE_RADIUS, "");
          Found(wide, if wide != [] then Some(WIDE_LABEL) else None)
  }

  /**
   * Each rung runs only when everything before it found nothing; dropping
   * the type code is not reported as a fallback; a reported fallback always
   * comes with places; the ladder ends empty only when every rung did.
   */
  lemma LadderRungs(keywords: string, placeType: string, search: Searcher)
    ensures var r := Ladder(keywords, placeType, search);
      var first := FirstSearch(keywords, placeType, search);
      var second := search(keywords, SEARCH_RADIUS, "");
      && (first != [] ==> r == Found(first, None))
      && (first == [] && second != [] ==> r == Found(second, None))
      && (r.fallback.Some? ==> r.places != [] && first == [] && second == [])
      && (r.fallback.Some? && r.fallback.value != WIDE_LABEL ==> r.fallback.value in FALLBACK_CATEGORIES)
      && (r.places == [] <==>
            first == [] && second == []
            && (forall c :: c in FALLBACK_CATEGORIES && c != keywords ==> search(c, SEARCH_RADIUS, "") == [])
            && search(WIDE_KEYWORD, WIDE_RADIUS, "") == [])
      && (first == [] && second == [] && FallbackRung(keywords, FALLBACK_CATEGORIES, search).Some? ==>
            var c := FallbackRung(keywords, FALLBACK_CATEGORIES, search).value;
            r == Found(search(c, SEARCH_RADIUS, ""), Some(c)))
      && (first == [] && second == [] && FallbackRung(keywords, FALLBACK_CATEGORIES, search).None? ==>
            r.places == search(WIDE_KEYWORD, WIDE_RADIUS, "")
            && (r.fallback == Some(WIDE_LABEL) <==> r.places != [])
            && (r.fallback.None? <==> r.places == []))
  {
    assert WIDE_LABEL !in FALLBACK_CATEGORIES;
  }

  /** The category loop of the third rung. */
  method TryCategories(keywords: string, search: Searcher) returns (places: seq<Venue>, used: Option<string>)
    ensures used == FallbackRung(keywords, FALLBACK_CATEGORIES, search)
    ensures used.Some? ==> places == search(used.value, SEARCH_RADIUS, "")
    ensures used.None? ==> places == []
  {
    places := [];
    used := None;
    for i := 0 to |FALLBACK_CATEGORIES|
      invariant places == []
      invariant FallbackRung(keywords, FALLBACK_CATEGORIES, search)
                == FallbackRung(keywords, FALLBACK_CATEGORIES[i..], search)
    {
      var category := FALLBACK_CATEGORIES[i];
      assert FALLBACK_CATEGORIES[i..][1..] == FALLBACK_CATEGORIES[i + 1..];
      if category != keywords {
        places := search(category, SEARCH_RADIUS, "");
        if places != [] {
          used := Some(category);
          return;
        }
      }
    }
  }

  /** The search and fallback section of `execute`. */
  method SearchPlaces(keywords: string, placeType: string, search: Searcher) returns (r: Found)
    ensures r == Ladder(keywords, placeType, search)
  {
    var list := Words(keywords);
    var places: seq<Venue>;
    if |list| > 1 {
      var all := MergeKeywordResults(list, search);
      places := Deduplicate(all, Identity);
    } else {
      places := search(keywords, SEARCH_RADIUS, placeType);
    }
    var fallback: Option<string> := None;
    if places == [] {
      places := search(keywords, SEARCH_RADIUS, "");
    }
    if places == [] {
      places, fallback := TryCategories(keywords, search);
    }
    if places == [] {
      places := search(WIDE_KEYWORD, WIDE_RADIUS, "");
      if places != [] {
        fallback := Some(WIDE_LABEL);
      }
    }
    r := Found(places, fallback);
  }

  /**
   * The reply when every rung came back empty, naming the meeting point;
   * `fixed4` prints a coordinate with four decimals.
   */
  function NoVenuesMessage(center: Coord, fixed4: real -> string): (m: string)
    ensures Contains(m, fixed4(center.lng)) && Contains(m, fixed4(center.lat))
  {
    var head := "在该区域未能找到任何推荐场所。\n\n搜索中心点：(";
    var lng := fixed4(center.lng);
    var mid := ", ";
    var lat := fixed4(center.lat);
    var tail := ")\n该区域可能较为偏远，建议选择更靠近市中心的地点。";
    ContainsAt(head + lng + mid + lat + tail, lng, |head|);
    ContainsAt(head + lng + mid + lat + tail, lat, |head| + |lng| + |mid|);
    head + lng + mid + lat + tail
  }
}

# MeetSpot meeting-place recommender, modelled in Dafny

MeetSpot suggests a place where several people can meet. The model covers the
deterministic decision logic:

- How the participants' addresses are resolved to coordinates:
  - alias expansion, city voting and POI choice;
  - the geocoding retry loop;
  - the bounded FIFO caches;
  - the city-consistency corrector.
- How a meeting point is computed, and how candidate points around it are laid
  out and scored.
- How venues near the meeting point are found, through a four-rung fallback
  ladder with multi-keyword de-duplication.
- How venues are scored, ranked, penalised for repeated brands, balanced per
  keyword and given a reason.
- Two pieces of the web handler:
  - the request-complexity assessment that picks the agent or the rule mode;
  - the extraction of the generated page's address from the tool's text output.

The outside world is handed to the model as parameters:

- HTTP replies are datatypes (`GeoReply`, `PoiReply`, `SearchReply`).
- The POI search is a function `(keyword, radius, types) -> venues`.
- Square roots, logarithms, powers, cosines, float formatting and float
  parsing are oracle functions with stated properties.

Modules, one per component:

| file | module | models |
|---|---|---|
| common.dfy | Common | `Option`, Python string helpers (`strip`, `split`, `in`, `lower`, `str(int)`, `join`), `min`/`max`, first match, first maximum |
| cache.dfy | Cache | the insertion-ordered FIFO cache (`FifoCache`) with the 30/15 caps |
| geometry.dfy | Geometry | coordinates, the planar squared distance, the distance oracle |
| venues.dfy | Venues | the venue record as the ranking reads it |
| profiles.dfy | Profiles | the brand/category feature table in integer tenths |
| geocoding.dfy | Geocoding | `_enhance_address`, `_extract_city_hint`, `_select_best_poi`, `_geocode_via_poi`, `_get_address_suggestions` |
| resolver.dfy | Resolver | `_geocode` (cache, POI path, retry loop) and `_search_pois` (cache), as the class `AddressResolver` |
| city_inference.dfy | CityInference | `_smart_city_inference` |
| meeting_point.dfy | MeetingPoint | `_calculate_center_point`, `_generate_candidate_points`, the sub-scores of `_evaluate_center_candidate` |
| scoring.dfy | Scoring | base, popularity, distance and scenario components |
| requirements.dfy | Requirements | the three-layer `_calculate_requirement_score` |
| sorting.dfy | Sorting | the stable descending sort `sorted(..., reverse=True)` |
| ranked.dfy | Ranked | the annotations `_rank_places` writes into a venue |
| diversity.dfy | Diversity | `_apply_diversity_adjustment`, in place on an array |
| reasons.dfy | Reasons | `_generate_recommendation_reason` |
| ranking.dfy | Ranking | `_rank_places`: filters, scoring loop, sorts, reasons, per-keyword balancing, truncation |
| search.dfy | Search | the search, fallback and de-duplication section of `execute` |
| complexity.dfy | Complexity | `assess_request_complexity` |
| html_url.dfy | HtmlUrl | the page-address derivation from the tool output |

Where the code does something one might not expect, the model follows the code:

- Rung 2 of the ladder (the same keywords, without the type code) leaves
  `fallback_used` unset.
- A status other than "1", or an empty geocode list, ends the retry loop at
  once.
- The scenario match is a substring test.
- Balancing happens whenever any place carries a source keyword.
- The rating filter reads the top-level `rating` field.
- Removing "分店" from a brand name never changes it, because "店" is removed
  first.
- In the complexity assessment, a `max_distance` of 0 is falsy and counts as
  no filter, while a negative one counts as a filter.
- In `_smart_city_inference`, the 300 km spread check and the late city-hint
  check can never change the result. The spread check applies only to two
  results, and two results are either one city, which the full-agreement
  guard returns for, or two cities, which the tie guard returns for. The late
  hint check repeats a test that has already passed: the hint occurs in every
  city, the main city included. `CityInference.DecideReduced`
  proves that these checks are redundant.

## Model

| member | source | states |
|---|---|---|
| Cache.FifoCache.constructor | app/tool/meetspot_recommender.py:82-85 | a new cache is empty and has the requested capacity (30 for geocodes, 15 for POI searches) |
| Cache.FifoCache.Get | app/tool/meetspot_recommender.py:893-894 | a hit returns the stored value and a miss returns None; the cache is not modified |
| Cache.FifoCache.Put | app/tool/meetspot_recommender.py:908-911 | when full, the oldest key is deleted first, then the key maps to the value; the cache stays within capacity and holds the key |
| Cache.EntriesAfterPut | app/tool/meetspot_recommender.py:955-958 | after an insert the key maps to the new value; another key survives exactly when it was present and was not the oldest key of a full cache |
| Cache.PutKeepsBound | app/tool/meetspot_recommender.py:1338-1341 | an insert into a cache within its cap keeps it within its cap, with no key twice and the new key present |
| Cache.PutEvictsOnlyOldest | app/tool/meetspot_recommender.py:908-910 | the only key an insert can lose is the oldest one, and only when the cache is full; the inserted key is never lost |
| Cache.FullPutShifts | app/tool/meetspot_recommender.py:955-958 | inserting a new key into a full cache drops exactly the oldest key and appends the new one; the size stays at the cap |
| Geometry.SquaredDistance | app/tool/meetspot_recommender.py:2174-2183 | the planar squared distance (85 km per degree of longitude, 111 km per degree of latitude) is never negative |
| Geometry.DistanceSymmetric | app/tool/meetspot_recommender.py:2174-2183 | the distance between two points does not depend on their order |
| Geometry.DistanceAbove | app/tool/meetspot_recommender.py:2174-2183 | a threshold on the distance is the same threshold, squared, on the squared distance |
| Venues.ViewLocation | app/tool/meetspot_recommender.py:1408-1414 | a location without a comma (or empty) reads as no location; otherwise it is a coordinate or malformed |
| Geocoding.EnhanceAddress | app/tool/meetspot_recommender.py:709-739 | empty stays empty; a stripped address found in the ten-entry alias table becomes its full name; any other address is stripped |
| Common.StripLeft | app/tool/meetspot_recommender.py:718 | the left half of `strip()` keeps a suffix of the text that is empty or starts with a non-space character, and every character it drops is white space |
| Common.StripRight | app/tool/meetspot_recommender.py:718 | the right half of `strip()` keeps a prefix of the text that is empty or ends with a non-space character, and every character it drops is white space |
| Common.Strip | app/tool/meetspot_recommender.py:718 | the stripped text neither starts nor ends with white space |
| Common.Words | api/index.py:620 | `split()` words are non-empty and hold no white space |
| Common.WordsAreRuns | api/index.py:620 | `split()` yields one word per word start of the text, in order, and each word is the whole run of non-space characters beginning there |
| Common.StartsFromExact | api/index.py:620 | the listed word starts are exactly the positions holding a non-space character at the beginning or after white space |
| Common.StartsFromIncreasing | api/index.py:620 | the word starts are listed in strictly increasing order |
| Geocoding.AliasTargets | app/tool/meetspot_recommender.py:720-735 | every alias is at most three characters and expands to a longer name with no surrounding blanks |
| Geocoding.EnhanceIdempotent | app/tool/meetspot_recommender.py:709-739 | enhancing an enhanced address changes nothing |
| Geocoding.CityKeywordsDistinct | app/tool/meetspot_recommender.py:743-747 | the twenty city keywords are pairwise different |
| Geocoding.VoteForCounts | app/tool/meetspot_recommender.py:749-755 | one location adds exactly one vote to every city it mentions and touches no other count |
| Geocoding.TallyCounts | app/tool/meetspot_recommender.py:749-755 | after all locations, a city's vote count is the number of locations mentioning it; only mentioned cities appear |
| Geocoding.CityHintChoice | app/tool/meetspot_recommender.py:757-762 | the hint is empty exactly when no city is mentioned; otherwise it is a city keyword with the most votes |
| Geocoding.CastVotes | app/tool/meetspot_recommender.py:749-755 | the voting loop over the city keywords for one location yields the tally `VoteFor` specifies |
| Geocoding.CityHintFirstOfTied | app/tool/meetspot_recommender.py:757-762 | among cities with the most votes the hint is the one voted for first: every city whose first vote came earlier has strictly fewer votes |
| Geocoding.ExtractCityHint | app/tool/meetspot_recommender.py:741-762 | the imperative hint extraction returns `CityHint`, whose choice `CityHintChoice` characterises |
| Geocoding.SelectBestPoi | app/tool/meetspot_recommender.py:809-812 | no POI is chosen exactly when the list is empty; a chosen POI comes from the list |
| Geocoding.SelectBestPoiPriority | app/tool/meetspot_recommender.py:813-828 | the choice is the first case-insensitive exact name match; else, with a city hint, the first POI whose name holds the keyword and whose city holds the hint; else the first name holding the keyword; else the first POI |
| Geocoding.FromPoi | app/tool/meetspot_recommender.py:793-803 | the geocode built from a POI keeps its location, city, province and district; it records the POI name, or the address when the POI has none; its formatted address is the POI's address when non-empty, else that name |
| Geocoding.GeocodeViaPoi | app/tool/meetspot_recommender.py:764-807 | an empty enhanced address gives None; a result comes from a POI of a usable reply; a usable reply for a non-empty address always gives a result |
| Geocoding.VagueAdvice | app/tool/meetspot_recommender.py:835-850 | only vague-term advice, at most one per vague term, and none exactly when the address contains none of the vague terms |
| Geocoding.VagueAdviceExact | app/tool/meetspot_recommender.py:835-850 | a vague-term advice line is given exactly when a vague term with that advice occurs in the address |
| Geocoding.CityAdvice | app/tool/meetspot_recommender.py:853-857 | city-only advice exactly when the address is one of the ten major cities |
| Geocoding.LengthAdvice | app/tool/meetspot_recommender.py:860-867 | short-address advice exactly when the address has at most four characters: the three too-short lines for at most two characters, the three not-detailed lines for three or four |
| Geocoding.SuggestionsShape | app/tool/meetspot_recommender.py:830-890 | the text has a heading, the specific advice (or the general list when none applies) and the five closing tips; an address of at most four characters always gets specific advice |
| Geocoding.SpecificKinds | app/tool/meetspot_recommender.py:835-867 | specific advice never contains the headings |
| Resolver.AttemptsSkipRetries | app/tool/meetspot_recommender.py:920-947 | retryable replies (HTTP error, rate limit, exception) before the last attempt only pass control to the next attempt |
| Resolver.AttemptsDecided | app/tool/meetspot_recommender.py:920-967 | three retryable replies give None; the first accepted reply gives its first geocode; a bad status or an empty list gives None at once |
| Resolver.AttemptsSound | app/tool/meetspot_recommender.py:949-959 | every geocode returned is the first geocode of an accepted reply within the three attempts |
| Resolver.RequestGeocode | app/tool/meetspot_recommender.py:920-967 | the retry loop returns what `Attempts` specifies |
| Resolver.FetchAddress | app/tool/meetspot_recommender.py:904-967 | the POI path first, else the geocode path on the enhanced address, as `Fetch` specifies |
| Resolver.ResolveSources | app/tool/meetspot_recommender.py:892-967 | a resolved address comes from the cache, from a usable POI reply, or from an accepted geocode reply, and only with an API key |
| Resolver.ResolveRemembers | app/tool/meetspot_recommender.py:908-911 | once a result is cached, resolving the same address returns it |
| Resolver.Searched | app/tool/meetspot_recommender.py:1326-1336 | a POI search yields venues exactly for an HTTP 200 answer with status "1" |
| Resolver.IntToDecimalInjective | app/tool/meetspot_recommender.py:1311 | different radii print differently |
| Resolver.PoiCacheKeyInjective | app/tool/meetspot_recommender.py:1311 | with no '_' in location or keywords, the cache key determines location, keywords, radius and types |
| Resolver.AddressResolver.constructor | app/tool/meetspot_recommender.py:82-85 | both caches start empty, with caps 30 and 15 |
| Resolver.AddressResolver.Geocode | app/tool/meetspot_recommender.py:892-967 | returns `Resolve` on the cache before the call; a hit or a failure leaves the cache unchanged; a result is inserted under the original address with FIFO eviction; a missing key is taken from the configuration |
| Resolver.AddressResolver.SearchPois | app/tool/meetspot_recommender.py:1303-1342 | a hit returns the cached list; a failed search returns [] and leaves the cache untouched; a success is inserted with FIFO eviction |
| CityInference.Count | app/tool/meetspot_recommender.py:996 | a count is positive exactly when the city occurs |
| CityInference.CountContaining | app/tool/meetspot_recommender.py:1001 | every city holds the hint exactly when the count is the full length |
| CityInference.MainCity | app/tool/meetspot_recommender.py:1005-1009 | the main city occurs and no city occurs more often |
| CityInference.MainCityFirst | app/tool/meetspot_recommender.py:1005 | among cities with the top count, the main city is the first to appear |
| CityInference.DecideReduced | app/tool/meetspot_recommender.py:980-1029 | the guard chain returns unchanged for fewer than three results (for two results through the tie or full-agreement guard), a hint that some city lacks, a tie, full agreement or a main share below 0.6; the 300 km spread check and the late hint check never decide |
| CityInference.InferredChanges | app/tool/meetspot_recommender.py:1032-1076 | the output has the input's length and order of original locations; an entry changes only when inference applies and the correction changes it |
| CityInference.CorrectedChanges | app/tool/meetspot_recommender.py:1039-1072 | an entry is replaced only when it lies off the main city, more than 100 km on average from the others, and the re-geocoded point is strictly closer on average |
| CityInference.MainCityKept | app/tool/meetspot_recommender.py:1046 | an entry already in the main city is never changed |
| CityInference.AverageDistance | app/tool/meetspot_recommender.py:1040-1043 | the loop computes the mean distance to the other places |
| CityInference.CitiesAndCoords | app/tool/meetspot_recommender.py:984-991 | the collecting loop yields exactly the city list and the coordinate list |
| CityInference.CorrectPlace | app/tool/meetspot_recommender.py:1039-1074 | the correction of one entry returns what `Corrected` specifies, whose changes `CorrectedChanges` limits |
| CityInference.SmartCityInference | app/tool/meetspot_recommender.py:969-1076 | the corrector returns `Inferred`, whose behaviour the lemmas above state |
| MeetingPoint.CenterPoint | app/tool/meetspot_recommender.py:1078-1105 | no centre without coordinates; one point is its own centre; two points meet at their great-circle midpoint |
| MeetingPoint.CenterInBox | app/tool/meetspot_recommender.py:1102-1105 | for three or more points, the centre lies in every box that holds all the points |
| MeetingPoint.CenterOfOnePlace | app/tool/meetspot_recommender.py:1102-1105 | three or more participants at one point meet there |
| MeetingPoint.GridMembers | app/tool/meetspot_recommender.py:1190-1196 | the candidate grid holds every step of the square of half-width g except the centre |
| MeetingPoint.GridSize | app/tool/meetspot_recommender.py:1190-1196 | there are (2g+1)^2 - 1 candidates |
| MeetingPoint.GridIncreasing | app/tool/meetspot_recommender.py:1190-1196 | candidates come row by row, column by column, so none repeats |
| MeetingPoint.PlaceRow | app/tool/meetspot_recommender.py:1191-1196 | the inner loop produces one row of the grid, shifted from the centre |
| MeetingPoint.PlaceGrid | app/tool/meetspot_recommender.py:1190-1196 | the outer loop produces the whole grid, shifted from the centre, row after row |
| MeetingPoint.GenerateCandidates | app/tool/meetspot_recommender.py:1166-1198 | the nested loops produce the grid shifted by the latitude and longitude steps |
| MeetingPoint.DensityScore | app/tool/meetspot_recommender.py:1226-1240 | POI density lies in [0, 40] and is 40 from ten venues on |
| MeetingPoint.TransitScore | app/tool/meetspot_recommender.py:1245-1272 | transit lies in [0, 30]; any metro station gives at least 20; with no metro it is min(15, 5 × bus stops) |
| MeetingPoint.FairnessBounds | app/tool/meetspot_recommender.py:1284-1292 | fairness lies in [5, 30]; it is 30 within 1 km, 20 at 2 km and 10 at 3 km |
| MeetingPoint.FairnessNonIncreasing | app/tool/meetspot_recommender.py:1284-1292 | a larger maximum distance never scores fairer |
| MeetingPoint.MaxDistance | app/tool/meetspot_recommender.py:1280 | the maximum of the distances, or 0 without participants |
| MeetingPoint.CandidateScoreBounds | app/tool/meetspot_recommender.py:1294-1298 | the total of the three sub-scores always lies in [5, 100] |
| MeetingPoint.EvaluateCandidate | app/tool/meetspot_recommender.py:1200-1301 | a candidate's total is density + transit + fairness and lies in [5, 100] |
| Scoring.BaseScore | app/tool/meetspot_recommender.py:1346-1368 | a missing, zero or unparsable rating counts as 3.5 with `_has_rating` false; the score is min(rating, 5) × 6 and at most 30 |
| Scoring.BaseScoreMonotone | app/tool/meetspot_recommender.py:1362-1366 | a higher positive rating never lowers the base score |
| Scoring.PhotoPoints | app/tool/meetspot_recommender.py:1392-1394 | photos give min(2 × photos, 6) |
| Scoring.PopularityScore | app/tool/meetspot_recommender.py:1370-1396 | popularity is at most 20; without reviews it is the photo points |
| Scoring.PopularityBounds | app/tool/meetspot_recommender.py:1370-1396 | with a non-negative logarithm, popularity lies in [0, 20] |
| Scoring.DistancePointsBounds | app/tool/meetspot_recommender.py:1420-1433 | distance points lie in [5, 25]: 25 within 500 m, 5 from 2500 m on |
| Scoring.DistancePointsMonotone | app/tool/meetspot_recommender.py:1420-1433 | a farther venue never gets more distance points |
| Scoring.DistanceScore | app/tool/meetspot_recommender.py:1398-1433 | a missing or malformed location gives (0, infinity); otherwise the distance to the centre and its points |
| Scoring.DistanceScoreBounds | app/tool/meetspot_recommender.py:1398-1433 | a parsable location scores within [5, 25]; any other scores 0 |
| Scoring.FirstWordIn | app/tool/meetspot_recommender.py:1452-1456 | the first keyword that occurs in the venue type |
| Scoring.ScenarioScore | app/tool/meetspot_recommender.py:1435-1458 | the scenario is in {0, 8, 15}: 15 exactly when the source keyword occurs in the keywords; otherwise 8 with the first split keyword that occurs in the type, and 0 with an empty keyword when none does |
| Requirements.RecognizedAmong | app/tool/meetspot_recommender.py:1520-1527 | a requirement is recognised exactly when one of its aliases occurs in the lowered text |
| Requirements.RecognizedDistinct | app/tool/meetspot_recommender.py:1520-1527 | no requirement is recognised twice |
| Requirements.BrandOf | app/tool/meetspot_recommender.py:1554-1566 | the brand used is a brand whose name occurs in the place name |
| Requirements.CategoryOf | app/tool/meetspot_recommender.py:1569-1582 | the category used is a category default whose name occurs in the type or the name |
| Requirements.FirstBrandFrom | app/tool/meetspot_recommender.py:1554-1566 | the first matching brand in table order |
| Requirements.FirstCategoryFrom | app/tool/meetspot_recommender.py:1569-1582 | the first matching category default in table order |
| Requirements.TierCases | app/tool/meetspot_recommender.py:1538-1582 | "high" exactly for a Layer-1 field hit; "medium" only from the first brand with strength ≥ 7 tenths; "low" only from the first category with strength ≥ 8 tenths |
| Requirements.TiersAgree | app/tool/meetspot_recommender.py:1538-1582 | the tier table built pass by pass agrees with the per-requirement tier |
| Requirements.MatchPass | app/tool/meetspot_recommender.py:1538-1582 | one layer loop appends, in order, exactly the unmatched requirements its test accepts, with their tier, and adds the tier's points |
| Requirements.FindBrand | app/tool/meetspot_recommender.py:1554-1561 | the brand loop returns the first brand in table order whose name occurs in the place name |
| Requirements.FindCategory | app/tool/meetspot_recommender.py:1569-1576 | the category loop returns the first category default in table order that occurs in the type or name |
| Requirements.FieldPassAgrees | app/tool/meetspot_recommender.py:1538-1551 | Layer 1 accepts exactly the requirements whose rule finds its value in one of its fields |
| Requirements.BrandPassAgrees | app/tool/meetspot_recommender.py:1553-1566 | Layer 2 accepts exactly the unmatched requirements the brand supports with strength at least 0.7 |
| Requirements.CategoryPassAgrees | app/tool/meetspot_recommender.py:1568-1582 | Layer 3 accepts exactly the unmatched requirements the category supports with strength at least 0.8 |
| Requirements.MatchLayers | app/tool/meetspot_recommender.py:1538-1582 | the three loops produce the matched list, the confidence map and 4/2/1 points per tier |
| Requirements.RequirementScore | app/tool/meetspot_recommender.py:1460-1584 | the method returns the specified score, matched list and confidence map; the map's keys are exactly the matched requirements |
| Requirements.RequirementScoreBounds | app/tool/meetspot_recommender.py:1476-1584 | the score lies in [0, 10]; each requirement is matched at most once and only when recognised and tiered; empty or unrecognised text gives (0, [], {}) |
| Sorting.SortDescPermutes | app/tool/meetspot_recommender.py:2122 | the sort is a permutation of its input |
| Sorting.SortDescSorted | app/tool/meetspot_recommender.py:2122 | the sort orders by non-increasing score |
| Sorting.SortDescStable | app/tool/meetspot_recommender.py:2128 | the sort is stable: equal scores keep their order |
| Sorting.SortDescImage | app/tool/meetspot_recommender.py:2122 | sorting commutes with any map that keeps the scores |
| Ranked.ScorePlace | app/tool/meetspot_recommender.py:2080-2104 | the total is the sum of the five components; no penalty and no reason yet |
| Ranked.ConfidenceMap | app/tool/meetspot_recommender.py:2098-2100 | every key of the stored map is a matched requirement, mapped to its tier |
| Ranked.ScoreBounds | app/tool/meetspot_recommender.py:2025-2030 | the total never exceeds 100 and is never negative for a non-negative rating |
| Ranked.ConfidenceMapAgrees | app/tool/meetspot_recommender.py:2098-2100 | the stored confidence map is the one the requirement score returns |
| Diversity.BranchSuffixRemovalIsNoOp | app/tool/meetspot_recommender.py:1600-1601 | removing "分店" after "店" changes nothing; the brand key holds neither "店" nor "(" |
| Diversity.Penalty | app/tool/meetspot_recommender.py:1614 | the penalty is min(15, 5k): 5k for at most three earlier venues of the brand, 15 from three on, never outside [0, 15] |
| Diversity.Penalize | app/tool/meetspot_recommender.py:1615-1616 | a penalised venue loses exactly the penalty, which is recorded |
| Diversity.CountBrand | app/tool/meetspot_recommender.py:1596-1602 | the number of venues of one brand, at most the number of venues |
| Diversity.DiversifiedPenalties | app/tool/meetspot_recommender.py:1605-1617 | the first venue of a brand is untouched; the k-th repeat loses min(15, 5k) |
| Diversity.DiversifiedVenues | app/tool/meetspot_recommender.py:1586-1619 | the pass keeps every venue in its place |
| Diversity.CountBrands | app/tool/meetspot_recommender.py:1596-1602 | the counting loop yields each brand's number of venues |
| Diversity.ApplyDiversity | app/tool/meetspot_recommender.py:1586-1619 | the in-place pass leaves the array equal to `Diversified` of its old contents |
| Reasons.ReasonsFor | app/tool/meetspot_recommender.py:1630-1673 | one or two reasons: the first two strengths, else the generic one |
| Reasons.Strengths | app/tool/meetspot_recommender.py:1638-1663 | at most five strengths: distance, rating, popularity, requirements and scenario |
| Reasons.ReasonText | app/tool/meetspot_recommender.py:1621-1673 | the reason text is never empty |
| Reasons.ReasonPriority | app/tool/meetspot_recommender.py:1638-1670 | a venue within 500 m leads with its distance; a venue with no strength gets one generic reason |
| Ranking.KeepIf | app/tool/meetspot_recommender.py:2043-2044 | the filter keeps exactly the venues that satisfy the test |
| Ranking.FilterByDistance | app/tool/meetspot_recommender.py:2048-2066 | the distance loop keeps the venues within the limit whose position parses |
| Ranking.KeptVenues | app/tool/meetspot_recommender.py:2039-2066 | a kept venue comes from the input, meets the top-level rating minimum, and lies within the distance limit |
| Ranking.GroupKeys | app/tool/meetspot_recommender.py:2142-2147 | the group keys are exactly the source keywords that occur, each once, no more than there are places |
| Ranking.GroupKeysFirstAppearance | app/tool/meetspot_recommender.py:2142-2147 | the group keys are in order of first appearance: for each earlier key some place of it precedes every place of each later key |
| Ranking.MaxPerKeyword | app/tool/meetspot_recommender.py:2151 | max(2, 8 // groups): at least two per keyword |
| Ranking.BalancedPerKeyword | app/tool/meetspot_recommender.py:2149-2155 | each keyword keeps exactly its first max(2, 8 // groups) places |
| Ranking.PicksOfGroup | app/tool/meetspot_recommender.py:2153-2155 | the picks of one keyword are the first m of its group, and nothing for an absent keyword |
| Ranking.SelectionSize | app/tool/meetspot_recommender.py:2159-2171 | at most 8 places; without keyword tags, the top 6 of the ranked list |
| Ranking.SelectionSorted | app/tool/meetspot_recommender.py:2159-2171 | the selection is ordered by score |
| Ranking.SelectionFromRanked | app/tool/meetspot_recommender.py:2149-2171 | every selected place comes from the ranked list |
| Ranking.ReasonedVenues | app/tool/meetspot_recommender.py:2080-2136 | scoring, sorting, the diversity pass and the reasons keep exactly the kept venues, and the result is sorted |
| Ranking.RankProperties | app/tool/meetspot_recommender.py:2013-2171 | nothing kept gives []; the result has at most 8 places, is sorted by score, and every place comes from the filtered venues |
| Ranking.ScoreVenues | app/tool/meetspot_recommender.py:2080-2104 | the scoring loop annotates every kept venue in order, as `ScoreAll` specifies |
| Ranking.AssignReasons | app/tool/meetspot_recommender.py:2131-2136 | the reason loop writes each place's rule-based reason and keeps the order |
| Ranking.OrderPlaces | app/tool/meetspot_recommender.py:2080-2136 | scoring, sorting, the diversity pass, re-sorting and the reasons yield `Reasoned`, whose venues `ReasonedVenues` states |
| Ranking.GroupByKeyword | app/tool/meetspot_recommender.py:2142-2147 | the grouping loop builds `by_keyword` with insertion-ordered keys |
| Ranking.PickGroups | app/tool/meetspot_recommender.py:2153-2155 | the selection loop takes the first m places of each group, group after group |
| Ranking.RankPlaces | app/tool/meetspot_recommender.py:2013-2171 | the method computes `Rank`, whose properties `RankProperties` states |
| Search.FirstPerKeyPositions | app/tool/meetspot_recommender.py:606-619 | de-duplication keeps exactly the first place of each `name_location`, in input order: the kept places sit at increasing positions, and a position is kept iff no earlier place has its identity |
| Search.FirstPerKeyKeys | app/tool/meetspot_recommender.py:606-619 | de-duplication keeps every identity and only input places |
| Search.FirstPerKeyDistinct | app/tool/meetspot_recommender.py:606-619 | after de-duplication no identity occurs twice |
| Search.FirstPerKeyOfDistinct | app/tool/meetspot_recommender.py:606-619 | a list without repeated identities is unchanged |
| Search.FirstPerKeyIdempotent | app/tool/meetspot_recommender.py:606-619 | de-duplicating twice changes nothing |
| Search.Deduplicate | app/tool/meetspot_recommender.py:606-619 | the loop over `seen` computes `FirstPerKey`, which `FirstPerKeyPositions` shows keeps the first place of each `name_location` in order |
| Search.MergeKeywordResults | app/tool/meetspot_recommender.py:595-604 | the merged list is the tagged results of the keywords in order |
| Search.FallbackRung | app/tool/meetspot_recommender.py:644-660 | a fallback keyword is one of 餐厅, 咖啡馆, 商场, 美食 that differs from the keywords and finds something; none means all of those found nothing |
| Search.FallbackRungFirst | app/tool/meetspot_recommender.py:644-660 | the fallback keyword is the first such category in list order: every category before it is the keywords themselves or finds nothing |
| Search.LadderRungs | app/tool/meetspot_recommender.py:630-675 | a non-empty first search is kept without fallback; rung 2 runs only after an empty first search and sets no fallback; a fallback always comes with places; after two empty searches a chosen category yields that category's search and names it; with no category the wide rung yields the search for 餐厅 within 50 km, labelled "餐厅（扩大范围）" exactly when it finds something; the result is empty iff every rung was |
| Search.TryCategories | app/tool/meetspot_recommender.py:644-660 | the category loop returns the places and keyword `FallbackRung` specifies |
| Search.SearchPlaces | app/tool/meetspot_recommender.py:566-675 | the search section returns `Ladder` |
| Search.NoVenuesMessage | app/tool/meetspot_recommender.py:676-682 | the no-venues message shows both centre coordinates to four decimals |
| Complexity.LocationPart | api/index.py:609-616 | 30 points for four or more places, 15 for three, with one reason each |
| Complexity.MatchedRequirements | api/index.py:630-631 | the number of requirement words found, at most the number of words; 0 exactly when none occurs in the text, all of them exactly when every one occurs |
| Complexity.MatchedCount | api/index.py:630-631 | the count equals the number of requirement-word positions whose word occurs in the text |
| Complexity.KeywordPart | api/index.py:618-626 | 25 points for three or more keywords, 12 for two, with one reason each |
| Complexity.RequirementPart | api/index.py:628-641 | 25, 15, 20 or 0 points, with a reason exactly when points are given; no requirement text gives 0; otherwise 25 exactly for three or more matched words, 15 exactly for two, 20 exactly for fewer than two with a text over 50 characters, and for two or more matches the reason starts with the count |
| Complexity.FilterPart | api/index.py:643-655 | 5 points per active filter and one "有精确筛选条件" reason when any is active |
| Complexity.ScoreRange | api/index.py:606-669 | the raw score lies in [0, 95], so the cap at 100 never changes it |
| Complexity.AssessDecision | api/index.py:657-669 | the agent is used exactly when available with a score of 40 or more; the downgrade reason appears exactly when the score reaches 40 without an agent; the filter reason appears exactly when a filter is active |
| Complexity.DeployedAlwaysRules | api/index.py:53 | with the agent module unavailable, the rule mode is always chosen |
| HtmlUrl.LastHtmlEnd | api/index.py:802 | greedy `[^\s\n]+\.html` takes the longest prefix of the token that ends with ".html" |
| HtmlUrl.HtmlGroup | api/index.py:802 | the captured group has no blanks, at least six characters and the ".html" ending |
| HtmlUrl.PlaceFileAt | api/index.py:820 | a generated file name starts with "place_recommendation_" and ends with ".html" |
| HtmlUrl.Search | api/index.py:802-821 | a search finds nothing exactly when no position matches |
| HtmlUrl.SearchFinds | api/index.py:802-821 | the reported match is the leftmost one |
| HtmlUrl.PageUrl | api/index.py:801-828 | any address found lies under "/workspace/" and ends with ".html" |
| HtmlUrl.PageUrlNone | api/index.py:823-828 | no address exactly when none of the three patterns matches anywhere |
| HtmlUrl.PageUrlOfToolOutput | api/index.py:802-807 | a "HTML页面: <name>" line, with no earlier marker, yields "/workspace/js_src/<name>", as the tool writes it (app/tool/meetspot_recommender.py:3259) |
| HtmlUrl.GeneratedNameMatches | api/index.py:820-824 | every name of the generator's form (prefix, 14 digits, '_', hex digest, ".html") is recognised whole by the third pattern |

## Left out

- HTTP requests, `asyncio.sleep` backoff, the `asyncio.gather` fan-out and the request semaphore: replies are parameters, and attempts are sequential.
- `_llm_smart_ranking`, `_llm_generate_transport_tips`, `_llm_generate_place_reasons` and `_get_llm`: foreign calls. The `_llm_reason` branch of the reason loop is not modelled; every place gets the rule-based reason.
- `math.sqrt`, `math.log10`, `** 1.5`, `math.cos` and the two-point great-circle midpoint are oracle parameters with stated properties, not computed.
- Float formatting (`str(float)`, `:.4f`) and float parsing are oracle parameters. Where the code converts inside a `try` or tests the outcome, a venue carries the converted value as an `Option`, where `None` means the conversion raised. This covers the location, the fallback coordinate, the `biz_ext` rating and the review count. The top-level `rating` is a plain number `topRating`.
- Ranking.KeptVenues: `float(p.get("rating", 0) or 0)` in the rating filter (app/tool/meetspot_recommender.py:2044) is outside any `try`, so with a positive `min_rating` a non-numeric top-level rating raises `ValueError` and ends `_rank_places`. The model has no such venue and no failure outcome for the ranking.
- CityInference.SmartCityInference: `location.split(",")` and the two `float` calls (app/tool/meetspot_recommender.py:990-991 and 1057-1058) are a total `parse` parameter. In the program a location without exactly one comma, or with a non-numeric half, raises `ValueError` out of the corrector; the model has no failure outcome for that.
- `_calculate_smart_center` is never called, so it is not part of this model. `_generate_candidate_points` and `_evaluate_center_candidate` are called only from it (app/tool/meetspot_recommender.py:1130, 1141), so the candidate grid and the candidate scores that `MeetingPoint` models are unreachable in the program too; they are modelled as the functions they are.
- `price_weight_map` in `_rank_places` is built but never used.
- `_generate_html_page`, `_generate_html_content`, `_generate_search_process`, `_format_result_text`, `_cleanup_old_html_files`, the city dataset loading and `PLACE_TYPE_CONFIG` are templating and file work.
- The api/index.py web layer, api/services/seo_content.py and api/routers/seo_pages.py are routing and presentation.
- The geocoding and pre-resolved-coordinate steps of `execute` before line 566 are not part of this model.
- Exceptions from the searches in `execute` are not modelled: neither the per-keyword exceptions that `gather` swallows nor a single-keyword exception that reaches the outer "推荐失败" handler.
- Resolver.AddressResolver.Geocode: the API key read from the environment is a parameter `configKey`.
- CityInference.SmartCityInference: re-geocoding inside the corrector is a pure oracle, so its cache side effect is not modelled.
- Common.Lower lowers ASCII letters only; Python's `str.lower` also lowers non-ASCII letters. No alias or match value is affected.
- HtmlUrl.PlaceFileAt: `\d` is taken as the ASCII digits; Python's `\d` also accepts other Unicode decimal digits.
- Python's dict iteration order is modelled as an insertion-ordered key sequence. The requirement set `user_reqs` is iterated in alias-table order; the score and the matched set do not depend on that order, but the reason text does (see the next line).
- Reasons.ReasonText: `user_reqs` is a Python `set` of strings, whose iteration order depends on the per-process string hash. The order of `matched` within a layer, and so which two requirements the reason names through `matched_reqs[:2]` (app/tool/meetspot_recommender.py:1657-1659), can differ from run to run. The model fixes the alias-table order, which is one of the orders the program may produce.

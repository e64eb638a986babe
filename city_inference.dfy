/**
 * `_smart_city_inference`: when most of the resolved places lie in one city
 * and a few were resolved far away in another, each stray place is looked up
 * again with the main city's name in front, and the new result is kept when
 * it lies closer to the other places.
 */
module CityInference {
  import opened Common
  import opened Geometry
  import opened Geocoding

  /** One resolved place: the text the user typed and the geocoding result. */
  datatype Resolved = Resolved(originalLocation: string, result: Geo)

  /** `result.get("city", "") or result.get("province", "")` */
  function CityOf(g: Geo): string {
    if g.city != [] then g.city else g.province
  }

  /** The city of each place, in order. */
  function Cities(items: seq<Resolved>): seq<string>
  {
    seq(|items|, i requires 0 <= i < |items| => CityOf(items[i].result))
  }

  /** The coordinates of each place; `parse` reads a `"lng,lat"` text. */
  function Coords(items: seq<Resolved>, parse: string -> Coord): seq<Coord>
  {
    seq(|items|, i requires 0 <= i < |items| => parse(items[i].result.location))
  }

  // ----- the counts of `Counter(cities)` -----

  /** How often `x` occurs in `s`. */
  function Count<T(==)>(s: seq<T>, x: T): (n: nat)
    ensures n <= |s|
    ensures n > 0 <==> x in s
    decreases |s|
  {
    if s == [] then 0 else Count(s[..|s| - 1], x) + (if s[|s| - 1] == x then 1 else 0)
  }

  function CountIn<T(==)>(s: seq<T>): T -> nat {
    x => Count(s, x)
  }

  /** `sum(1 for c in cities if city_hint in c)` */
  function CountContaining(cities: seq<string>, hint: string): (n: nat)
    ensures n <= |cities|
    ensures n == |cities| <==> forall i :: 0 <= i < |cities| ==> Contains(cities[i], hint)
    decreases |cities|
  {
    if cities == [] then 0
    else CountContaining(cities[..|cities| - 1], hint) + (if Contains(cities[|cities| - 1], hint) then 1 else 0)
  }

  /**
   * The first key of `Counter(cities).most_common()`: the city, first in order
   * of appearance, that no other city outnumbers.
   */
  function MainCity(cities: seq<string>): (c: string)
    requires cities != []
    ensures c in cities && forall x :: x in cities ==> Count(cities, x) <= Count(cities, c)
  {
    var i := FirstArgMax(cities, CountIn(cities));
    assert forall x :: x in cities ==> exists j :: 0 <= j < |cities| && cities[j] == x;
    cities[i]
  }

  /** Among equally frequent cities, the main one appears first. */
  lemma MainCityFirst(cities: seq<string>, j: nat)
    requires j < |cities| && Count(cities, cities[j]) == Count(cities, MainCity(cities))
    ensures MainCity(cities) in cities[..j + 1]
  {
    var i := FirstArgMax(cities, CountIn(cities));
    assert cities[i] == cities[..j + 1][i];
  }

  /** `main_count == second_count`: another city is as frequent as the main one. */
  predicate Tied(cities: seq<string>, main: string) {
    exists j :: 0 <= j < |cities| && cities[j] != main && Count(cities, cities[j]) == Count(cities, main)
  }

  const NEAR_LIMIT: real := 300000.0
  const STRAY_LIMIT: real := 100000.0

  /**
   * The guards of `_smart_city_inference`, in order: the main city to correct
   * towards, or `None` when the input is left as it is.
   */
  function Decide(cities: seq<string>, coords: seq<Coord>, hint: string, dist: (Coord, Coord) -> real): Option<string>
    requires |coords| == |cities|
  {
    if |cities| < 2 then None
    else if hint != [] && CountContaining(cities, hint) < |cities| then None
    else
      var main := MainCity(cities);
      var mainCount := Count(cities, main);
      if Tied(cities, main) then None
      else if mainCount == |cities| then None
      else if 5 * mainCount < 3 * |cities| then None
      else if |cities| <= 2 && |coords| == 2 && dist(coords[0], coords[1]) > NEAR_LIMIT then None
      else if hint != [] && !Contains(main, hint) then None
      else Some(main)
  }

  lemma CountPair<T>(a: T, b: T, x: T)
    ensures Count([a, b], x) == (if a == x then 1 else 0) + (if b == x then 1 else 0)
  {
    assert [a, b][..1] == [a];
    assert [a][..0] == [];
  }

  /**
   * Two guards never decide: with two places there is never a clear majority
   * short of unanimity, and a hint every city contains is contained in the
   * main city. A correction happens exactly for three or more places, all
   * matching the hint, a unique main city short of unanimity with at least
   * 60% of them.
   */
  lemma DecideReduced(cities: seq<string>, coords: seq<Coord>, hint: string, dist: (Coord, Coord) -> real)
    requires |coords| == |cities|
    ensures Decide(cities, coords, hint, dist) ==
      if |cities| < 3 || (hint != [] && CountContaining(cities, hint) < |cities|) then None
      else
        var main := MainCity(cities);
        if Tied(cities, main) || Count(cities, main) == |cities| || 5 * Count(cities, main) < 3 * |cities| then None
        else Some(main)
  {
    if |cities| == 2 {
      var main := MainCity(cities);
      assert cities == [cities[0], cities[1]];
      CountPair(cities[0], cities[1], cities[0]);
      CountPair(cities[0], cities[1], cities[1]);
      if cities[0] == cities[1] {
        assert Count(cities, main) == 2;
      } else {
        var other := if main == cities[0] then 1 else 0;
        assert cities[other] != main && Count(cities, cities[other]) == Count(cities, main);
      }
    } else if |cities| >= 3 && hint != [] && CountContaining(cities, hint) == |cities| {
      var main := MainCity(cities);
      var j :| 0 <= j < |cities| && cities[j] == main;
      assert Contains(cities[j], hint);
    }
  }

  // ----- the correction of stray places -----

  /** The coordinates of every place but the `i`-th, in order. */
  function Others<T>(s: seq<T>, i: nat): (r: seq<T>)
    requires i < |s|
    ensures |r| == |s| - 1
  {
    s[..i] + s[i + 1..]
  }

  /** `sum(dist(p, c) for c in qs)`, added left to right. */
  function SumDistances(p: Coord, qs: seq<Coord>, dist: (Coord, Coord) -> real): real
    decreases |qs|
  {
    if qs == [] then 0.0 else SumDistances(p, qs[..|qs| - 1], dist) + dist(p, qs[|qs| - 1])
  }

  /** The average distance from `p` to the places of `qs`. */
  function MeanDistance(p: Coord, qs: seq<Coord>, dist: (Coord, Coord) -> real): real
    requires qs != []
  {
    SumDistances(p, qs, dist) / (|qs| as real)
  }

  /** The `i`-th place after the correction pass towards `main`. */
  function Corrected(items: seq<Resolved>, coords: seq<Coord>, i: nat, main: string, parse: string -> Coord,
                     dist: (Coord, Coord) -> real, regeocode: string -> Option<Geo>): Resolved
    requires 1 < |items| == |coords| && i < |items|
  {
    var others := Others(coords, i);
    var avg := MeanDistance(coords[i], others, dist);
    var item := items[i];
    if avg > STRAY_LIMIT && CityOf(item.result) != main then
      match regeocode(main + item.originalLocation)
      case None => item
      case Some(g) =>
        if MeanDistance(parse(g.location), others, dist) < avg then Resolved(item.originalLocation, g) else item
    else item
  }

  /** `_smart_city_inference`; `regeocode` stands for `_geocode` on the prefixed address. */
  function Inferred(items: seq<Resolved>, hint: string, parse: string -> Coord,
                    dist: (Coord, Coord) -> real, regeocode: string -> Option<Geo>): seq<Resolved>
  {
    var coords := Coords(items, parse);
    match Decide(Cities(items), coords, hint, dist)
    case None => items
    case Some(main) =>
      seq(|items|, i requires 0 <= i < |items| => Corrected(items, coords, i, main, parse, dist, regeocode))
  }

  /**
   * The pass keeps the places and their order; a place changes only when it
   * lay in another city than the main one, more than 100 km from the others on
   * average, and its new result, the lookup of the main city's name followed by
   * its text, lies closer to them.
   */
  lemma InferredChanges(items: seq<Resolved>, hint: string, parse: string -> Coord,
                        dist: (Coord, Coord) -> real, regeocode: string -> Option<Geo>, i: nat)
    requires i < |items|
    ensures |Inferred(items, hint, parse, dist, regeocode)| == |items|
    ensures Inferred(items, hint, parse, dist, regeocode)[i].originalLocation == items[i].originalLocation
    ensures Inferred(items, hint, parse, dist, regeocode)[i] != items[i] ==>
      var main := MainCity(Cities(items));
      var coords := Coords(items, parse);
      var g := Inferred(items, hint, parse, dist, regeocode)[i].result;
      && |items| >= 3
      && Decide(Cities(items), coords, hint, dist) == Some(main)
      && CityOf(items[i].result) != main
      && MeanDistance(coords[i], Others(coords, i), dist) > STRAY_LIMIT
      && regeocode(main + items[i].originalLocation) == Some(g)
      && MeanDistance(parse(g.location), Others(coords, i), dist) < MeanDistance(coords[i], Others(coords, i), dist)
  {
    var coords := Coords(items, parse);
    DecideReduced(Cities(items), coords, hint, dist);
    var d := Decide(Cities(items), coords, hint, dist);
    if d.Some? {
      CorrectedChanges(items, coords, i, d.value, parse, dist, regeocode);
    }
  }

  lemma CorrectedChanges(items: seq<Resolved>, coords: seq<Coord>, i: nat, main: string, parse: string -> Coord,
                         dist: (Coord, Coord) -> real, regeocode: string -> Option<Geo>)
    requires 1 < |items| == |coords| && i < |items|
    ensures Corrected(items, coords, i, main, parse, dist, regeocode).originalLocation == items[i].originalLocation
    ensures Corrected(items, coords, i, main, parse, dist, regeocode) != items[i] ==>
      var g := Corrected(items, coords, i, main, parse, dist, regeocode).result;
      && CityOf(items[i].result) != main
      && MeanDistance(coords[i], Others(coords, i), dist) > STRAY_LIMIT
      && regeocode(main + items[i].originalLocation) == Some(g)
      && MeanDistance(parse(g.location), Others(coords, i), dist) < MeanDistance(coords[i], Others(coords, i), dist)
  {
  }

  /** Places already in the main city are never touched. */
  lemma MainCityKept(items: seq<Resolved>, hint: string, parse: string -> Coord,
                     dist: (Coord, Coord) -> real, regeocode: string -> Option<Geo>, i: nat)
    requires 1 < |items| && i < |items|
    requires CityOf(items[i].result) == MainCity(Cities(items))
    ensures Inferred(items, hint, parse, dist, regeocode)[i] == items[i]
  {
  }

  /** The average distance loop: `sum(...) / len(other_coords)`. */
  method AverageDistance(p: Coord, others: seq<Coord>, dist: (Coord, Coord) -> real) returns (avg: real)
    requires others != []
    ensures avg == MeanDistance(p, others, dist)
  {
    var total := 0.0;
    for k := 0 to |others|
      invariant total == SumDistances(p, others[..k], dist)
    {
      assert others[..k + 1][..k] == others[..k];
      total := total + dist(p, others[k]);
    }
    assert others[..|others|] == others;
    avg := total / (|others| as real);
  }

  /** The first loop: the city and the coordinates of each place. */
  method CitiesAndCoords(items: seq<Resolved>, parse: string -> Coord) returns (cities: seq<string>, coords: seq<Coord>)
    ensures cities == Cities(items) && coords == Coords(items, parse)
  {
    cities, coords := [], [];
    for i := 0 to |items|
      invariant cities == Cities(items[..i]) && coords == Coords(items[..i], parse)
    {
      cities := cities + [CityOf(items[i].result)];
      coords := coords + [parse(items[i].result.location)];
    }
    assert items[..|items|] == items;
  }

  /** One turn of the correction loop. */
  method CorrectPlace(items: seq<Resolved>, coords: seq<Coord>, i: nat, main: string, parse: string -> Coord,
                      dist: (Coord, Coord) -> real, regeocode: string -> Option<Geo>) returns (next: Resolved)
    requires 1 < |items| == |coords| && i < |items|
    ensures next == Corrected(items, coords, i, main, parse, dist, regeocode)
  {
    var item := items[i];
    var others := Others(coords, i);
    var avg := AverageDistance(coords[i], others, dist);
    next := item;
    if avg > STRAY_LIMIT && CityOf(item.result) != main {
      var newResult := regeocode(main + item.originalLocation);
      if newResult.Some? {
        var newAvg := AverageDistance(parse(newResult.value.location), others, dist);
        if newAvg < avg {
          next := Resolved(item.originalLocation, newResult.value);
        }
      }
    }
  }

  /** `_smart_city_inference`, with its loops over the places. */
  method SmartCityInference(items: seq<Resolved>, hint: string, parse: string -> Coord,
                            dist: (Coord, Coord) -> real, regeocode: string -> Option<Geo>)
    returns (updated: seq<Resolved>)
    ensures updated == Inferred(items, hint, parse, dist, regeocode)
  {
    if |items| < 2 {
      return items;
    }
    var cities, coords := CitiesAndCoords(items, parse);
    var decision := Decide(cities, coords, hint, dist);
    if decision.None? {
      return items;
    }
    var main := decision.value;
    assert Inferred(items, hint, parse, dist, regeocode)
      == seq(|items|, i requires 0 <= i < |items| => Corrected(items, coords, i, main, parse, dist, regeocode));
    updated := [];
    for i := 0 to |items|
      invariant |updated| == i
      invariant forall k :: 0 <= k < i ==> updated[k] == Corrected(items, coords, k, main, parse, dist, regeocode)
    {
      var next := CorrectPlace(items, coords, i, main, parse, dist, regeocode);
      ghost var before := updated;
      updated := updated + [next];
      forall k | 0 <= k < i + 1
        ensures updated[k] == Corrected(items, coords, k, main, parse, dist, regeocode)
      {
        if k < i {
          assert updated[k] == before[k];
        }
      }
    }
  }
}

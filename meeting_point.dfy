/**
 * The meeting point: `_calculate_center_point` (the centre of the
 * participants), `_generate_candidate_points` (a grid of alternative centres
 * around it) and the sub-scores `_evaluate_center_candidate` gives a candidate.
 */
module MeetingPoint {
  import opened Common
  import opened Geometry

  // ----- the centre -----

  function Sum(xs: seq<real>): real
    decreases |xs|
  {
    if xs == [] then 0.0 else Sum(xs[..|xs| - 1]) + xs[|xs| - 1]
  }

  function Lngs(cs: seq<Coord>): (r: seq<real>)
    ensures |r| == |cs| && forall i :: 0 <= i < |cs| ==> r[i] == cs[i].lng
  {
    seq(|cs|, i requires 0 <= i < |cs| => cs[i].lng)
  }

  function Lats(cs: seq<Coord>): (r: seq<real>)
    ensures |r| == |cs| && forall i :: 0 <= i < |cs| ==> r[i] == cs[i].lat
  {
    seq(|cs|, i requires 0 <= i < |cs| => cs[i].lat)
  }

  /** `sum(xs) / len(xs)` */
  function Average(xs: seq<real>): real
    requires xs != []
  {
    Sum(xs) / |xs| as real
  }

  /** The arithmetic mean of the coordinates, component by component. */
  function Mean(cs: seq<Coord>): Coord
    requires cs != []
  {
    Coord(Average(Lngs(cs)), Average(Lats(cs)))
  }

  /**
   * `_calculate_center_point`: no coordinates is an error (`None`), one is its
   * own centre, two meet at the great-circle midpoint `midpoint` computes,
   * three or more at their arithmetic mean.
   */
  function CenterPoint(coords: seq<Coord>, midpoint: (Coord, Coord) -> Coord): (c: Option<Coord>)
    ensures c.None? <==> coords == []
    ensures |coords| == 1 ==> c == Some(coords[0])
    ensures |coords| == 2 ==> c == Some(midpoint(coords[0], coords[1]))
  {
    if coords == [] then None
    else if |coords| == 1 then Some(coords[0])
    else if |coords| == 2 then Some(midpoint(coords[0], coords[1]))
    else Some(Mean(coords))
  }

  /** A sum of `n` values in `[lo, hi]` lies in `[n * lo, n * hi]`. */
  lemma {:induction false} SumBounds(xs: seq<real>, lo: real, hi: real)
    requires forall i :: 0 <= i < |xs| ==> lo <= xs[i] <= hi
    ensures |xs| as real * lo <= Sum(xs) <= |xs| as real * hi
    decreases |xs|
  {
    if xs != [] {
      SumBounds(xs[..|xs| - 1], lo, hi);
    }
  }

  /** A sum of `n` copies of `x` is `n * x`. */
  lemma {:induction false} SumConstant(xs: seq<real>, x: real)
    requires forall i :: 0 <= i < |xs| ==> xs[i] == x
    ensures Sum(xs) == |xs| as real * x
    decreases |xs|
  {
    if xs != [] {
      SumConstant(xs[..|xs| - 1], x);
    }
  }

  /** Dividing by a positive `n` keeps the order: `n * a <= n * b` gives `a <= b`. */
  lemma CancelFactor(n: real, a: real, b: real)
    requires n > 0.0 && n * a <= n * b
    ensures a <= b
  {
    assert n * (b - a) >= 0.0;
  }

  lemma DivCancel(n: real, x: real)
    requires n > 0.0
    ensures (n * x) / n == x
  {
  }

  /** An average of values in `[lo, hi]` lies in `[lo, hi]`. */
  lemma AverageBetween(xs: seq<real>, lo: real, hi: real)
    requires xs != [] && forall i :: 0 <= i < |xs| ==> lo <= xs[i] <= hi
    ensures lo <= Average(xs) <= hi
  {
    var n := |xs| as real;
    SumBounds(xs, lo, hi);
    var m := Average(xs);
    assert Sum(xs) == n * m;
    CancelFactor(n, lo, m);
    CancelFactor(n, m, hi);
  }

  /** The average of copies of `x` is `x`. */
  lemma AverageConstant(xs: seq<real>, x: real)
    requires xs != [] && forall i :: 0 <= i < |xs| ==> xs[i] == x
    ensures Average(xs) == x
  {
    SumConstant(xs, x);
    DivCancel(|xs| as real, x);
  }

  /**
   * With three or more participants the centre lies in every box that holds
   * all of them: it never leaves their longitude and latitude ranges.
   */
  lemma CenterInBox(coords: seq<Coord>, midpoint: (Coord, Coord) -> Coord, lo: Coord, hi: Coord)
    requires |coords| >= 3
    requires forall i :: 0 <= i < |coords| ==> lo.lng <= coords[i].lng <= hi.lng && lo.lat <= coords[i].lat <= hi.lat
    ensures var c := CenterPoint(coords, midpoint).value;
      lo.lng <= c.lng <= hi.lng && lo.lat <= c.lat <= hi.lat
  {
    AverageBetween(Lngs(coords), lo.lng, hi.lng);
    AverageBetween(Lats(coords), lo.lat, hi.lat);
  }

  /** Participants who all stand at one point (three or more of them) meet there. */
  lemma CenterOfOnePlace(coords: seq<Coord>, midpoint: (Coord, Coord) -> Coord, p: Coord)
    requires |coords| >= 3 && forall i :: 0 <= i < |coords| ==> coords[i] == p
    ensures CenterPoint(coords, midpoint) == Some(p)
  {
    AverageConstant(Lngs(coords), p.lng);
    AverageConstant(Lats(coords), p.lat);
  }

  // ----- the candidate grid -----

  /** The grid steps of every row and column, each a pair (row i, column j). */
  type Offset = (int, int)

  /** Columns `-g .. -g + m - 1` of row `i`, leaving out the centre. */
  function Row(i: int, g: nat, m: nat): seq<Offset>
    requires m <= 2 * g + 1
  {
    if m == 0 then []
    else Row(i, g, m - 1) + (if i == 0 && -(g as int) + m - 1 == 0 then [] else [(i, -(g as int) + m - 1)])
  }

  /** Rows `-g .. -g + n - 1`, each in full. */
  function Rows(g: nat, n: nat): seq<Offset>
    requires n <= 2 * g + 1
  {
    if n == 0 then [] else Rows(g, n - 1) + Row(-(g as int) + n - 1, g, 2 * g + 1)
  }

  /** The offsets `_generate_candidate_points` visits, in its order: row by row, column by column. */
  function Grid(g: nat): seq<Offset> {
    Rows(g, 2 * g + 1)
  }

  predicate InGrid(o: Offset, g: nat) {
    -(g as int) <= o.0 <= g && -(g as int) <= o.1 <= g && o != (0, 0)
  }

  lemma {:induction false} RowMembers(i: int, g: nat, m: nat, o: Offset)
    requires m <= 2 * g + 1
    ensures o in Row(i, g, m) <==> o.0 == i && -(g as int) <= o.1 < -(g as int) + m && o != (0, 0)
    decreases m
  {
    if m > 0 {
      RowMembers(i, g, m - 1, o);
    }
  }

  lemma {:induction false} RowsMembers(g: nat, n: nat, o: Offset)
    requires n <= 2 * g + 1
    ensures o in Rows(g, n) <==> -(g as int) <= o.0 < -(g as int) + n && -(g as int) <= o.1 <= g && o != (0, 0)
    decreases n
  {
    if n > 0 {
      var row := Row(-(g as int) + n - 1, g, 2 * g + 1);
      assert o in Rows(g, n) <==> o in Rows(g, n - 1) || o in row;
      RowsMembers(g, n - 1, o);
      RowMembers(-(g as int) + n - 1, g, 2 * g + 1, o);
    }
  }

  /** Every step of the square grid of half-width `g` is visited, except the centre itself. */
  lemma GridMembers(g: nat, o: Offset)
    ensures o in Grid(g) <==> InGrid(o, g)
  {
    RowsMembers(g, 2 * g + 1, o);
  }

  lemma {:induction false} RowSize(i: int, g: nat, m: nat)
    requires m <= 2 * g + 1
    ensures |Row(i, g, m)| == if i == 0 && g < m then m - 1 else m
    decreases m
  {
    if m > 0 {
      RowSize(i, g, m - 1);
    }
  }

  lemma {:induction false} RowsSize(g: nat, n: nat)
    requires n <= 2 * g + 1
    ensures |Rows(g, n)| == if g < n then n * (2 * g + 1) - 1 else n * (2 * g + 1)
    decreases n
  {
    if n > 0 {
      RowsSize(g, n - 1);
      RowSize(-(g as int) + n - 1, g, 2 * g + 1);
    }
  }

  /** `(2g + 1)^2 - 1` candidates: the full square without its centre. */
  lemma GridSize(g: nat)
    ensures |Grid(g)| == (2 * g + 1) * (2 * g + 1) - 1
  {
    RowsSize(g, 2 * g + 1);
  }

  /** Row-major order: row first, then column. */
  predicate Before(a: Offset, b: Offset) {
    a.0 < b.0 || (a.0 == b.0 && a.1 < b.1)
  }

  predicate Increasing(s: seq<Offset>) {
    forall k, l :: 0 <= k < l < |s| ==> Before(s[k], s[l])
  }

  lemma {:induction false} RowRange(i: int, g: nat, m: nat)
    requires m <= 2 * g + 1
    ensures forall o :: o in Row(i, g, m) ==> o.0 == i && -(g as int) <= o.1 < -(g as int) + m
    decreases m
  {
    if m > 0 {
      RowRange(i, g, m - 1);
    }
  }

  lemma {:induction false} RowsRange(g: nat, n: nat)
    requires n <= 2 * g + 1
    ensures forall o :: o in Rows(g, n) ==> -(g as int) <= o.0 < -(g as int) + n
    decreases n
  {
    if n > 0 {
      RowsRange(g, n - 1);
      RowRange(-(g as int) + n - 1, g, 2 * g + 1);
    }
  }

  /** Two increasing runs, the first wholly before the second, make one. */
  lemma IncreasingAppend(a: seq<Offset>, b: seq<Offset>)
    requires Increasing(a) && Increasing(b)
    requires forall x, y :: x in a && y in b ==> Before(x, y)
    ensures Increasing(a + b)
  {
    forall k, l | 0 <= k < l < |a + b|
      ensures Before((a + b)[k], (a + b)[l])
    {
      if l < |a| {
      } else if k >= |a| {
        assert (a + b)[k] == b[k - |a|] && (a + b)[l] == b[l - |a|];
      } else {
        assert (a + b)[k] in a && (a + b)[l] in b;
      }
    }
  }

  lemma {:induction false} RowIncreasing(i: int, g: nat, m: nat)
    requires m <= 2 * g + 1
    ensures Increasing(Row(i, g, m))
    decreases m
  {
    if m > 0 {
      var last: seq<Offset> := if i == 0 && -(g as int) + m - 1 == 0 then [] else [(i, -(g as int) + m - 1)];
      RowIncreasing(i, g, m - 1);
      RowRange(i, g, m - 1);
      IncreasingAppend(Row(i, g, m - 1), last);
    }
  }

  lemma {:induction false} RowsIncreasing(g: nat, n: nat)
    requires n <= 2 * g + 1
    ensures Increasing(Rows(g, n))
    decreases n
  {
    if n > 0 {
      var row := Row(-(g as int) + n - 1, g, 2 * g + 1);
      RowsIncreasing(g, n - 1);
      RowIncreasing(-(g as int) + n - 1, g, 2 * g + 1);
      RowsRange(g, n - 1);
      RowRange(-(g as int) + n - 1, g, 2 * g + 1);
      IncreasingAppend(Rows(g, n - 1), row);
    }
  }

  /** The candidates come in row-major order, so no step is visited twice. */
  lemma GridIncreasing(g: nat)
    ensures Increasing(Grid(g))
    ensures forall k, l :: 0 <= k < l < |Grid(g)| ==> Grid(g)[k] != Grid(g)[l]
  {
    RowsIncreasing(g, 2 * g + 1);
  }

  /** The candidate at each offset: column `j` moves east by `j` longitude steps, row `i` north by `i` latitude steps. */
  function Shift(center: Coord, stepLng: real, stepLat: real, o: Offset): Coord {
    Coord(center.lng + o.1 as real * stepLng, center.lat + o.0 as real * stepLat)
  }

  function Shifts(center: Coord, stepLng: real, stepLat: real, os: seq<Offset>): (r: seq<Coord>)
    ensures |r| == |os| && forall k :: 0 <= k < |os| ==> r[k] == Shift(center, stepLng, stepLat, os[k])
  {
    seq(|os|, k requires 0 <= k < |os| => Shift(center, stepLng, stepLat, os[k]))
  }

  lemma ShiftsSnoc(center: Coord, stepLng: real, stepLat: real, os: seq<Offset>, o: Offset)
    ensures Shifts(center, stepLng, stepLat, os + [o]) ==
      Shifts(center, stepLng, stepLat, os) + [Shift(center, stepLng, stepLat, o)]
  {
  }

  lemma ShiftsAppend(center: Coord, stepLng: real, stepLat: real, a: seq<Offset>, b: seq<Offset>)
    ensures Shifts(center, stepLng, stepLat, a + b) == Shifts(center, stepLng, stepLat, a) + Shifts(center, stepLng, stepLat, b)
  {
  }

  /** The inner loop of `_generate_candidate_points`: row `i`, column by column, skipping the centre. */
  method PlaceRow(center: Coord, stepLng: real, stepLat: real, g: nat, i: int) returns (points: seq<Coord>)
    ensures points == Shifts(center, stepLng, stepLat, Row(i, g, 2 * g + 1))
  {
    points := [];
    for j := -(g as int) to g + 1
      invariant points == Shifts(center, stepLng, stepLat, Row(i, g, j + g))
    {
      if !(i == 0 && j == 0) {
        var newLng := center.lng + j as real * stepLng;
        var newLat := center.lat + i as real * stepLat;
        ShiftsSnoc(center, stepLng, stepLat, Row(i, g, j + g), (i, j));
        assert Coord(newLng, newLat) == Shift(center, stepLng, stepLat, (i, j));
        points := points + [Coord(newLng, newLat)];
      } else {
        assert Row(i, g, j + g + 1) == Row(i, g, j + g) + [];
      }
    }
  }

  /** The outer loop of `_generate_candidate_points`: the rows from south to north. */
  method PlaceGrid(center: Coord, stepLng: real, stepLat: real, g: nat) returns (candidates: seq<Coord>)
    ensures candidates == Shifts(center, stepLng, stepLat, Grid(g))
  {
    candidates := [];
    for i := -(g as int) to g + 1
      invariant candidates == Shifts(center, stepLng, stepLat, Rows(g, i + g))
    {
      var points := PlaceRow(center, stepLng, stepLat, g, i);
      assert Rows(g, i + g + 1) == Rows(g, i + g) + Row(i, g, 2 * g + 1);
      ShiftsAppend(center, stepLng, stepLat, Rows(g, i + g), Row(i, g, 2 * g + 1));
      candidates := candidates + points;
    }
  }

  /**
   * `_generate_candidate_points`. `cosLat` is `cos(radians(center.lat))`,
   * which the grid's longitude step divides by.
   */
  method GenerateCandidates(center: Coord, radiusKm: real, gridSize: nat, cosLat: real)
    returns (candidates: seq<Coord>)
    requires gridSize > 0 && cosLat != 0.0
    ensures var stepLat := radiusKm / 111.0 / gridSize as real;
      var stepLng := radiusKm / (111.0 * cosLat) / gridSize as real;
      candidates == Shifts(center, stepLng, stepLat, Grid(gridSize))
  {
    var latOffset := radiusKm / 111.0;
    var lngOffset := radiusKm / (111.0 * cosLat);
    var stepLat := latOffset / gridSize as real;
    var stepLng := lngOffset / gridSize as real;
    candidates := PlaceGrid(center, stepLng, stepLat, gridSize);
  }

  // ----- scoring a candidate -----

  /** The outcome of one `_search_pois` call made while scoring: its number of results, or an exception. */
  datatype Lookup = Found(count: nat) | Raised

  /** POI density, out of 40: four points per venue found, 10 when the search fails. */
  function DensityScore(pois: Lookup): (s: int)
    ensures 0 <= s <= 40
    ensures pois.Found? && pois.count >= 10 ==> s == 40
  {
    match pois
    case Raised => 10
    case Found(n) => Min(40, n * 4)
  }

  /**
   * Transit, out of 30: two metro stations 30, one 20; with none, five points
   * per bus stop up to 15. A failing search gives 10.
   */
  function TransitScore(metro: Lookup, bus: Lookup): (s: int)
    ensures 0 <= s <= 30
    ensures metro.Found? && metro.count >= 1 ==> s >= 20
    ensures metro.Found? && metro.count == 0 && bus.Found? ==> s == Min(15, 5 * bus.count)
  {
    match metro
    case Raised => 10
    case Found(m) =>
      if m >= 2 then 30
      else if m == 1 then 20
      else match bus
        case Raised => 10
        case Found(b) => Min(15, b * 5)
  }

  /** Fairness, out of 30, from the largest participant distance in metres. */
  function FairnessScore(maxDistance: real): real {
    if maxDistance <= 1000.0 then 30.0
    else if maxDistance <= 2000.0 then 25.0 - (maxDistance - 1000.0) / 200.0
    else if maxDistance <= 3000.0 then 15.0 - (maxDistance - 2000.0) / 200.0
    else MaxR(5.0, 10.0 - (maxDistance - 3000.0) / 500.0)
  }

  /** Fairness lies in [5, 30]; 30 within 1 km, 20 at 2 km, 10 at 3 km. */
  lemma FairnessBounds(d: real)
    ensures 5.0 <= FairnessScore(d) <= 30.0
    ensures d <= 1000.0 ==> FairnessScore(d) == 30.0
    ensures FairnessScore(2000.0) == 20.0 && FairnessScore(3000.0) == 10.0
  {
  }

  /** A candidate never scores fairer when its farthest participant is farther away. */
  lemma FairnessNonIncreasing(d1: real, d2: real)
    requires d1 <= d2
    ensures FairnessScore(d2) <= FairnessScore(d1)
  {
  }

  /** `max(distances) if distances else 0` */
  function MaxDistance(ds: seq<real>): (m: real)
    ensures ds == [] ==> m == 0.0
    ensures forall i :: 0 <= i < |ds| ==> ds[i] <= m
    ensures ds != [] ==> m in ds
    decreases |ds|
  {
    if ds == [] then 0.0
    else if |ds| == 1 then ds[0]
    else MaxR(MaxDistance(ds[..|ds| - 1]), ds[|ds| - 1])
  }

  /** The candidate's total: density + transit + fairness. */
  function CandidateScore(pois: Lookup, metro: Lookup, bus: Lookup, distances: seq<real>): real {
    DensityScore(pois) as real + TransitScore(metro, bus) as real + FairnessScore(MaxDistance(distances))
  }

  /** A candidate scores between 5 and 100. */
  lemma CandidateScoreBounds(pois: Lookup, metro: Lookup, bus: Lookup, distances: seq<real>)
    ensures 5.0 <= CandidateScore(pois, metro, bus, distances) <= 100.0
  {
    FairnessBounds(MaxDistance(distances));
  }

  /** The distance from the candidate to each participant, in order. */
  function DistancesTo(candidate: Coord, participants: seq<Coord>, dist: (Coord, Coord) -> real): seq<real>
  {
    seq(|participants|, i requires 0 <= i < |participants| => dist(candidate, participants[i]))
  }

  /**
   * `_evaluate_center_candidate`: the searches are given by their outcomes
   * (the bus search is consulted only without a metro station), the distances
   * by `dist`.
   */
  method EvaluateCandidate(candidate: Coord, participants: seq<Coord>, pois: Lookup, metro: Lookup, bus: Lookup,
                           dist: (Coord, Coord) -> real)
    returns (total: real)
    ensures total == CandidateScore(pois, metro, bus, DistancesTo(candidate, participants, dist))
    ensures 5.0 <= total <= 100.0
  {
    var distances: seq<real> := [];
    for i := 0 to |participants|
      invariant distances == DistancesTo(candidate, participants[..i], dist)
    {
      distances := distances + [dist(candidate, participants[i])];
    }
    assert participants[..|participants|] == participants;
    var maxDistance := MaxDistance(distances);
    total := DensityScore(pois) as real + TransitScore(metro, bus) as real + FairnessScore(maxDistance);
    CandidateScoreBounds(pois, metro, bus, distances);
  }
}

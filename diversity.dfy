/**
 * `_apply_diversity_adjustment`: chain stores of one brand are spread out.
 * A venue's brand is its name up to the first `(` or `（`, with every `店`
 * deleted. When a brand occurs more than once in the list, its first venue
 * keeps its score and the k-th repeat (k >= 1) loses `min(15, 5k)` points,
 * recorded as its diversity penalty. The list keeps its length and order.
 */
module Diversity {
  import opened Common
  import opened Ranked

  /** `name.split("(")[0].split("（")[0].replace("店", "").replace("分店", "")` */
  function BrandKey(name: string): string {
    RemoveAll(RemoveAll(Before(Before(name, '('), '（'), "店"), "分店")
  }

  /** Deleting a one-character pattern leaves no occurrence of that character. */
  lemma {:induction false} RemoveAllGone(s: string, c: char)
    ensures c !in RemoveAll(s, [c])
    decreases |s|
  {
    if s != [] {
      RemoveAllGone(s[1..], c);
      if !IsPrefix([c], s) {
        assert s[0] != c;
      }
    }
  }

  /** Deleting `分店` from text holding no `店` changes nothing. */
  lemma {:induction false} RemoveAbsent(s: string)
    requires '店' !in s
    ensures RemoveAll(s, "分店") == s
    decreases |s|
  {
    if s != [] {
      assert !IsPrefix("分店", s) by {
        if |s| >= 2 {
          assert s[1] in s;
        }
      }
      RemoveAbsent(s[1..]);
      assert s == [s[0]] + s[1..];
    }
  }

  /**
   * The second `replace` never fires: once every `店` is gone, no `分店` is
   * left, so the brand key is the name's head with `店` removed and nothing else.
   */
  lemma BranchSuffixRemovalIsNoOp(name: string)
    ensures BrandKey(name) == RemoveAll(Before(Before(name, '('), '（'), "店")
    ensures '店' !in BrandKey(name) && '(' !in BrandKey(name)
  {
    var head := Before(Before(name, '('), '（');
    RemoveAllGone(head, '店');
    RemoveAbsent(RemoveAll(head, "店"));
    RemoveAllOmits(head, "店", '(');
  }

  /** Deleting a pattern introduces no new character. */
  lemma {:induction false} RemoveAllOmits(s: string, p: string, c: char)
    requires p != [] && c !in s
    ensures c !in RemoveAll(s, p)
    decreases |s|
  {
    if s != [] {
      if IsPrefix(p, s) {
        RemoveAllOmits(s[|p|..], p, c);
      } else {
        RemoveAllOmits(s[1..], p, c);
      }
    }
  }

  /**
   * The pass below is stated for any way `brandOf` of reading a brand off a
   * name; the recommender uses `BrandKey`.
   */

  /** How many venues of `places` carry brand `b`. */
  function CountBrand(places: seq<Ranked>, brandOf: string -> string, b: string): (n: nat)
    ensures n <= |places|
    decreases |places|
  {
    if places == [] then 0
    else CountBrand(places[..|places| - 1], brandOf, b) + (if brandOf(places[|places| - 1].venue.name) == b then 1 else 0)
  }

  /** The penalty of a venue that follows `seen` earlier venues of its brand. */
  function Penalty(seen: nat): (p: int)
    ensures 0 <= p <= 15
    ensures seen <= 3 ==> p == 5 * seen
    ensures seen >= 3 ==> p == 15
  {
    Min(15, seen * 5)
  }

  /** A venue that follows `seen` earlier venues of its brand loses `Penalty(seen)` points. */
  function Penalize(p: Ranked, seen: nat): (q: Ranked)
    ensures q.venue == p.venue && q.reason == p.reason
    ensures q.score == p.score - Penalty(seen) as real && q.diversityPenalty == Some(Penalty(seen))
  {
    p.(score := p.score - Penalty(seen) as real, diversityPenalty := Some(Penalty(seen)))
  }

  /** The venue at `i` after the pass. */
  function Adjusted(places: seq<Ranked>, brandOf: string -> string, i: nat): Ranked
    requires i < |places|
  {
    var p := places[i];
    var b := brandOf(p.venue.name);
    var seen := CountBrand(places[..i], brandOf, b);
    if CountBrand(places, brandOf, b) > 1 && seen > 0 then Penalize(p, seen) else p
  }

  /** The list after the diversity pass. */
  function Diversified(places: seq<Ranked>, brandOf: string -> string): (r: seq<Ranked>)
    ensures |r| == |places|
  {
    seq(|places|, i requires 0 <= i < |places| => Adjusted(places, brandOf, i))
  }

  lemma CountBrandStep(places: seq<Ranked>, brandOf: string -> string, i: nat, b: string)
    requires i < |places|
    ensures CountBrand(places[..i + 1], brandOf, b) ==
      CountBrand(places[..i], brandOf, b) + (if brandOf(places[i].venue.name) == b then 1 else 0)
  {
    assert places[..i + 1][..i] == places[..i];
  }

  lemma {:induction false} CountBrandPrefix(places: seq<Ranked>, brandOf: string -> string, i: nat, b: string)
    requires i <= |places|
    ensures CountBrand(places[..i], brandOf, b) <= CountBrand(places, brandOf, b)
    decreases |places|
  {
    if i < |places| {
      assert places[..|places| - 1][..i] == places[..i];
      CountBrandPrefix(places[..|places| - 1], brandOf, i, b);
    } else {
      assert places[..i] == places;
    }
  }

  /**
   * What the pass promises: the first venue of a brand is untouched; the k-th
   * repeat (k >= 1) keeps its place and venue data but loses `min(15, 5k)`
   * points and records that penalty (see `Penalize`).
   */
  lemma DiversifiedPenalties(places: seq<Ranked>, brandOf: string -> string, i: nat)
    requires i < |places|
    ensures var k := CountBrand(places[..i], brandOf, brandOf(places[i].venue.name));
      if k == 0 then Diversified(places, brandOf)[i] == places[i]
      else Diversified(places, brandOf)[i] == Penalize(places[i], k)
  {
    var b := brandOf(places[i].venue.name);
    if CountBrand(places[..i], brandOf, b) > 0 {
      CountBrandStep(places, brandOf, i, b);
      CountBrandPrefix(places, brandOf, i + 1, b);
    }
  }

  /** The pass keeps every venue in its place. */
  lemma DiversifiedVenues(places: seq<Ranked>, brandOf: string -> string)
    ensures VenuesOf(Diversified(places, brandOf)) == VenuesOf(places)
  {
    forall i | 0 <= i < |places| {
      DiversifiedPenalties(places, brandOf, i);
    }
  }

  /** The first loop of `_apply_diversity_adjustment`: how often each brand occurs. */
  method CountBrands(a: array<Ranked>, brandOf: string -> string) returns (counts: map<string, nat>)
    ensures forall b :: Get(counts, b) == CountBrand(a[..], brandOf, b)
  {
    counts := map[];
    for i := 0 to a.Length
      invariant forall b :: Get(counts, b) == CountBrand(a[..i], brandOf, b)
    {
      var b := brandOf(a[i].venue.name);
      counts := counts[b := Get(counts, b) + 1];
      forall b' | true
        ensures Get(counts, b') == CountBrand(a[..i + 1], brandOf, b')
      {
        CountBrandStep(a[..], brandOf, i, b');
        assert a[..][..i] == a[..i] && a[..][..i + 1] == a[..i + 1];
      }
    }
    assert a[..a.Length] == a[..];
  }

  /** `seen` holds, for every repeated brand, how many of its venues come before index `i`. */
  ghost predicate SeenBefore(seen: map<string, nat>, places: seq<Ranked>, brandOf: string -> string, i: nat)
    requires i <= |places|
  {
    forall b :: Get(seen, b) == if CountBrand(places, brandOf, b) > 1 then CountBrand(places[..i], brandOf, b) else 0
  }

  /** Counting the venue at `i` for its brand, when that brand repeats, moves `SeenBefore` one index on. */
  lemma SeenStep(seen: map<string, nat>, places: seq<Ranked>, brandOf: string -> string, i: nat)
    requires i < |places| && SeenBefore(seen, places, brandOf, i)
    ensures var b := brandOf(places[i].venue.name);
      SeenBefore(if CountBrand(places, brandOf, b) > 1 then seen[b := Get(seen, b) + 1] else seen, places, brandOf, i + 1)
  {
    forall b' | true {
      CountBrandStep(places, brandOf, i, b');
    }
  }

  /** What the loop writes at `i`, read off `seen`. */
  lemma AdjustedFromSeen(seen: map<string, nat>, places: seq<Ranked>, brandOf: string -> string, i: nat)
    requires i < |places| && SeenBefore(seen, places, brandOf, i)
    ensures var b := brandOf(places[i].venue.name);
      Adjusted(places, brandOf, i) ==
        if CountBrand(places, brandOf, b) > 1 && Get(seen, b) > 0 then Penalize(places[i], Get(seen, b)) else places[i]
  {
  }

  /** `_apply_diversity_adjustment`, updating the venues in place. */
  method ApplyDiversity(a: array<Ranked>, brandOf: string -> string)
    modifies a
    ensures a[..] == Diversified(old(a[..]), brandOf)
  {
    ghost var places := a[..];
    var counts := CountBrands(a, brandOf);
    var seen: map<string, nat> := map[];
    for i := 0 to a.Length
      invariant forall j :: 0 <= j < i ==> a[j] == Adjusted(places, brandOf, j)
      invariant forall j :: i <= j < a.Length ==> a[j] == places[j]
      invariant SeenBefore(seen, places, brandOf, i)
    {
      SeenStep(seen, places, brandOf, i);
      AdjustedFromSeen(seen, places, brandOf, i);
      var b := brandOf(a[i].venue.name);
      if Get(counts, b) > 1 {
        var seenCount := Get(seen, b);
        if seenCount > 0 {
          a[i] := Penalize(a[i], seenCount);
        }
        seen := seen[b := seenCount + 1];
      }
    }
  }
}

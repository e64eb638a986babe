/**
 * A venue as the nearby-search provider returns it (one POI dict), reduced to
 * the fields the ranking reads. Float parsing is not modelled: where the source
 * calls `float(...)` on a text field, the venue carries the parsed value, or
 * `None` where the conversion raises.
 */
module Venues {
  import opened Common
  import opened Geometry

  datatype Venue = Venue(
    name: string,
    /** The raw `"lng,lat"` text; also part of the de-duplication identity. */
    location: string,
    /** `float` of the two halves of `location.split(",")`; `None` when that raises. */
    parsedLocation: Option<Coord>,
    /** `float(p.get("lng", 0))`, `float(p.get("lat", 0))`; `None` when that raises. */
    fallbackCoord: Option<Coord>,
    placeType: string,
    tag: string,
    parkingType: string,
    naviPoiid: string,
    address: string,
    /** `float(biz_ext["rating"] or "0")`; `None` when that raises. */
    bizRating: Option<real>,
    /** `int(biz_ext["review_count"] or "0")`; `None` when that raises. */
    bizReviewCount: Option<int>,
    /** `len(photos)` when `photos` is a list, else 0. */
    photoCount: nat,
    /** `float(p.get("rating", 0) or 0)`: the top-level rating field. */
    topRating: real,
    /** `_source_keyword`, set by the multi-keyword search. */
    sourceKeyword: Option<string>
  )

  /** How `location` reads: no comma (or empty), a comma but unparsable, or a coordinate. */
  datatype LocationView = NoLocation | Malformed | At(coord: Coord)

  function ViewLocation(v: Venue): (r: LocationView)
    ensures r.NoLocation? <==> (v.location == [] || ',' !in v.location)
  {
    if v.location == [] || ',' !in v.location then NoLocation
    else if v.parsedLocation.None? then Malformed
    else At(v.parsedLocation.value)
  }
}

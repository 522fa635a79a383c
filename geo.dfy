/**
 * Geographic points, the fixed service region and the three ways a location
 * picker receives a point: a click on its map, a search result, or device
 * geolocation.
 */
module Geo {
  import opened Options

  datatype Point = Point(lat: real, lng: real)

  // Corners of `zamboangaBounds` (script.js:99-102).
  const South: real := 6.78
  const West: real := 121.90
  const North: real := 8.0
  const East: real := 122.32

  /** `zamboangaBounds.contains(p)`: an inclusive latitude/longitude box. */
  predicate InZamboanga(p: Point) {
    South <= p.lat <= North && West <= p.lng <= East
  }

  /** What `navigator.geolocation` delivers to a "locate me" button. */
  datatype Fix =
    | Located(at: Point)   // success callback with `position.coords`
    | Denied               // error callback
    | Unsupported          // `navigator.geolocation` is missing

  /** An event that may place the marker of a location step. */
  datatype PickEvent =
    | MapClick(p: Point)       // map 'click'
    | SearchResult(p: Point)   // 'geosearch/showlocation'
    | Geolocation(fix: Fix)    // "locate me" button

  /**
   * The point an event hands to `setCurrentMarker`/`setDestinationMarker`, if any.
   * Clicks and search results outside the region are refused with an alert;
   * geolocation hands over whatever position the device reports.
   */
  function AcceptedPoint(ev: PickEvent): (r: Option<Point>)
    ensures (ev.MapClick? || ev.SearchResult?) ==> (r.Some? <==> InZamboanga(ev.p))
    ensures (ev.MapClick? || ev.SearchResult?) && r.Some? ==> r.value == ev.p
    ensures ev.Geolocation? ==> (r.Some? <==> ev.fix.Located?)
    ensures ev.Geolocation? && r.Some? ==> r.value == ev.fix.at
  {
    match ev
    case MapClick(p) => if InZamboanga(p) then Some(p) else None
    case SearchResult(p) => if InZamboanga(p) then Some(p) else None
    case Geolocation(fix) => if fix.Located? then Some(fix.at) else None
  }

  /** The geolocation path has no region check: a point far outside is accepted. */
  lemma GeolocationSkipsRegionCheck(p: Point)
    requires !InZamboanga(p)
    ensures AcceptedPoint(Geolocation(Located(p))) == Some(p)
    ensures AcceptedPoint(MapClick(p)) == None && AcceptedPoint(SearchResult(p)) == None
  {
  }
}

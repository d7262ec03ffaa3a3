/** The itinerary value objects: a geographic point, an itinerary between two
    points with an optional GPX track, and the altitude statistics.  Each
    constructor takes a partial record (`*Patch`, every field optional) and
    returns a total one in which each absent or falsy field has its default. */
module Topo {
  import opened Wrappers
  import opened Js

  datatype GeoPoint = GeoPoint(latitude: real, longitude: real) {
    /** `{ ...point }` handed back to a constructor. */
    function AsPatch(): GeoPointPatch {
      GeoPointPatch(Some(latitude), Some(longitude))
    }
  }

  datatype GeoPointPatch = GeoPointPatch(latitude: Option<real>, longitude: Option<real>)

  /** `new GeoPoint(data)`: a missing coordinate becomes 0, a provided one is
      kept. */
  function NewGeoPoint(data: Option<GeoPointPatch>): (p: GeoPoint)
    ensures data.None? ==> p == GeoPoint(0.0, 0.0)
    ensures data.Some? ==> p.latitude == data.value.latitude.GetOr(0.0)
    ensures data.Some? ==> p.longitude == data.value.longitude.GetOr(0.0)
  {
    match data
    case None => GeoPoint(0.0, 0.0)
    case Some(d) => GeoPoint(OrNum(d.latitude, 0.0), OrNum(d.longitude, 0.0))
  }

  datatype Itinerary = Itinerary(start: GeoPoint, end: GeoPoint, gpx: string) {

    function AsPatch(): ItineraryPatch {
      ItineraryPatch(Some(start.AsPatch()), Some(end.AsPatch()), Some(gpx))
    }

    /** All four coordinates are set (0 is the "unset" sentinel). */
    predicate HasValidCoordinates()
      ensures HasValidCoordinates() ==> start != GeoPoint(0.0, 0.0) && end != GeoPoint(0.0, 0.0)
    {
      start.latitude != 0.0 && start.longitude != 0.0
      && end.latitude != 0.0 && end.longitude != 0.0
    }

    /** A GPX track is attached. */
    predicate HasGpxTrack()
      ensures HasGpxTrack() <==> |gpx| > 0
    {
      gpx != ""
    }
  }

  datatype ItineraryPatch = ItineraryPatch(
    start: Option<GeoPointPatch>, end: Option<GeoPointPatch>, gpx: Option<string>)

  /** `new Itinerary(data)`: both points are repaired field by field through
      `NewGeoPoint`, and a missing track becomes "". */
  function NewItinerary(data: Option<ItineraryPatch>): (it: Itinerary)
    ensures data.None? ==> it == Itinerary(GeoPoint(0.0, 0.0), GeoPoint(0.0, 0.0), "")
    ensures data.Some? ==> it.start == NewGeoPoint(data.value.start)
    ensures data.Some? ==> it.end == NewGeoPoint(data.value.end)
    ensures data.Some? ==> it.gpx == data.value.gpx.GetOr("")
  {
    match data
    case None => Itinerary(NewGeoPoint(None), NewGeoPoint(None), "")
    case Some(d) => Itinerary(NewGeoPoint(d.start), NewGeoPoint(d.end), OrStr(d.gpx, ""))
  }

  datatype Altitudes = Altitudes(max: real, min: real, total: real) {

    function AsPatch(): AltitudesPatch {
      AltitudesPatch(Some(max), Some(min), Some(total))
    }

    /** `getDenivele`: the height difference between the highest and the
        lowest point. */
    function Denivele(): (d: real)
      ensures d > 0.0 <==> max > min
      ensures d + min == max
    {
      max - min
    }

    /** `isValid`: the highest point is above the lowest and some elevation
        gain was recorded. */
    predicate IsValid()
      ensures IsValid() ==> Denivele() > 0.0 && total > 0.0
    {
      max > min && total > 0.0
    }
  }

  datatype AltitudesPatch = AltitudesPatch(max: Option<real>, min: Option<real>, total: Option<real>)

  /** `new Altitudes(data)`: every missing field becomes 0. */
  function NewAltitudes(data: Option<AltitudesPatch>): (a: Altitudes)
    ensures data.None? ==> a == Altitudes(0.0, 0.0, 0.0)
    ensures data.Some? ==> a == Altitudes(data.value.max.GetOr(0.0), data.value.min.GetOr(0.0),
                                          data.value.total.GetOr(0.0))
  {
    match data
    case None => Altitudes(0.0, 0.0, 0.0)
    case Some(d) => Altitudes(OrNum(d.max, 0.0), OrNum(d.min, 0.0), OrNum(d.total, 0.0))
  }

  /** Re-running a constructor on a value it could have produced changes
      nothing: every value of these types is already normalised. */
  lemma ConstructorsIdempotent(p: GeoPoint, it: Itinerary, a: Altitudes)
    ensures NewGeoPoint(Some(p.AsPatch())) == p
    ensures NewItinerary(Some(it.AsPatch())) == it
    ensures NewAltitudes(Some(a.AsPatch())) == a
  {
  }

  /** `hasValidCoordinates` fails as soon as one coordinate is 0, so the
      default itinerary has no valid coordinates and no track. */
  lemma DefaultItineraryIsEmpty(it: Itinerary)
    ensures !NewItinerary(None).HasValidCoordinates()
    ensures !NewItinerary(None).HasGpxTrack()
    ensures (it.start.latitude == 0.0 || it.start.longitude == 0.0
             || it.end.latitude == 0.0 || it.end.longitude == 0.0) ==> !it.HasValidCoordinates()
  {
  }

  /** A valid altitude record has a strictly positive height difference; the
      all-zero default is not valid. */
  lemma ValidAltitudesClimb(a: Altitudes)
    ensures a.IsValid() ==> a.Denivele() > 0.0
    ensures !NewAltitudes(None).IsValid()
  {
  }
}

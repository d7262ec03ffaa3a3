/** The itinerary form: four coordinate fields and a GPX file picker.  Each
    handler rebuilds the itinerary through its constructor from a spread of
    the current one with a single value replaced. */
module ItineraryForm {
  import opened Wrappers
  import opened Js
  import opened Topo

  /** `handleStartLatChange`: only the start latitude changes; a value that
      is not a number gives 0. */
  function HandleStartLatChange(itinerary: Itinerary, value: string, parse: ParseReal): (updated: Itinerary)
    ensures updated == itinerary.(start := itinerary.start.(latitude := RealOrZero(parse, value)))
    ensures NewItinerary(Some(updated.AsPatch())) == updated
  {
    ConstructorsIdempotent(itinerary.start, itinerary, Altitudes(0.0, 0.0, 0.0));
    var start := itinerary.start.(latitude := RealOrZero(parse, value));
    NewItinerary(Some(itinerary.AsPatch().(start := Some(start.AsPatch()))))
  }

  /** `handleStartLongChange`: only the start longitude changes. */
  function HandleStartLongChange(itinerary: Itinerary, value: string, parse: ParseReal): (updated: Itinerary)
    ensures updated == itinerary.(start := itinerary.start.(longitude := RealOrZero(parse, value)))
    ensures NewItinerary(Some(updated.AsPatch())) == updated
  {
    ConstructorsIdempotent(itinerary.start, itinerary, Altitudes(0.0, 0.0, 0.0));
    var start := itinerary.start.(longitude := RealOrZero(parse, value));
    NewItinerary(Some(itinerary.AsPatch().(start := Some(start.AsPatch()))))
  }

  /** `handleEndLatChange`: only the end latitude changes. */
  function HandleEndLatChange(itinerary: Itinerary, value: string, parse: ParseReal): (updated: Itinerary)
    ensures updated == itinerary.(end := itinerary.end.(latitude := RealOrZero(parse, value)))
    ensures NewItinerary(Some(updated.AsPatch())) == updated
  {
    ConstructorsIdempotent(itinerary.end, itinerary, Altitudes(0.0, 0.0, 0.0));
    var end := itinerary.end.(latitude := RealOrZero(parse, value));
    NewItinerary(Some(itinerary.AsPatch().(end := Some(end.AsPatch()))))
  }

  /** `handleEndLongChange`: only the end longitude changes. */
  function HandleEndLongChange(itinerary: Itinerary, value: string, parse: ParseReal): (updated: Itinerary)
    ensures updated == itinerary.(end := itinerary.end.(longitude := RealOrZero(parse, value)))
    ensures NewItinerary(Some(updated.AsPatch())) == updated
  {
    ConstructorsIdempotent(itinerary.end, itinerary, Altitudes(0.0, 0.0, 0.0));
    var end := itinerary.end.(longitude := RealOrZero(parse, value));
    NewItinerary(Some(itinerary.AsPatch().(end := Some(end.AsPatch()))))
  }

  /** `handleGpxFileChange`: with no file chosen nothing is emitted;
      otherwise the track becomes the preview URL of the first file and
      nothing else changes.  `objectUrl` stands for `URL.createObjectURL`. */
  function HandleGpxFileChange<F>(itinerary: Itinerary, files: Option<seq<F>>, objectUrl: F -> string)
    : (updated: Option<Itinerary>)
    ensures updated.None? <==> files.None? || files.value == []
    ensures updated.Some? ==> updated.value == itinerary.(gpx := objectUrl(files.value[0]))
  {
    if files.Some? && |files.value| > 0 then
      ConstructorsIdempotent(itinerary.start, itinerary, Altitudes(0.0, 0.0, 0.0));
      Some(NewItinerary(Some(itinerary.AsPatch().(gpx := Some(objectUrl(files.value[0]))))))
    else None
  }

  /** Clearing any coordinate, or typing something that is not a number,
      makes the itinerary lose its valid coordinates. */
  lemma ClearedCoordinateInvalidates(itinerary: Itinerary, value: string, parse: ParseReal)
    requires parse(value).None? || parse(value) == Some(0.0)
    ensures !HandleStartLatChange(itinerary, value, parse).HasValidCoordinates()
    ensures !HandleStartLongChange(itinerary, value, parse).HasValidCoordinates()
    ensures !HandleEndLatChange(itinerary, value, parse).HasValidCoordinates()
    ensures !HandleEndLongChange(itinerary, value, parse).HasValidCoordinates()
  {
  }

  /** Edits to different coordinates commute, and the track survives them. */
  lemma CoordinateEditsCommute(itinerary: Itinerary, a: string, b: string, parse: ParseReal)
    ensures HandleEndLatChange(HandleStartLatChange(itinerary, a, parse), b, parse)
         == HandleStartLatChange(HandleEndLatChange(itinerary, b, parse), a, parse)
    ensures HandleStartLongChange(HandleStartLatChange(itinerary, a, parse), b, parse)
         == HandleStartLatChange(HandleStartLongChange(itinerary, b, parse), a, parse)
    ensures HandleEndLongChange(HandleStartLatChange(itinerary, a, parse), b, parse).gpx == itinerary.gpx
  {
  }
}

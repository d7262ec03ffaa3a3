/** The journey aggregate as its own class declares it.  Its nested shapes
    are inline records that differ from the value objects of `Topo`,
    `MeteoModel` and `Protection`: points are `lat`/`long`, the track is
    `gpxId`, temperatures are `top`/`bottom`, the sky has five values, the
    wind direction is a plain string, BERA defaults to 1 and the rope list
    to `[]`. */
module JourneyModel {
  import opened Wrappers
  import opened Js
  import opened Dates

  datatype Season = Summer | Winter

  datatype JourneySky = Sunny | PartlyCloudy | Cloudy | Snow | Rain

  datatype LatLong = LatLong(lat: real, long: real)

  const Origin := LatLong(0.0, 0.0)

  datatype JourneyItinerary = JourneyItinerary(start: LatLong, end: LatLong, gpxId: string)
  datatype JourneyAltitudes = JourneyAltitudes(max: real, min: real, total: real)
  datatype JourneyTemperature = JourneyTemperature(top: real, bottom: real)
  datatype JourneyIso = JourneyIso(night: real, day: real)
  datatype JourneyWind = JourneyWind(direction: string, speed: real)
  datatype JourneyMeteo = JourneyMeteo(
    sky: JourneySky, temperature: JourneyTemperature, iso: JourneyIso, wind: JourneyWind, bera: int)
  datatype JourneyRope = JourneyRope(diameter: real, length: real)
  datatype JourneyProtections = JourneyProtections(
    ropes: seq<JourneyRope>, nuts: int, cams: seq<real>, screws: int)

  /** A journey whose `date` has type `D`: `Journey` holds a `Date` (an
      instant), the wire format an ISO string, and an object edited by the
      form either of the two. */
  datatype JourneyOf<D> = JourneyOf(
    id: string, title: string, date: D, season: Season,
    members: seq<string>, pictures: seq<string>,
    itinerary: JourneyItinerary, altitudes: JourneyAltitudes,
    meteo: JourneyMeteo, protections: JourneyProtections,
    miscellaneous: string)
  {
    /** `{ ...this, date: d }`. */
    function WithDate<E>(d: E): (j: JourneyOf<E>)
      ensures j.date == d
    {
      JourneyOf(id, title, d, season, members, pictures, itinerary, altitudes, meteo,
                protections, miscellaneous)
    }
  }

  /** A journey whose date is an instant in milliseconds. */
  type Journey = JourneyOf<int>

  // ---- `Partial<Journey>`: every field, at every level, may be absent.

  datatype ItineraryInput = ItineraryInput(start: Option<LatLong>, end: Option<LatLong>, gpxId: Option<string>)
  datatype AltitudesInput = AltitudesInput(max: Option<real>, min: Option<real>, total: Option<real>)
  datatype TemperatureInput = TemperatureInput(top: Option<real>, bottom: Option<real>)
  datatype IsoInput = IsoInput(night: Option<real>, day: Option<real>)
  datatype WindInput = WindInput(direction: Option<string>, speed: Option<real>)
  datatype MeteoInput = MeteoInput(
    sky: Option<JourneySky>, temperature: Option<TemperatureInput>, iso: Option<IsoInput>,
    wind: Option<WindInput>, bera: Option<int>)
  datatype ProtectionsInput = ProtectionsInput(
    ropes: Option<seq<JourneyRope>>, nuts: Option<int>, cams: Option<seq<real>>, screws: Option<int>)

  datatype JourneyInput = JourneyInput(
    id: Option<string>, title: Option<string>, date: Option<DateField>, season: Option<Season>,
    members: Option<seq<string>>, pictures: Option<seq<string>>,
    itinerary: Option<ItineraryInput>, altitudes: Option<AltitudesInput>,
    meteo: Option<MeteoInput>, protections: Option<ProtectionsInput>,
    miscellaneous: Option<string>)

  /** The empty argument of `new Journey({})`. */
  const NoInput := JourneyInput(None, None, None, None, None, None, None, None, None, None, None)

  /** The itinerary part of the constructor: a point that is given is kept as
      it is, an absent one is replaced wholesale by (0, 0). */
  function NewJourneyItinerary(data: Option<ItineraryInput>): (it: JourneyItinerary)
    ensures data.None? ==> it == JourneyItinerary(Origin, Origin, "")
    ensures data.Some? ==> it == JourneyItinerary(data.value.start.GetOr(Origin),
                                                  data.value.end.GetOr(Origin),
                                                  data.value.gpxId.GetOr(""))
  {
    JourneyItinerary(
      if data.Some? then data.value.start.GetOr(Origin) else Origin,
      if data.Some? then data.value.end.GetOr(Origin) else Origin,
      if data.Some? then OrStr(data.value.gpxId, "") else "")
  }

  /** The altitudes part of the constructor: every missing value becomes 0. */
  function NewJourneyAltitudes(data: Option<AltitudesInput>): (a: JourneyAltitudes)
    ensures data.None? ==> a == JourneyAltitudes(0.0, 0.0, 0.0)
    ensures data.Some? ==> a == JourneyAltitudes(data.value.max.GetOr(0.0), data.value.min.GetOr(0.0),
                                                 data.value.total.GetOr(0.0))
  {
    match data
    case None => JourneyAltitudes(0.0, 0.0, 0.0)
    case Some(d) => JourneyAltitudes(OrNum(d.max, 0.0), OrNum(d.min, 0.0), OrNum(d.total, 0.0))
  }

  /** The weather part of the constructor.  The sky defaults to sunny, the
      wind direction to "N" (also when it is ""), and BERA to 1 -- also when
      it is 0, which is falsy. */
  function NewJourneyMeteo(data: Option<MeteoInput>): (m: JourneyMeteo)
    ensures data.None? ==> m == JourneyMeteo(Sunny, JourneyTemperature(0.0, 0.0), JourneyIso(0.0, 0.0),
                                             JourneyWind("N", 0.0), 1)
    ensures data.Some? ==> m.sky == data.value.sky.GetOr(Sunny)
    ensures data.Some? && data.value.temperature.Some? ==>
      m.temperature == JourneyTemperature(data.value.temperature.value.top.GetOr(0.0),
                                          data.value.temperature.value.bottom.GetOr(0.0))
    ensures data.Some? && data.value.iso.Some? ==>
      m.iso == JourneyIso(data.value.iso.value.night.GetOr(0.0), data.value.iso.value.day.GetOr(0.0))
    ensures data.Some? && data.value.wind.Some? ==>
      m.wind.speed == data.value.wind.value.speed.GetOr(0.0)
      && (data.value.wind.value.direction.Some? && data.value.wind.value.direction.value != "" ==>
            m.wind.direction == data.value.wind.value.direction.value)
    ensures (data.None? || data.value.temperature.None?) ==> m.temperature == JourneyTemperature(0.0, 0.0)
    ensures (data.None? || data.value.iso.None?) ==> m.iso == JourneyIso(0.0, 0.0)
    ensures (data.None? || data.value.wind.None? || data.value.wind.value.direction.GetOr("") == "")
            ==> m.wind.direction == "N"
    ensures (data.None? || data.value.wind.None?) ==> m.wind.speed == 0.0
    ensures data.Some? && data.value.bera.Some? && data.value.bera.value != 0 ==> m.bera == data.value.bera.value
    ensures (data.None? || data.value.bera.None? || data.value.bera.value == 0) ==> m.bera == 1
  {
    var t := if data.Some? then data.value.temperature else None;
    var i := if data.Some? then data.value.iso else None;
    var w := if data.Some? then data.value.wind else None;
    JourneyMeteo(
      if data.Some? then data.value.sky.GetOr(Sunny) else Sunny,
      JourneyTemperature(OrNum(if t.Some? then t.value.top else None, 0.0),
                         OrNum(if t.Some? then t.value.bottom else None, 0.0)),
      JourneyIso(OrNum(if i.Some? then i.value.night else None, 0.0),
                 OrNum(if i.Some? then i.value.day else None, 0.0)),
      JourneyWind(OrStr(if w.Some? then w.value.direction else None, "N"),
                  OrNum(if w.Some? then w.value.speed else None, 0.0)),
      OrInt(if data.Some? then data.value.bera else None, 1))
  }

  /** The protections part of the constructor: ropes and cams default to
      `[]` (a given list is kept as it is), nuts and screws to 0. */
  function NewJourneyProtections(data: Option<ProtectionsInput>): (p: JourneyProtections)
    ensures data.None? ==> p == JourneyProtections([], 0, [], 0)
    ensures data.Some? ==> p == JourneyProtections(data.value.ropes.GetOr([]), data.value.nuts.GetOr(0),
                                                   data.value.cams.GetOr([]), data.value.screws.GetOr(0))
  {
    match data
    case None => JourneyProtections([], 0, [], 0)
    case Some(d) => JourneyProtections(d.ropes.GetOr([]), OrInt(d.nuts, 0), d.cams.GetOr([]), OrInt(d.screws, 0))
  }

  /** `new Journey(data)`.  `now` is the clock and `decode` the parsing done
      by `new Date(string)`.  A missing or falsy date becomes `now`; a given
      one is converted to an instant.  Strings default to "", lists to `[]`,
      the season to summer. */
  function NewJourney(data: JourneyInput, now: int, decode: string -> int): (j: Journey)
    ensures j.id == data.id.GetOr("") && j.title == data.title.GetOr("")
    ensures j.miscellaneous == data.miscellaneous.GetOr("")
    ensures j.date == if Truthy(data.date) then ToMs(data.date.value, decode) else now
    ensures j.season == data.season.GetOr(Summer)
    ensures j.members == data.members.GetOr([]) && j.pictures == data.pictures.GetOr([])
    ensures j.itinerary == NewJourneyItinerary(data.itinerary)
    ensures j.altitudes == NewJourneyAltitudes(data.altitudes)
    ensures j.meteo == NewJourneyMeteo(data.meteo)
    ensures j.protections == NewJourneyProtections(data.protections)
    ensures Normalised(j)
  {
    JourneyOf(
      OrStr(data.id, ""),
      OrStr(data.title, ""),
      if Truthy(data.date) then ToMs(data.date.value, decode) else now,
      data.season.GetOr(Summer),
      data.members.GetOr([]),
      data.pictures.GetOr([]),
      NewJourneyItinerary(data.itinerary),
      NewJourneyAltitudes(data.altitudes),
      NewJourneyMeteo(data.meteo),
      NewJourneyProtections(data.protections),
      OrStr(data.miscellaneous, ""))
  }

  /** What every constructed journey satisfies: the two fields whose falsy
      values the constructor replaces hold truthy values. */
  predicate Normalised<D>(j: JourneyOf<D>) {
    j.meteo.bera != 0 && j.meteo.wind.direction != ""
  }

  /** `{ ...j }` handed back to the constructor, with the date as given. */
  function AsInput(j: JourneyOf<DateField>): (data: JourneyInput)
    ensures data.date == Some(j.date)
  {
    var m := j.meteo;
    var p := j.protections;
    JourneyInput(
      Some(j.id), Some(j.title), Some(j.date), Some(j.season), Some(j.members), Some(j.pictures),
      Some(ItineraryInput(Some(j.itinerary.start), Some(j.itinerary.end), Some(j.itinerary.gpxId))),
      Some(AltitudesInput(Some(j.altitudes.max), Some(j.altitudes.min), Some(j.altitudes.total))),
      Some(MeteoInput(Some(m.sky), Some(TemperatureInput(Some(m.temperature.top), Some(m.temperature.bottom))),
                      Some(IsoInput(Some(m.iso.night), Some(m.iso.day))),
                      Some(WindInput(Some(m.wind.direction), Some(m.wind.speed))), Some(m.bera))),
      Some(ProtectionsInput(Some(p.ropes), Some(p.nuts), Some(p.cams), Some(p.screws))),
      Some(j.miscellaneous))
  }

  /** Re-running the constructor on a constructed journey (its date still a
      `Date`) returns the same journey, whatever the clock says. */
  lemma {:induction false} NewJourneyIdempotent(j: Journey, now: int, decode: string -> int)
    requires Normalised(j)
    ensures NewJourney(AsInput(j.WithDate(Instant(j.date))), now, decode) == j
  {
  }

  /** The defaults of `new Journey({})`: empty strings and lists, the clock
      for the date, summer, a sunny zero-wind record with BERA 1, no
      protections. */
  lemma EmptyJourneyDefaults(now: int, decode: string -> int)
    ensures var j := NewJourney(NoInput, now, decode);
      && j.id == "" && j.title == "" && j.miscellaneous == "" && j.members == [] && j.pictures == []
      && j.date == now && j.season == Summer
      && j.itinerary == JourneyItinerary(Origin, Origin, "")
      && j.meteo.sky == Sunny && j.meteo.wind == JourneyWind("N", 0.0) && j.meteo.bera == 1
      && j.protections == JourneyProtections([], 0, [], 0)
  {
  }

  /** `journey.toJSON()`: the same fields, with the date as its ISO-8601
      string. */
  function ToJson(j: Journey, encode: int -> string): (w: JourneyOf<string>)
    ensures w.date == encode(j.date)
    ensures w.WithDate(j.date) == j
  {
    j.WithDate(encode(j.date))
  }
}

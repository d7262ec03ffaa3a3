/** The weather form: when the forecast button shows, the eight field
    handlers, each rebuilding the record with one field changed, and the
    forecast request with its coordinate guard. */
module MeteoForm {
  import opened Wrappers
  import opened Js
  import opened Strings
  import opened Dates
  import opened MeteoModel
  import EditJourney

  /** The choices offered by the wind-direction select. */
  const WindDirectionOptions: seq<string> := ["N", "NE", "E", "SE", "S", "SW", "W", "NW"]

  /** The choices offered by the BERA select. */
  const BeraOptions: seq<string> := ["0", "1", "2", "3", "4", "5"]

  /** The message shown when the forecast cannot be fetched. */
  const FetchErrorMessage: string := "Erreur pendant la récupération des données météo"

  function DirectionName(d: WindDirection): string {
    match d
    case N => "N"
    case NE => "NE"
    case E => "E"
    case SE => "SE"
    case S => "S"
    case SW => "SW"
    case W => "W"
    case NW => "NW"
  }

  /** The select lists the compass rose in order, so every value it can
      hand to the handler is the name of a direction. */
  lemma DirectionOptionsAreCompass()
    ensures |WindDirectionOptions| == |Compass|
    ensures forall i :: 0 <= i < |Compass| ==> WindDirectionOptions[i] == DirectionName(Compass[i])
  {
  }

  // ---------------------------------------------------------------------
  // The forecast button

  /** `canRequestMeteo`: a date is set and lies strictly ahead, by at most
      one week in milliseconds. */
  function CanRequestMeteo(date: Option<DateField>, now: int, decode: string -> int): (allowed: bool)
    ensures allowed ==> Truthy(date)
    ensures Truthy(date) ==> (allowed <==> now < ToMs(date.value, decode) <= now + WeekMs)
  {
    if !Truthy(date) then false
    else
      var difference := ToMs(date.value, decode) - now;
      difference > 0 && difference <= WeekMs
  }

  /** The form's window lies inside the editor's, which also admits past
      dates: a journey already under way gets the editor's button only. */
  lemma ButtonWindows(date: Option<DateField>, now: int, decode: string -> int)
    ensures CanRequestMeteo(date, now, decode) ==> EditJourney.CanRequestMeteo(date, now, decode)
    ensures Truthy(date) && ToMs(date.value, decode) <= now ==>
      EditJourney.CanRequestMeteo(date, now, decode) && !CanRequestMeteo(date, now, decode)
  {
  }

  /** The button and the record's own refresh test count in different units:
      a journey later today shows the button but is not due a refresh, and
      one seven and a half days ahead is due a refresh but shows no button. */
  lemma ButtonAndRefreshDisagree(m: Meteo, now: int, decode: string -> int)
    ensures CanRequestMeteo(Some(Instant(now + DayMs / 2)), now, decode)
    ensures !m.ShouldUpdateMeteo(now + DayMs / 2, now)
    ensures !CanRequestMeteo(Some(Instant(now + WeekMs + DayMs / 2)), now, decode)
    ensures m.ShouldUpdateMeteo(now + WeekMs + DayMs / 2, now)
  {
    ShouldUpdateWindow(m, now + DayMs / 2, now);
    ShouldUpdateWindow(m, now + WeekMs + DayMs / 2, now);
  }

  // ---------------------------------------------------------------------
  // Field handlers: `new Meteo({ ...meteo, field: value })`

  /** `handleSkyChange`: the chosen sky, "SUNNY" for an empty choice. */
  function HandleSkyChange(meteo: Meteo, value: string): (updated: Meteo)
    ensures IsNormal(updated)
    ensures updated == meteo.(sky := if value != "" then value else "SUNNY")
  {
    NewMeteo(Some(meteo.AsPatch().(sky := Some(value))))
  }

  /** `handleTempMaxChange`: the typed number, 0 when it does not parse. */
  function HandleTempMaxChange(meteo: Meteo, value: string, parse: ParseReal): (updated: Meteo)
    ensures IsNormal(updated)
    ensures IsNormal(meteo) ==>
      updated == meteo.(temperature := meteo.temperature.(max := RealOrZero(parse, value)))
  {
    var max := RealOrZero(parse, value);
    NewMeteo(Some(meteo.AsPatch().(temperature := Some(TemperaturePatch(Some(meteo.temperature.min), Some(max))))))
  }

  /** `handleTempMinChange`. */
  function HandleTempMinChange(meteo: Meteo, value: string, parse: ParseReal): (updated: Meteo)
    ensures IsNormal(updated)
    ensures IsNormal(meteo) ==>
      updated == meteo.(temperature := meteo.temperature.(min := RealOrZero(parse, value)))
  {
    var min := RealOrZero(parse, value);
    NewMeteo(Some(meteo.AsPatch().(temperature := Some(TemperaturePatch(Some(min), Some(meteo.temperature.max))))))
  }

  /** `handleIsoDayChange`. */
  function HandleIsoDayChange(meteo: Meteo, value: string, parse: ParseReal): (updated: Meteo)
    ensures IsNormal(updated)
    ensures IsNormal(meteo) ==> updated == meteo.(iso := meteo.iso.(day := RealOrZero(parse, value)))
  {
    var day := RealOrZero(parse, value);
    NewMeteo(Some(meteo.AsPatch().(iso := Some(IsoPatch(Some(meteo.iso.night), Some(day))))))
  }

  /** `handleIsoNightChange`. */
  function HandleIsoNightChange(meteo: Meteo, value: string, parse: ParseReal): (updated: Meteo)
    ensures IsNormal(updated)
    ensures IsNormal(meteo) ==> updated == meteo.(iso := meteo.iso.(night := RealOrZero(parse, value)))
  {
    var night := RealOrZero(parse, value);
    NewMeteo(Some(meteo.AsPatch().(iso := Some(IsoPatch(Some(night), Some(meteo.iso.day))))))
  }

  /** `handleWindDirectionChange`: the wind is rebuilt with the chosen
      direction, then rebuilt again by the record's constructor. */
  function HandleWindDirectionChange(meteo: Meteo, value: WindDirection): (updated: Meteo)
    ensures IsNormal(updated)
    ensures IsNormal(meteo) ==> updated == meteo.(wind := meteo.wind.(direction := value))
  {
    var wind := NewWind(Some(WindPatch(Some(value), Some(meteo.wind.speed))));
    NewMeteo(Some(meteo.AsPatch().(wind := Some(wind.AsPatch()))))
  }

  /** `handleWindSpeedChange`. */
  function HandleWindSpeedChange(meteo: Meteo, value: string, parse: ParseReal): (updated: Meteo)
    ensures IsNormal(updated)
    ensures IsNormal(meteo) ==> updated == meteo.(wind := meteo.wind.(speed := RealOrZero(parse, value)))
  {
    var wind := NewWind(Some(WindPatch(Some(meteo.wind.direction), Some(RealOrZero(parse, value)))));
    NewMeteo(Some(meteo.AsPatch().(wind := Some(wind.AsPatch()))))
  }

  /** `handleBeraChange`: `parseInt(value, 0)`, whose failure (NaN) the
      constructor turns into 0. */
  function HandleBeraChange(meteo: Meteo, value: string, parse: ParseInt): (updated: Meteo)
    ensures IsNormal(updated)
    ensures IsNormal(meteo) ==> updated == meteo.(bera := IntOrZero(parse, value))
  {
    NewMeteo(Some(meteo.AsPatch().(bera := parse(value))))
  }

  /** Choosing the i-th BERA option stores i, which the select then shows
      as that same option. */
  lemma BeraOptionStored(meteo: Meteo, i: int, parse: ParseInt)
    requires IsNormal(meteo)
    requires 0 <= i < |BeraOptions| && parse(BeraOptions[i]) == Some(i)
    ensures var updated := HandleBeraChange(meteo, BeraOptions[i], parse);
      && updated.bera == i && BeraOptions[updated.bera] == BeraOptions[i]
  {
  }

  /** Edits of different fields commute: the order in which the inputs are
      changed does not matter. */
  lemma FieldEditsCommute(meteo: Meteo, a: string, b: string, parse: ParseReal, d: WindDirection)
    requires IsNormal(meteo)
    ensures HandleTempMaxChange(HandleTempMinChange(meteo, a, parse), b, parse)
         == HandleTempMinChange(HandleTempMaxChange(meteo, b, parse), a, parse)
    ensures HandleIsoDayChange(HandleIsoNightChange(meteo, a, parse), b, parse)
         == HandleIsoNightChange(HandleIsoDayChange(meteo, b, parse), a, parse)
    ensures HandleWindSpeedChange(HandleWindDirectionChange(meteo, d), a, parse)
         == HandleWindDirectionChange(HandleWindSpeedChange(meteo, a, parse), d)
  {
  }

  // ---------------------------------------------------------------------
  // Fetching the forecast

  /** The server's answer to the forecast request: a body with optional
      data and error, or a failure of the request itself. */
  datatype ApiResponse = Answer(data: Option<MeteoPatch>, error: Option<string>) | RequestFailed

  /** The guard of `handleGetMeteo`: both coordinates set, that is neither
      of them 0. */
  predicate MeteoRequestAllowed(latitude: real, longitude: real) {
    latitude != 0.0 && longitude != 0.0
  }

  /** The day sent with the request: the part of the ISO timestamp before
      the 'T'. */
  function RequestDay(iso: string): (day: string)
    ensures day <= iso && 'T' !in day
    ensures day == iso || iso[|day|] == 'T'
  {
    SplitOnHead(iso, 'T');
    SplitOn(iso, 'T')[0]
  }

  /** An ISO timestamp gives its calendar date. */
  lemma RequestDayOfTimestamp(date: string, time: string)
    requires 'T' !in date
    ensures RequestDay(date + "T" + time) == date
  {
    assert date + "T" + time == date + ['T'] + time;
    SplitOnCons(date, 'T', time);
  }

  /** The request the form sends. */
  datatype MeteoRequest = MeteoRequest(latitude: real, longitude: real, day: string)

  /** The form's own state: whether a request is running and the error on
      display. */
  class MeteoPanel {
    var isLoading: bool
    var error: Option<string>

    constructor()
      ensures !isLoading && error == None
    {
      isLoading := false;
      error := None;
    }

    /** `handleGetMeteo`.  Without both coordinates no request is sent and
        the error is kept; the early return is inside the `try`, so the
        `finally` still ends loading.  Otherwise the request for the journey's day is sent; an answer
        without an error becomes the new weather record, anything else sets
        the error message; loading is over in every case. */
    method GetMeteo(latitude: real, longitude: real, isoDate: string, response: ApiResponse)
      returns (request: Option<MeteoRequest>, emitted: Option<Meteo>)
      modifies this
      ensures !MeteoRequestAllowed(latitude, longitude) ==>
        request.None? && emitted.None? && error == old(error)
      ensures !isLoading
      ensures MeteoRequestAllowed(latitude, longitude) ==>
        request == Some(MeteoRequest(latitude, longitude, RequestDay(isoDate)))
      ensures MeteoRequestAllowed(latitude, longitude) && response.Answer? && OrStr(response.error, "") == "" ==>
        emitted == Some(NewMeteo(response.data)) && error.None?
      ensures MeteoRequestAllowed(latitude, longitude) && !(response.Answer? && OrStr(response.error, "") == "") ==>
        emitted.None? && error == Some(FetchErrorMessage)
    {
      request := None;
      emitted := None;
      if !MeteoRequestAllowed(latitude, longitude) {
        isLoading := false;
        return;
      }
      isLoading := true;
      error := None;
      request := Some(MeteoRequest(latitude, longitude, RequestDay(isoDate)));
      if response.RequestFailed? || (response.error.Some? && response.error.value != "") {
        error := Some(FetchErrorMessage);
      } else {
        emitted := Some(NewMeteo(response.data));
      }
      isLoading := false;
    }
  }

  /** A place on the equator or on the prime meridian never gets a
      forecast: 0 reads as "not set". */
  lemma ZeroCoordinateNeverFetched(longitude: real)
    ensures !MeteoRequestAllowed(0.0, longitude) && !MeteoRequestAllowed(longitude, 0.0)
  {
  }
}

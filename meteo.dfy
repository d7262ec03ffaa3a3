/** The weather snapshot attached to a journey: sky, temperatures, freezing
    levels, wind and the avalanche-risk index (BERA). */
module MeteoModel {
  import opened Wrappers
  import opened Js
  import opened Dates

  /** The sky conditions the display lookup knows, as stored in `sky`.  The
      field itself is a string: other values (such as "SNOW" or "RAIN" from
      the journey form) reach it too. */
  const SkyConditions: seq<string> :=
    ["SUNNY", "PARTLY_CLOUDY", "CLOUDY", "LIGHT_RAIN", "HEAVY_RAIN", "LIGHT_SNOW", "HEAVY_SNOW"]

  datatype WindDirection = N | NE | E | SE | S | SW | W | NW

  /** The compass rose, clockwise from north. */
  const Compass: seq<WindDirection> := [N, NE, E, SE, S, SW, W, NW]

  datatype Temperature = Temperature(min: real, max: real) {
    function AsPatch(): TemperaturePatch {
      TemperaturePatch(Some(min), Some(max))
    }
  }

  datatype TemperaturePatch = TemperaturePatch(min: Option<real>, max: Option<real>)

  /** `new Temperature(data)`: missing bounds become 0. */
  function NewTemperature(data: Option<TemperaturePatch>): (t: Temperature)
    ensures data.None? ==> t == Temperature(0.0, 0.0)
    ensures data.Some? ==> t == Temperature(data.value.min.GetOr(0.0), data.value.max.GetOr(0.0))
  {
    match data
    case None => Temperature(0.0, 0.0)
    case Some(d) => Temperature(OrNum(d.min, 0.0), OrNum(d.max, 0.0))
  }

  /** Freezing level (altitude of the 0 degree isotherm) by night and by day. */
  datatype Iso = Iso(night: real, day: real) {
    function AsPatch(): IsoPatch {
      IsoPatch(Some(night), Some(day))
    }
  }

  datatype IsoPatch = IsoPatch(night: Option<real>, day: Option<real>)

  /** `new Iso(data)`: missing levels become 0. */
  function NewIso(data: Option<IsoPatch>): (i: Iso)
    ensures data.None? ==> i == Iso(0.0, 0.0)
    ensures data.Some? ==> i == Iso(data.value.night.GetOr(0.0), data.value.day.GetOr(0.0))
  {
    match data
    case None => Iso(0.0, 0.0)
    case Some(d) => Iso(OrNum(d.night, 0.0), OrNum(d.day, 0.0))
  }

  datatype Wind = Wind(direction: WindDirection, speed: real) {
    function AsPatch(): WindPatch {
      WindPatch(Some(direction), Some(speed))
    }

    /** `getRotation`: the compass bearing of the wind, a multiple of 45
        degrees below 360 whose position in the compass rose is the
        direction. */
    function Rotation(): (degrees: int)
      ensures 0 <= degrees <= 315 && degrees % 45 == 0
      ensures Compass[degrees / 45] == direction
    {
      match direction
      case N => 0
      case NE => 45
      case E => 90
      case SE => 135
      case S => 180
      case SW => 225
      case W => 270
      case NW => 315
    }
  }

  datatype WindPatch = WindPatch(direction: Option<WindDirection>, speed: Option<real>)

  /** `new Wind(data)`: the direction defaults to north, the speed to 0. */
  function NewWind(data: Option<WindPatch>): (w: Wind)
    ensures data.None? ==> w == Wind(N, 0.0)
    ensures data.Some? ==> w == Wind(data.value.direction.GetOr(N), data.value.speed.GetOr(0.0))
  {
    match data
    case None => Wind(N, 0.0)
    case Some(d) => Wind(d.direction.GetOr(N), OrNum(d.speed, 0.0))
  }

  /** Two winds with different directions have different bearings. */
  lemma RotationInjective(a: Wind, b: Wind)
    requires a.direction != b.direction
    ensures a.Rotation() != b.Rotation()
  {
  }

  datatype Meteo = Meteo(sky: string, temperature: Temperature, iso: Iso, wind: Wind, bera: int) {

    function AsPatch(): MeteoPatch {
      MeteoPatch(Some(sky), Some(temperature.AsPatch()), Some(iso.AsPatch()),
                 Some(wind.AsPatch()), Some(bera))
    }

    /** `getDisplayName`: the French label of the sky; a label is given
        exactly for the known sky conditions, and "" for anything else. */
    function DisplayName(): (name: string)
      ensures name != "" <==> sky in SkyConditions
    {
      match sky
      case "SUNNY" => "Soleil"
      case "PARTLY_CLOUDY" => "Partiellement nuageux"
      case "CLOUDY" => "Nuageux"
      case "LIGHT_RAIN" => "Petite pluie"
      case "HEAVY_RAIN" => "Grosse pluie"
      case "LIGHT_SNOW" => "Neige"
      case "HEAVY_SNOW" => "Grosse neige"
      case _ => ""
    }

    /** `shouldUpdateMeteo(journeyDate)`: the journey is between one and
        seven whole days ahead of `now`. */
    predicate ShouldUpdateMeteo(journeyDate: int, now: int)
      ensures ShouldUpdateMeteo(journeyDate, now) ==> now < journeyDate
    {
      var daysUntilJourney := DifferenceInDays(journeyDate, now);
      daysUntilJourney <= 7 && daysUntilJourney > 0
    }
  }

  datatype MeteoPatch = MeteoPatch(
    sky: Option<string>, temperature: Option<TemperaturePatch>, iso: Option<IsoPatch>,
    wind: Option<WindPatch>, bera: Option<int>)

  /** `new Meteo(data)`: the sky defaults to "SUNNY" (also when it is the
      empty string), the BERA index to 0, and the nested records are
      repaired by their own constructors. */
  function NewMeteo(data: Option<MeteoPatch>): (m: Meteo)
    ensures data.None? ==> m == Meteo("SUNNY", Temperature(0.0, 0.0), Iso(0.0, 0.0), Wind(N, 0.0), 0)
    ensures data.Some? ==> m.sky == (if data.value.sky.Some? && data.value.sky.value != ""
                                     then data.value.sky.value else "SUNNY")
    ensures data.Some? ==> m.temperature == NewTemperature(data.value.temperature)
                           && m.iso == NewIso(data.value.iso) && m.wind == NewWind(data.value.wind)
    ensures data.Some? ==> m.bera == data.value.bera.GetOr(0)
    ensures m.sky != ""
  {
    match data
    case None => Meteo("SUNNY", NewTemperature(None), NewIso(None), NewWind(None), 0)
    case Some(d) =>
      Meteo(OrStr(d.sky, "SUNNY"), NewTemperature(d.temperature), NewIso(d.iso),
            NewWind(d.wind), OrInt(d.bera, 0))
  }

  /** A weather record is normalised when its sky is not the empty string;
      every constructed record is. */
  predicate IsNormal(m: Meteo) {
    m.sky != ""
  }

  /** Constructing from a normalised record reproduces every field. */
  lemma MeteoIdempotent(m: Meteo)
    requires IsNormal(m)
    ensures NewMeteo(Some(m.AsPatch())) == m
  {
  }

  /** The seven known conditions have seven different labels. */
  lemma {:induction false} DisplayNamesDistinct(a: Meteo, b: Meteo)
    requires a.sky in SkyConditions && b.sky in SkyConditions && a.sky != b.sky
    ensures a.DisplayName() != b.DisplayName()
  {
  }

  /** The refresh window in milliseconds: at least one whole day and less
      than eight days ahead.  Today and any past date give false. */
  lemma {:induction false} ShouldUpdateWindow(m: Meteo, journeyDate: int, now: int)
    ensures m.ShouldUpdateMeteo(journeyDate, now) <==> DayMs <= journeyDate - now < 8 * DayMs
  {
    var days := DifferenceInDays(journeyDate, now);
  }
}

/** The serialisation adapter between journeys and their JSON wire form,
    where the date is an ISO-8601 string. */
module JourneyAdapter {
  import opened Wrappers
  import opened Dates
  import opened JourneyModel

  /** `journeyAdapter.toJSON(journey)`: a `Date` becomes its ISO string, a
      date that is already a string passes through, and every other field is
      left as it is. */
  function ToJson(journey: JourneyOf<DateField>, encode: int -> string): (w: JourneyOf<string>)
    ensures journey.date.Instant? ==> w.date == encode(journey.date.ms)
    ensures journey.date.Text? ==> w.date == journey.date.text
    ensures w.WithDate(journey.date) == journey
  {
    journey.WithDate(match journey.date
                     case Instant(t) => encode(t)
                     case Text(s) => s)
  }

  /** A wire object seen as a journey whose date field holds a string. */
  function FromWire(w: JourneyOf<string>): (j: JourneyOf<DateField>)
    ensures j.date == Text(w.date)
  {
    w.WithDate(Text(w.date))
  }

  /** Applying `toJSON` to its own output changes nothing: a string date is
      never encoded twice. */
  lemma ToJsonIdempotent(journey: JourneyOf<DateField>, encode: int -> string)
    ensures ToJson(FromWire(ToJson(journey, encode)), encode) == ToJson(journey, encode)
  {
  }

  /** On a journey holding a `Date`, the adapter agrees with the journey's
      own `toJSON`. */
  lemma ToJsonAgreesWithJourney(j: Journey, encode: int -> string)
    ensures ToJson(j.WithDate(Instant(j.date)), encode) == JourneyModel.ToJson(j, encode)
  {
  }

  /** `journeyAdapter.fromJSON(data)` for a non-null `data`: a missing or
      falsy date is replaced by `now` before the journey constructor runs.
      The result is exactly what the constructor makes of `data`, so it is
      never null and carries every constructor default. */
  function FromJson(data: JourneyInput, now: int, decode: string -> int): (j: Journey)
    ensures j == NewJourney(data, now, decode)
    ensures Normalised(j)
  {
    var date := if Truthy(data.date) then ToMs(data.date.value, decode) else now;
    NewJourney(data.(date := Some(Instant(date))), now, decode)
  }

  /** Round trip: serialising a constructed journey and reading it back gives
      the same journey, provided ISO decoding inverts ISO encoding. */
  lemma {:induction false} RoundTrip(j: Journey, codec: IsoCodec, now: int)
    requires IsoLaws(codec)
    requires Normalised(j)
    ensures FromJson(AsInput(FromWire(ToJson(j.WithDate(Instant(j.date)), codec.encode))), now, codec.decode) == j
  {
    var w := ToJson(j.WithDate(Instant(j.date)), codec.encode);
    var data := AsInput(FromWire(w));
    assert codec.decode(codec.encode(j.date)) == j.date && codec.encode(j.date) != "";
    assert data.date == Some(Text(codec.encode(j.date)));
    NewJourneyIdempotent(j, now, codec.decode);
    assert data == AsInput(j.WithDate(Instant(j.date))).(date := data.date);
  }

  /** The BERA index 0 does not survive a read: the wire value 0 is falsy
      and comes back as 1. */
  lemma BeraZeroBecomesOne(w: JourneyOf<string>, now: int, decode: string -> int)
    requires w.meteo.bera == 0
    ensures FromJson(AsInput(FromWire(w)), now, decode).meteo.bera == 1
  {
  }
}

/** Time as the source handles it: instants are integer milliseconds since
    the epoch, "now" is a parameter, and the ISO-8601 conversions are a pair
    of functions given from outside. */
module Dates {
  import opened Wrappers

  /** Milliseconds in one day and in one week. */
  const DayMs: int := 24 * 60 * 60 * 1000
  const WeekMs: int := 7 * DayMs

  /** A date as it reaches the code: a `Date` object, or a string (from JSON
      or from a date input). */
  datatype DateField = Instant(ms: int) | Text(text: string)

  /** `Date.prototype.toISOString` and the parsing done by `new Date(string)`. */
  datatype IsoCodec = IsoCodec(encode: int -> string, decode: string -> int)

  /** What the round trip relies on: decoding inverts encoding, and an ISO
      string is never empty. */
  ghost predicate IsoLaws(codec: IsoCodec) {
    forall t :: codec.decode(codec.encode(t)) == t && codec.encode(t) != ""
  }

  /** Truthiness of an optional date: a `Date` object is always truthy, a
      string only when it is not empty. */
  predicate Truthy(d: Option<DateField>) {
    d.Some? && d.value != Text("")
  }

  /** `new Date(d).getTime()`. */
  function ToMs(d: DateField, decode: string -> int): int {
    match d
    case Instant(t) => t
    case Text(s) => decode(s)
  }

  /** date-fns `differenceInDays(later, earlier)`: the number of whole days
      from `earlier` to `later`, truncated toward zero. */
  function DifferenceInDays(later: int, earlier: int): (days: int)
    ensures later - earlier >= 0 ==> 0 <= days && days * DayMs <= later - earlier < (days + 1) * DayMs
    ensures later - earlier < 0 ==> days <= 0 && (days - 1) * DayMs < later - earlier <= days * DayMs
  {
    var diff := later - earlier;
    if diff >= 0 then diff / DayMs else -((-diff) / DayMs)
  }
}

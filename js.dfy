/** JavaScript's `||` defaulting, and the numeric parsers the forms rely on.

    `x || d` yields `d` when `x` is falsy.  For the values modelled here the
    falsy ones are: an absent value, the number 0, and the empty string.
    Arrays and objects are always truthy, so for them `||` only replaces an
    absent value (`Option.GetOr`).  NaN is not a value of the model: a parser
    that yields NaN is modelled as one that yields `None`. */
module Js {
  import opened Wrappers

  /** `x || d` on a number. */
  function OrNum(x: Option<real>, d: real): real {
    if x.Some? && x.value != 0.0 then x.value else d
  }

  /** `x || d` on an integer-valued number. */
  function OrInt(x: Option<int>, d: int): int {
    if x.Some? && x.value != 0 then x.value else d
  }

  /** `x || d` on a string. */
  function OrStr(x: Option<string>, d: string): string {
    if x.Some? && x.value != "" then x.value else d
  }

  /** `parseFloat` and `Number`: `None` stands for NaN. */
  type ParseReal = string -> Option<real>

  /** `parseInt` (radix 10): `None` stands for NaN. */
  type ParseInt = string -> Option<int>

  /** `parseFloat(s) || 0` and `Number(s) || 0`: a non-numeric input becomes 0,
      a numeric one is kept. */
  function RealOrZero(parse: ParseReal, s: string): (r: real)
    ensures parse(s).None? ==> r == 0.0
    ensures parse(s).Some? ==> r == parse(s).value
  {
    OrNum(parse(s), 0.0)
  }

  /** `parseInt(s) || 0`: a non-numeric input becomes 0, a numeric one is kept. */
  function IntOrZero(parse: ParseInt, s: string): (r: int)
    ensures parse(s).None? ==> r == 0
    ensures parse(s).Some? ==> r == parse(s).value
  {
    OrInt(parse(s), 0)
  }
}

/** The altitudes form: three numeric fields, each rebuilt through the
    `Altitudes` constructor from a spread with one value replaced. */
module AltitudesForm {
  import opened Wrappers
  import opened Js
  import opened Topo

  /** `handleMaxChange`: only the summit altitude changes; a value that is
      not a number gives 0. */
  function HandleMaxChange(altitudes: Altitudes, value: string, parse: ParseReal): (updated: Altitudes)
    ensures updated == altitudes.(max := RealOrZero(parse, value))
  {
    NewAltitudes(Some(altitudes.AsPatch().(max := Some(RealOrZero(parse, value)))))
  }

  /** `handleMinChange`: only the lowest altitude changes. */
  function HandleMinChange(altitudes: Altitudes, value: string, parse: ParseReal): (updated: Altitudes)
    ensures updated == altitudes.(min := RealOrZero(parse, value))
  {
    NewAltitudes(Some(altitudes.AsPatch().(min := Some(RealOrZero(parse, value)))))
  }

  /** `handleTotalChange`: only the total climb changes. */
  function HandleTotalChange(altitudes: Altitudes, value: string, parse: ParseReal): (updated: Altitudes)
    ensures updated == altitudes.(total := RealOrZero(parse, value))
  {
    NewAltitudes(Some(altitudes.AsPatch().(total := Some(RealOrZero(parse, value)))))
  }

  /** The height difference follows the two edited bounds, and entering a
      non-numeric total makes the altitudes invalid. */
  lemma EditedDenivele(altitudes: Altitudes, high: string, low: string, total: string, parse: ParseReal)
    ensures HandleMinChange(HandleMaxChange(altitudes, high, parse), low, parse).Denivele()
         == RealOrZero(parse, high) - RealOrZero(parse, low)
    ensures parse(total).None? ==> !HandleTotalChange(altitudes, total, parse).IsValid()
  {
  }

  /** Edits to different fields commute. */
  lemma AltitudeEditsCommute(altitudes: Altitudes, a: string, b: string, parse: ParseReal)
    ensures HandleMinChange(HandleMaxChange(altitudes, a, parse), b, parse)
         == HandleMaxChange(HandleMinChange(altitudes, b, parse), a, parse)
    ensures HandleTotalChange(HandleMaxChange(altitudes, a, parse), b, parse)
         == HandleMaxChange(HandleTotalChange(altitudes, b, parse), a, parse)
  {
  }
}

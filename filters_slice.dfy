/** The store slice holding the journey-list filters: a date range (ISO
    strings, as the store keeps only serialisable values) and a season. */
module FiltersSlice {
  import opened Wrappers
  import opened JourneyModel

  /** `SerializableDateRange`: either end may be absent. */
  datatype DateRange = DateRange(from: Option<string>, to: Option<string>)

  datatype FiltersState = FiltersState(dateRange: Option<DateRange>, season: Option<Season>)

  /** No date range and no season. */
  const InitialFilters := FiltersState(None, None)

  datatype FilterAction =
    | SetDateRange(range: Option<DateRange>)
    | SetSeason(season: Option<Season>)
    | ResetFilters

  /** The slice's reducer: the range action stores a copy of its payload,
      the season action its season, and reset clears both. */
  function Reduce(s: FiltersState, a: FilterAction): (r: FiltersState)
    ensures a.SetDateRange? ==> r.dateRange == a.range && r.season == s.season
    ensures a.SetSeason? ==> r.season == a.season && r.dateRange == s.dateRange
    ensures a.ResetFilters? ==> r.dateRange.None? && r.season.None?
  {
    match a
    case SetDateRange(range) =>
      s.(dateRange := if range.Some? then Some(DateRange(range.value.from, range.value.to)) else None)
    case SetSeason(season) => s.(season := season)
    case ResetFilters => s.(dateRange := None, season := None)
  }

  /** Setting the range stores the payload (or nothing) and keeps the season;
      setting the season keeps the range; resetting gives the initial
      filters from any state, so doing it twice is the same as once. */
  lemma FilterReducerProperties(s: FiltersState, range: Option<DateRange>, season: Option<Season>)
    ensures Reduce(s, SetDateRange(range)) == FiltersState(range, s.season)
    ensures Reduce(s, SetSeason(season)) == FiltersState(s.dateRange, season)
    ensures Reduce(s, ResetFilters) == InitialFilters
    ensures Reduce(Reduce(s, ResetFilters), ResetFilters) == Reduce(s, ResetFilters)
  {
  }

  class FiltersStore {
    var dateRange: Option<DateRange>
    var season: Option<Season>

    function State(): FiltersState
      reads this
    {
      FiltersState(dateRange, season)
    }

    constructor ()
      ensures State() == InitialFilters
    {
      dateRange, season := None, None;
    }

    /** `setDateRange`: store a copy of the payload's two ends, or no range
        when there is no payload. */
    method SetDateRange(range: Option<DateRange>)
      modifies this
      ensures dateRange == range && season == old(season)
      ensures State() == Reduce(old(State()), FilterAction.SetDateRange(range))
    {
      dateRange := if range.Some? then Some(DateRange(range.value.from, range.value.to)) else None;
    }

    /** `setSeason`: only the season changes. */
    method SetSeason(s: Option<Season>)
      modifies this
      ensures season == s && dateRange == old(dateRange)
      ensures State() == Reduce(old(State()), FilterAction.SetSeason(s))
    {
      season := s;
    }

    /** `resetFilters`: back to the initial filters. */
    method ResetFilters()
      modifies this
      ensures State() == InitialFilters
      ensures State() == Reduce(old(State()), FilterAction.ResetFilters)
    {
      dateRange := None;
      season := None;
    }
  }
}

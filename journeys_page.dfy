/** The journey list page: the journeys in the store, narrowed by the date
    range and the season chosen in the filters. */
module JourneysPage {
  import opened Wrappers
  import opened Seqs
  import opened JourneyModel
  import opened FiltersSlice

  /** A non-empty string is truthy. */
  predicate Filled(s: Option<string>) {
    s.Some? && s.value != ""
  }

  /** The date filter runs only when both ends of the range are filled in. */
  predicate DateFilterActive(dateRange: Option<DateRange>) {
    dateRange.Some? && Filled(dateRange.value.from) && Filled(dateRange.value.to)
  }

  /** What the page keeps, journey by journey: when the date filter runs, a
      journey on or after the range's start (its end only has to be there);
      when a season is chosen, a journey of that season. */
  predicate Selected(j: Journey, dateRange: Option<DateRange>, season: Option<Season>, decode: string -> int)
    ensures !DateFilterActive(dateRange) && season.None? ==> Selected(j, dateRange, season, decode)
    ensures Selected(j, dateRange, season, decode) && season.Some? ==> j.season == season.value
  {
    (DateFilterActive(dateRange) ==> j.date >= decode(dateRange.value.from.value))
    && (season.Some? ==> j.season == season.value)
  }

  /** `filteredJourneys`: no list gives the empty list; otherwise the list
      filtered first by date, then by season.  A journey is in the result
      exactly when it is in the list and is selected. */
  function FilteredJourneys(journeys: Option<seq<Journey>>, dateRange: Option<DateRange>, season: Option<Season>,
                            decode: string -> int): (r: seq<Journey>)
    ensures journeys.None? ==> r == []
    ensures journeys.Some? ==> |r| <= |journeys.value|
    ensures forall i :: 0 <= i < |r| ==> journeys.Some? && r[i] in journeys.value
    ensures forall i :: 0 <= i < |r| ==> Selected(r[i], dateRange, season, decode)
    ensures journeys.Some? ==>
      forall i :: 0 <= i < |journeys.value| && Selected(journeys.value[i], dateRange, season, decode) ==> journeys.value[i] in r
  {
    if journeys.None? then []
    else
      var byDate :=
        if DateFilterActive(dateRange)
        then Filter(journeys.value, (j: Journey) => j.date >= decode(dateRange.value.from.value))
        else journeys.value;
      if season.Some? then Filter(byDate, (j: Journey) => j.season == season.value) else byDate
  }

  /** Every copy of a selected journey is listed, and no copy of another. */
  lemma FilteredJourneysCounts(journeys: seq<Journey>, dateRange: Option<DateRange>, season: Option<Season>,
                               decode: string -> int)
    ensures forall x :: multiset(FilteredJourneys(Some(journeys), dateRange, season, decode))[x]
                     == if Selected(x, dateRange, season, decode) then multiset(journeys)[x] else 0
  {
    var byDate :=
      if DateFilterActive(dateRange)
      then Filter(journeys, (j: Journey) => j.date >= decode(dateRange.value.from.value))
      else journeys;
    if DateFilterActive(dateRange) {
      FilterCounts(journeys, (j: Journey) => j.date >= decode(dateRange.value.from.value));
    }
    if season.Some? {
      FilterCounts(byDate, (j: Journey) => j.season == season.value);
    }
  }

  /** The result keeps the list's order: it is a subsequence of it. */
  lemma FilteredIsSubsequence(journeys: seq<Journey>, dateRange: Option<DateRange>, season: Option<Season>,
                              decode: string -> int)
    ensures IsSubsequence(FilteredJourneys(Some(journeys), dateRange, season, decode), journeys)
  {
    var byDate :=
      if DateFilterActive(dateRange)
      then Filter(journeys, (j: Journey) => j.date >= decode(dateRange.value.from.value))
      else journeys;
    if DateFilterActive(dateRange) {
      FilterIsSubsequence(journeys, (j: Journey) => j.date >= decode(dateRange.value.from.value));
    } else {
      SubsequenceReflexive(journeys);
    }
    if season.Some? {
      FilterIsSubsequence(byDate, (j: Journey) => j.season == season.value);
      SubsequenceTransitive(Filter(byDate, (j: Journey) => j.season == season.value), byDate, journeys);
    }
  }

  /** Without a date range or a season, the page shows the whole list. */
  lemma NoFilterShowsAll(journeys: seq<Journey>, decode: string -> int)
    ensures FilteredJourneys(Some(journeys), None, None, decode) == journeys
  {
  }

  /** With only one end of the range filled in, the dates are not looked at. */
  lemma HalfRangeIgnored(journeys: seq<Journey>, from: string, season: Option<Season>, decode: string -> int)
    ensures FilteredJourneys(Some(journeys), Some(DateRange(Some(from), None)), season, decode)
         == FilteredJourneys(Some(journeys), None, season, decode)
  {
  }

  /** As written, the end of the range is only tested for being present: a
      journey after the range is still listed. */
  lemma AfterRangeStillListed(j: Journey, from: string, to: string, decode: string -> int)
    requires from != "" && to != ""
    requires decode(from) <= j.date && decode(to) < j.date
    ensures FilteredJourneys(Some([j]), Some(DateRange(Some(from), Some(to))), None, decode) == [j]
  {
    var keep := (x: Journey) => x.date >= decode(from);
    assert Filter([j], keep) == [j] + Filter([j][1..], keep);
  }

  /** The filter as evidently meant: a journey is listed when its date lies
      between the two ends of the range, both included. */
  predicate Within(j: Journey, dateRange: Option<DateRange>, season: Option<Season>, decode: string -> int) {
    (DateFilterActive(dateRange) ==>
      decode(dateRange.value.from.value) <= j.date <= decode(dateRange.value.to.value))
    && (season.Some? ==> j.season == season.value)
  }

  function FilteredJourneysWithin(journeys: Option<seq<Journey>>, dateRange: Option<DateRange>, season: Option<Season>,
                                  decode: string -> int): (r: seq<Journey>)
    ensures journeys.None? ==> r == []
    ensures forall i :: 0 <= i < |r| ==> journeys.Some? && r[i] in journeys.value
    ensures forall i :: 0 <= i < |r| ==> Within(r[i], dateRange, season, decode)
    ensures journeys.Some? ==>
      forall i :: 0 <= i < |journeys.value| && Within(journeys.value[i], dateRange, season, decode) ==> journeys.value[i] in r
  {
    if journeys.None? then []
    else
      var byDate :=
        if DateFilterActive(dateRange)
        then Filter(journeys.value, (j: Journey) =>
          decode(dateRange.value.from.value) <= j.date <= decode(dateRange.value.to.value))
        else journeys.value;
      if season.Some? then Filter(byDate, (j: Journey) => j.season == season.value) else byDate
  }

  /** The corrected filter, too, lists every copy of a journey within the
      range and no copy of another. */
  lemma FilteredWithinCounts(journeys: seq<Journey>, dateRange: Option<DateRange>, season: Option<Season>,
                             decode: string -> int)
    ensures forall x :: multiset(FilteredJourneysWithin(Some(journeys), dateRange, season, decode))[x]
                     == if Within(x, dateRange, season, decode) then multiset(journeys)[x] else 0
  {
    var byDate :=
      if DateFilterActive(dateRange)
      then Filter(journeys, (j: Journey) =>
        decode(dateRange.value.from.value) <= j.date <= decode(dateRange.value.to.value))
      else journeys;
    if DateFilterActive(dateRange) {
      FilterCounts(journeys, (j: Journey) =>
        decode(dateRange.value.from.value) <= j.date <= decode(dateRange.value.to.value));
    }
    if season.Some? {
      FilterCounts(byDate, (j: Journey) => j.season == season.value);
    }
  }

  /** With the corrected filter, a journey after the range is not listed. */
  lemma AfterRangeNotListedWithin(journeys: seq<Journey>, j: Journey, from: string, to: string, decode: string -> int)
    requires from != "" && to != ""
    requires decode(to) < j.date
    ensures j !in FilteredJourneysWithin(Some(journeys), Some(DateRange(Some(from), Some(to))), None, decode)
  {
  }
}

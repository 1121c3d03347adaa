/** The watermark rule of the combined Lambda (aws_lambda/lambda_api_pull.py):
    from the last day a FRED series was stored, the `observation_start` of the
    next request, or nothing when the series is already up to date.

    `date_today` is read once when the module loads, so it is a parameter
    here that every series of one run shares. The output format is the
    configured `fred_output_date_format`, taken to be `'%Y-%m-%d'`. */
module LambdaApiPull {
  import opened Py
  import opened Calendar

  /** The start used for a series with no stored data. */
  const DefaultObservationStart := "2000-01-01"

  /** `last_updated_day_is_today`: a plain equality test, which a missing
      stored day never passes. */
  predicate LastUpdatedDayIsToday(dateToday: PyDate, lastUpdatedDay: Option<PyDate>)
    ensures LastUpdatedDayIsToday(dateToday, lastUpdatedDay) ==> lastUpdatedDay.Some? && lastUpdatedDay.value == dateToday
    ensures lastUpdatedDay.None? ==> !LastUpdatedDayIsToday(dateToday, lastUpdatedDay)
  {
    lastUpdatedDay == Some(dateToday)
  }

  /** `no_dates_found_for_dataset`: disjoint from the today test, whatever
      today is. */
  predicate NoDatesFoundForDataset(lastUpdatedDay: Option<PyDate>)
    ensures NoDatesFoundForDataset(lastUpdatedDay) ==> forall dateToday :: !LastUpdatedDayIsToday(dateToday, lastUpdatedDay)
    ensures !NoDatesFoundForDataset(lastUpdatedDay) ==> LastUpdatedDayIsToday(lastUpdatedDay.value, lastUpdatedDay)
  {
    lastUpdatedDay.None?
  }

  /** `day_after_last_updated_day`: one day later, formatted. Stepping past
      9999-12-31 raises OverflowError. */
  function DayAfterLastUpdatedDay(lastUpdatedDay: PyDate): (r: Result<string>)
    ensures r.Ok? <==> lastUpdatedDay != LastDate
    ensures r.Err? ==> r.exc == OverflowError
    ensures r.Ok? ==> exists next :: NextDay(lastUpdatedDay) == Ok(next) && r.value == Format(next)
  {
    var next :- NextDay(lastUpdatedDay);
    Ok(Format(next))
  }

  /** `determine_fred_observation_start`: the today test comes first, then
      the missing-date test, then the day after. */
  function DetermineFredObservationStart(lastUpdatedDay: Option<PyDate>, dateToday: PyDate): (r: Result<Option<string>>)
    ensures r == Ok(None) <==> lastUpdatedDay == Some(dateToday)
    ensures lastUpdatedDay.None? ==> r == Ok(Some(DefaultObservationStart))
    ensures r.Err? <==> lastUpdatedDay == Some(LastDate) && dateToday != LastDate
    ensures r.Err? ==> r.exc == OverflowError
    ensures lastUpdatedDay.Some? && lastUpdatedDay.value != dateToday && NextDay(lastUpdatedDay.value).Ok? ==>
              r == Ok(Some(Format(NextDay(lastUpdatedDay.value).value)))
  {
    if LastUpdatedDayIsToday(dateToday, lastUpdatedDay) then Ok(None)
    else if NoDatesFoundForDataset(lastUpdatedDay) then Ok(Some(DefaultObservationStart))
    else
      var s :- DayAfterLastUpdatedDay(lastUpdatedDay.value);
      Ok(Some(s))
  }

  /** For a stored day other than today the start is the following calendar
      day: strictly later than the stored day, with no day in between, and
      never the stored day itself. */
  lemma {:induction false} ObservationStartIsNextDay(lastUpdatedDay: PyDate, dateToday: PyDate)
    requires lastUpdatedDay != dateToday && lastUpdatedDay != LastDate
    ensures var r := DetermineFredObservationStart(Some(lastUpdatedDay), dateToday);
      r.Ok? && r.value.Some? && r.value.value == Format(NextDay(lastUpdatedDay).value) &&
      exists next: PyDate ::
        Parse(r.value.value) == Ok(next) && Before(lastUpdatedDay, next)
        && (forall e: PyDate :: Before(lastUpdatedDay, e) ==> NotAfter(next, e))
  {
    var next := NextDay(lastUpdatedDay).value;
    ParseFormat(next);
  }

  /** A start string is never the stored day written out. */
  lemma {:induction false} ObservationStartNotStoredDay(lastUpdatedDay: PyDate, dateToday: PyDate)
    requires lastUpdatedDay != dateToday
    requires DetermineFredObservationStart(Some(lastUpdatedDay), dateToday).Ok?
    ensures DetermineFredObservationStart(Some(lastUpdatedDay), dateToday) != Ok(Some(Format(lastUpdatedDay)))
  {
    var next := NextDay(lastUpdatedDay).value;
    if Format(next) == Format(lastUpdatedDay) {
      FormatInjective(next, lastUpdatedDay);
    }
  }

  /** A series with no stored data starts at 1 January 2000. */
  lemma DefaultIsFirstOfJanuary2000()
    ensures Parse(DefaultObservationStart) == Ok(Date(2000, 1, 1))
  {
    ParseFormat(Date(2000, 1, 1));
    assert Format(Date(2000, 1, 1)) == DefaultObservationStart;
  }
}

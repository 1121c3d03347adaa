/** The FRED Lambda (fred_lambda/lambda_function.py): the request window
    from the stored watermark, and the list of series requests built from the
    configured JSON mapping. `datetime.now()` is a parameter. */
module FredLambda {
  import opened Py
  import opened Json
  import opened Calendar
  import opened FredRequest
  import opened RequestMapping

  /** `determine_observation_start`: None only when the stored value equals
      the current instant, time of day included; otherwise the stored day
      itself as `'%Y-%m-%d'`. A missing stored value is not defaulted:
      `None.strftime` raises AttributeError. */
  function DetermineObservationStart(lastUpdatedDay: Option<DateTime>, now: DateTime): (r: Result<Option<string>>)
    ensures r == Ok(None) <==> lastUpdatedDay == Some(now)
    ensures r.Err? <==> lastUpdatedDay.None?
    ensures r.Err? ==> r.exc == AttributeError
    ensures r.Ok? && r.value.Some? ==>
              |r.value.value| == 10 && Parse(r.value.value) == Ok(lastUpdatedDay.value.date)
    ensures r.Ok? && r.value.Some? ==> r.value.value == Format(lastUpdatedDay.value.date)
  {
    if lastUpdatedDay == Some(now) then Ok(None)
    else match lastUpdatedDay
      case None => Err(AttributeError)
      case Some(last) =>
        ParseFormat(last.date);
        Ok(Some(Format(last.date)))
  }

  /** A day stored at midnight is requested again, not the day after,
      unless the run happens at exactly that midnight. */
  lemma {:induction false} StoredDayIsRequestedAgain(d: PyDate, now: DateTime)
    requires now != AtMidnight(d)
    ensures DetermineObservationStart(Some(AtMidnight(d)), now) == Ok(Some(Format(d)))
    ensures d != LastDate ==> DetermineObservationStart(Some(AtMidnight(d)), now) != Ok(Some(Format(NextDay(d).value)))
  {
    if d != LastDate {
      var next := NextDay(d).value;
      if Format(next) == Format(d) {
        FormatInjective(next, d);
      }
    }
  }

  /** The request objects hold these fields. */
  ghost predicate Hold(requests: seq<FredApiRequest>, fields: seq<RequestFields>)
    reads requests
  {
    |requests| == |fields|
    && forall i :: 0 <= i < |requests| ==>
         requests[i].name == fields[i].name && requests[i].seriesId == fields[i].id
         && requests[i].parameters == fields[i].parameters
  }

  lemma HoldAppend(requests: seq<FredApiRequest>, fields: seq<RequestFields>, request: FredApiRequest, f: RequestFields)
    requires Hold(requests, fields)
    requires request.name == f.name && request.seriesId == f.id && request.parameters == f.parameters
    ensures Hold(requests + [request], fields + [f])
  {
  }

  /** `create_fred_requests`: builds the request objects in a loop over the
      mapping's items, appending each one; the series id is the entry's
      `'series_id'`. */
  method CreateFredRequests(requestsJson: Json) returns (r: Result<seq<FredApiRequest>>)
    ensures r.Ok? <==> MappingFields(requestsJson, "series_id").Ok?
    ensures r.Err? ==> r.exc == MappingFields(requestsJson, "series_id").exc
    ensures r.Ok? ==> Hold(r.value, MappingFields(requestsJson, "series_id").value)
    ensures !requestsJson.JObj? ==> r == Err(AttributeError)
    ensures requestsJson.JObj? && r.Err? ==> FirstFailure(requestsJson.fields, "series_id", r.exc)
  {
    if !requestsJson.JObj? {
      return Err(AttributeError);
    }
    var entries := requestsJson.fields;
    var fredRequests: seq<FredApiRequest> := [];
    ghost var done: seq<RequestFields> := [];
    var i := 0;
    PrependStart(entries, "series_id");
    while i < |entries|
      invariant 0 <= i <= |entries|
      invariant EntriesFields(entries, "series_id") == Prepend(done, EntriesFields(entries[i..], "series_id"))
      invariant Hold(fredRequests, done)
    {
      var entry := entries[i];
      PrependStep(done, entries, "series_id", i);
      var requestSeriesId := Subscript(entry.1, "series_id");
      if requestSeriesId.Err? {
        MappingFailsAt(requestsJson, "series_id", done, i, requestSeriesId.exc);
        return Err(requestSeriesId.exc);
      }
      var requestParams := GetOr(entry.1, "parameters", JObj([]));
      if !requestParams.value.JObj? {
        MappingFailsAt(requestsJson, "series_id", done, i, TypeError);
        return Err(TypeError);
      }
      var newRequest := new FredApiRequest(entry.0, requestSeriesId.value, ToMap(requestParams.value.fields));
      ghost var fields := RequestFields(entry.0, requestSeriesId.value, ToMap(requestParams.value.fields));
      assert EntryFields(entry, "series_id") == Ok(fields);
      HoldAppend(fredRequests, done, newRequest, fields);
      fredRequests := fredRequests + [newRequest];
      done := done + [fields];
      i := i + 1;
    }
    PrependEnd(done, entries, "series_id");
    return Ok(fredRequests);
  }
}

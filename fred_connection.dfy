/** `FredApiConnectionManager`
    (fred_lambda/fred_api_management/fred_api_connection_manager.py): the
    latest vintage date of a series, and the bounded-retry GET of its
    observations. */
module FredConnection {
  import opened Py
  import opened Json
  import opened Calendar
  import opened Http
  import opened Retry
  import opened Dates
  import opened FredRequest

  /** How the FRED loop treats one attempt: a request error or an
      undecodable body moves on to the next attempt, a decodable body is
      returned. */
  function FredStep(a: Attempt): (s: Step<Result<Json>>)
    ensures s.Stop? <==> !RequestFails(a) && a.body.Decodes?
    ensures s.Stop? ==> s.result == Ok(a.body.json)
  {
    if RequestFails(a) then Continue
    else match a.body
      case Decodes(j) => Stop(Ok(j))
      case Undecodable => Continue
  }

  /** The query parameters `make_request` sends: the request's own map with
      the series id, the key and the start written over it. */
  function RequestParameters(parameters: map<string, Json>, seriesId: Json, apiKey: string, observationStart: string): (p: map<string, Json>)
    ensures p.Keys == parameters.Keys + {"series_id", "api_key", "observation_start"}
    ensures p["series_id"] == seriesId && p["api_key"] == JStr(apiKey) && p["observation_start"] == JStr(observationStart)
    ensures forall k :: k in parameters && k !in {"series_id", "api_key", "observation_start"} ==> p[k] == parameters[k]
  {
    parameters["series_id" := seriesId]["api_key" := JStr(apiKey)]["observation_start" := JStr(observationStart)]
  }

  /** The value under `'vintage_dates'` when the body has it. */
  function VintageDates(jsonData: Json): Json
    requires HasKey(jsonData, "vintage_dates")
  {
    Subscript(jsonData, "vintage_dates").value
  }

  class FredApiConnectionManager {
    const apiUrl: string

    constructor (apiUrl: string)
      ensures this.apiUrl == apiUrl
    {
      this.apiUrl := apiUrl;
    }

    /** `get_last_updated_date(json_data)`: the latest of the series'
        vintage dates, at midnight. A body that is not a dict cannot be
        subscripted (TypeError); a dict without `'vintage_dates'` raises
        KeyError; no vintage dates give None; an element that is not a
        `'%Y-%m-%d'` string fails the whole call. */
    function GetLastUpdatedDate(jsonData: Json): (r: Result<Option<DateTime>>)
      ensures !jsonData.JObj? ==> r == Err(TypeError)
      ensures jsonData.JObj? && !HasKey(jsonData, "vintage_dates") ==> r == Err(KeyError)
      ensures r.Ok? <==> HasKey(jsonData, "vintage_dates") && Elements(VintageDates(jsonData)).Ok?
                          && forall x :: x in Elements(VintageDates(jsonData)).value ==> IsDateString(x)
      ensures r == Ok(None) <==> HasKey(jsonData, "vintage_dates") && Len(VintageDates(jsonData)) == Ok(0)
      ensures r.Ok? && r.value.Some? ==>
                var last := r.value.value;
                var dates := Elements(VintageDates(jsonData)).value;
                last == AtMidnight(last.date)
                && (exists x :: x in dates && Parse(x.s) == Ok(last.date))
                && (forall x :: x in dates ==> NotAfter(Parse(x.s).value, last.date))
      ensures HasKey(jsonData, "vintage_dates") && Elements(VintageDates(jsonData)).Ok? && r.Err? ==>
                r.exc == ValueError || r.exc == TypeError
    {
      var dates :- Subscript(jsonData, "vintage_dates");
      var n :- Len(dates);
      if n == 0 then Ok(None)
      else
        var elements := Elements(dates).value;
        var parsed :- StrptimeEach(elements);
        var last := Latest(parsed);
        assert exists x :: x in elements && Parse(x.s) == Ok(last) by {
          var i :| 0 <= i < |parsed| && parsed[i] == last;
          assert elements[i] in elements;
        }
        assert forall x :: x in elements ==> NotAfter(Parse(x.s).value, last) by {
          forall x | x in elements
            ensures NotAfter(Parse(x.s).value, last)
          {
            var i :| 0 <= i < |elements| && elements[i] == x;
          }
        }
        Ok(Some(AtMidnight(last)))
    }

    /** `make_request`: writes the series id, the key and the start into the
        request's own parameter map (the dict is updated in place), then
        tries up to `maxRetries` GETs of `api_url` with those parameters,
        sleeping `retryDelay` seconds before every attempt after the first.
        The Python loop variable is rebound by `range` on every iteration,
        so the `tries += 1` at the end of the body has no effect. */
    method MakeRequest(apiKey: string, fredApiRequest: FredApiRequest, observationStart: string,
                       retryDelay: nat, maxRetries: int, respond: nat -> Attempt)
      returns (r: Result<Json>, ghost trace: seq<Event>)
      modifies fredApiRequest
      ensures fredApiRequest.parameters
           == RequestParameters(old(fredApiRequest.parameters), old(fredApiRequest.seriesId), apiKey, observationStart)
      ensures fredApiRequest.name == old(fredApiRequest.name) && fredApiRequest.seriesId == old(fredApiRequest.seriesId)
      ensures var out := Run(FredStep, Err(MaxFredDataRequestTriesError),
                             Get(apiUrl, map[], fredApiRequest.parameters), Fixed(retryDelay),
                             respond, maxRetries, 0);
        r == out.0 && trace == out.1
    {
      fredApiRequest.parameters := fredApiRequest.parameters["series_id" := fredApiRequest.seriesId];
      fredApiRequest.parameters := fredApiRequest.parameters["api_key" := JStr(apiKey)];
      fredApiRequest.parameters := fredApiRequest.parameters["observation_start" := JStr(observationStart)];
      var params := fredApiRequest.parameters;
      ghost var request := Get(apiUrl, map[], params);
      ghost var spec := Run(FredStep, Err(MaxFredDataRequestTriesError), request, Fixed(retryDelay), respond, maxRetries, 0);
      trace := [];
      var tries: nat := 0;
      while tries < maxRetries
        invariant fredApiRequest.parameters == params
        invariant fredApiRequest.name == old(fredApiRequest.name) && fredApiRequest.seriesId == old(fredApiRequest.seriesId)
        invariant Follows(spec, trace, FredStep, Err(MaxFredDataRequestTriesError), request, Fixed(retryDelay), respond, maxRetries, tries)
        decreases maxRetries - tries
      {
        ghost var before := trace;
        if tries >= 1 {
          trace := trace + [Sleep(retryDelay)];
        }
        trace := trace + [request];
        assert trace == before + (PauseBefore(Fixed(retryDelay), tries) + [request]);
        var response := respond(tries);
        if RequestFails(response) {
          RunContinues(spec, before, FredStep, Err(MaxFredDataRequestTriesError), request, Fixed(retryDelay), respond, maxRetries, tries);
          tries := tries + 1;
          continue;
        }
        match response.body {
          case Decodes(jsonData) =>
            RunStops(spec, before, FredStep, Err(MaxFredDataRequestTriesError), request, Fixed(retryDelay), respond, maxRetries, tries);
            r := Ok(jsonData);
            return;
          case Undecodable =>
        }
        RunContinues(spec, before, FredStep, Err(MaxFredDataRequestTriesError), request, Fixed(retryDelay), respond, maxRetries, tries);
        tries := tries + 1;
      }
      RunExhausted(spec, trace, FredStep, Err(MaxFredDataRequestTriesError), request, Fixed(retryDelay), respond, maxRetries, tries);
      r := Err(MaxFredDataRequestTriesError);
    }
  }

  /** At most `max_retries` GETs, none when it is zero or negative; before
      each GET after the first the loop sleeps `retry_delay`. */
  lemma {:induction false} FredAttemptBound(request: Event, retryDelay: nat, maxRetries: int, respond: nat -> Attempt)
    requires request.Get?
    ensures var out := Run(FredStep, Err(MaxFredDataRequestTriesError), request, Fixed(retryDelay), respond, maxRetries, 0);
      Requests(out.1) <= (if maxRetries > 0 then maxRetries else 0)
      && Sleeps(out.1) == seq(if Requests(out.1) > 0 then Requests(out.1) - 1 else 0, _ => retryDelay)
      && (maxRetries <= 0 ==> out == (Err(MaxFredDataRequestTriesError), []))
  {
    RunOutcome(FredStep, Err(MaxFredDataRequestTriesError), request, Fixed(retryDelay), respond, maxRetries, 0);
    var n := AttemptsMade(FredStep, respond, 0, maxRetries);
    ScheduleRequests(request, Fixed(retryDelay), 0, n);
    ScheduleFixed(request, retryDelay, 0, n);
  }

  /** The first attempt that succeeds with a decodable body decides the
      result: its body is returned after exactly that many GETs. When there is
      none, MaxFredDataRequestTriesError is raised after all `max_retries`. */
  lemma {:induction false} FredFirstDecodableWins(request: Event, retryDelay: nat, maxRetries: int, respond: nat -> Attempt)
    requires request.Get?
    ensures var out := Run(FredStep, Err(MaxFredDataRequestTriesError), request, Fixed(retryDelay), respond, maxRetries, 0);
      (out.0.Ok? <==> exists k :: 0 <= k < maxRetries && !RequestFails(respond(k)) && respond(k).body.Decodes?)
      && (out.0.Ok? ==> exists k :: 0 <= k < maxRetries && !RequestFails(respond(k)) && respond(k).body.Decodes?
                          && out.0.value == respond(k).body.json && Requests(out.1) == k + 1
                          && forall i :: 0 <= i < k ==> RequestFails(respond(i)) || respond(i).body.Undecodable?)
      && (out.0.Err? ==> out.0 == Err(MaxFredDataRequestTriesError) && Requests(out.1) == (if maxRetries > 0 then maxRetries else 0))
  {
    RunOutcome(FredStep, Err(MaxFredDataRequestTriesError), request, Fixed(retryDelay), respond, maxRetries, 0);
    ScheduleRequests(request, Fixed(retryDelay), 0, AttemptsMade(FredStep, respond, 0, maxRetries));
    match FirstStop(FredStep, respond, 0, maxRetries)
    case Some(k) =>
    case None =>
      assert forall k :: 0 <= k < maxRetries ==> FredStep(respond(k)).Continue?;
  }
}

/** `PetfinderApiConnectionManager` of the Petfinder Lambda
    (petfinder_lambda/petfinder_api_management/petfinder_api_connection_manager.py):
    the listing URL for a category, and a GET retried on a list of delays. */
module PetfinderLambdaConnection {
  import opened Py
  import opened Json
  import opened Http
  import opened Retry
  import opened PetfinderRequest

  /** How the loop treats one attempt: a request error or an undecodable body
      moves on to the next attempt (the re-raise meant for the last attempt
      tests `tries == max_tries`, which `range(max_tries)` never reaches), a
      decodable body is returned. */
  function PetfinderStep(a: Attempt): (s: Step<Option<Json>>)
    ensures s.Stop? <==> !RequestFails(a) && a.body.Decodes?
    ensures s.Stop? ==> s.result == Some(a.body.json)
  {
    if RequestFails(a) then Continue
    else match a.body
      case Decodes(j) => Stop(Some(j))
      case Undecodable => Continue
  }

  class PetfinderApiConnectionManager {
    const apiUrl: string
    /** Stored by the constructor and never read again. */
    const accessToken: Json

    constructor (apiUrl: string, accessToken: Json)
      ensures this.apiUrl == apiUrl && this.accessToken == accessToken
    {
      this.apiUrl := apiUrl;
      this.accessToken := accessToken;
    }

    /** `format_url_with_category`: `urljoin(api_url, category)`. A string
        category is resolved as a path segment, a false category leaves the
        base, anything else raises TypeError. */
    function FormatUrlWithCategory(category: Json): (r: Result<string>)
      requires apiUrl != ""
      requires category.JStr? && category.s != "" ==> SimpleSegment(category.s)
      ensures r.Err? <==> Truthy(category) && !category.JStr?
      ensures r.Err? ==> r.exc == TypeError
      ensures !Truthy(category) ==> r == Ok(apiUrl)
      ensures category.JStr? && category.s != "" ==> r == Ok(UrlJoin(apiUrl, category.s))
    {
      UrlJoinValue(apiUrl, category)
    }

    /** A base whose path ends in `/` simply gains the category. */
    lemma FormatUrlDirectoryBase(category: string)
      requires apiUrl != "" && category != "" && SimpleSegment(category)
      requires QueryStart(apiUrl) == |apiUrl| && |apiUrl| > PathStart(apiUrl) && apiUrl[|apiUrl| - 1] == '/'
      ensures FormatUrlWithCategory(JStr(category)) == Ok(apiUrl + category)
    {
      UrlJoinDirectoryBase(apiUrl, category);
    }

    /** `make_request`: the header carries the `access_token` argument; the URL
        is the category's; then up to `len(retry_seconds) + 1` GETs, sleeping
        `retry_seconds[tries - 1]` before attempt `tries >= 1`. When every
        attempt fails the method falls off its end and returns None. */
    method MakeRequest(petfinderApiRequest: PetfinderApiRequest, accessToken: Json, retrySeconds: seq<nat>,
                       respond: nat -> Attempt)
      returns (r: Result<Option<Json>>, ghost trace: seq<Event>)
      requires apiUrl != ""
      requires petfinderApiRequest.category.JStr? && petfinderApiRequest.category.s != ""
               ==> SimpleSegment(petfinderApiRequest.category.s)
      ensures FormatUrlWithCategory(petfinderApiRequest.category).Err? ==> r == Err(TypeError) && trace == []
      ensures FormatUrlWithCategory(petfinderApiRequest.category).Ok? ==>
                var out := Run(PetfinderStep, None,
                               Get(FormatUrlWithCategory(petfinderApiRequest.category).value,
                                   AuthorizationHeader(Str(accessToken)), petfinderApiRequest.parameters),
                               Listed(retrySeconds), respond, |retrySeconds| + 1, 0);
                r == Ok(out.0) && trace == out.1
    {
      trace := [];
      var accessTokenHeader := AuthorizationHeader(Str(accessToken));
      var url := FormatUrlWithCategory(petfinderApiRequest.category);
      if url.Err? {
        return Err(url.exc), trace;
      }
      var apiUrl := url.value;
      var params := petfinderApiRequest.parameters;
      ghost var request := Get(apiUrl, accessTokenHeader, params);
      var maxTries := |retrySeconds| + 1;
      ghost var spec := Run(PetfinderStep, None, request, Listed(retrySeconds), respond, maxTries, 0);
      var tries: nat := 0;
      while tries < maxTries
        invariant Follows(spec, trace, PetfinderStep, None, request, Listed(retrySeconds), respond, maxTries, tries)
        decreases maxTries - tries
      {
        ghost var before := trace;
        if tries >= 1 {
          trace := trace + [Sleep(retrySeconds[tries - 1])];
        }
        trace := trace + [request];
        assert trace == before + (PauseBefore(Listed(retrySeconds), tries) + [request]);
        var response := respond(tries);
        // A failed request goes straight on to the next attempt; so does an
        // undecodable body.
        if !RequestFails(response) {
          match response.body {
            case Decodes(jsonData) =>
              RunStops(spec, before, PetfinderStep, None, request, Listed(retrySeconds), respond, maxTries, tries);
              return Ok(Some(jsonData)), trace;
            case Undecodable =>
          }
        }
        RunContinues(spec, before, PetfinderStep, None, request, Listed(retrySeconds), respond, maxTries, tries);
        tries := tries + 1;
      }
      RunExhausted(spec, trace, PetfinderStep, None, request, Listed(retrySeconds), respond, maxTries, tries);
      r := Ok(None);
    }
  }

  /** At least one and at most `len(retry_seconds) + 1` GETs; the sleeps are
      a prefix of `retry_seconds`, in order, one fewer than the GETs. */
  lemma {:induction false} PetfinderAttemptBound(request: Event, retrySeconds: seq<nat>, respond: nat -> Attempt)
    requires request.Get?
    ensures var out := Run(PetfinderStep, None, request, Listed(retrySeconds), respond, |retrySeconds| + 1, 0);
      1 <= Requests(out.1) <= |retrySeconds| + 1
      && Sleeps(out.1) == retrySeconds[..Requests(out.1) - 1]
  {
    RunOutcome(PetfinderStep, None, request, Listed(retrySeconds), respond, |retrySeconds| + 1, 0);
    var n := AttemptsMade(PetfinderStep, respond, 0, |retrySeconds| + 1);
    ScheduleRequests(request, Listed(retrySeconds), 0, n);
    ScheduleListedFromStart(request, retrySeconds, n);
  }

  /** The first attempt that succeeds with a decodable body decides the
      result. When there is none the result is None, not an exception, after
      all `len(retry_seconds) + 1` GETs. */
  lemma {:induction false} PetfinderFirstDecodableWins(request: Event, retrySeconds: seq<nat>, respond: nat -> Attempt)
    requires request.Get?
    ensures var out := Run(PetfinderStep, None, request, Listed(retrySeconds), respond, |retrySeconds| + 1, 0);
      (out.0.Some? <==> exists k :: 0 <= k <= |retrySeconds| && !RequestFails(respond(k)) && respond(k).body.Decodes?)
      && (out.0.Some? ==> exists k :: 0 <= k <= |retrySeconds| && !RequestFails(respond(k)) && respond(k).body.Decodes?
                            && out.0.value == respond(k).body.json && Requests(out.1) == k + 1
                            && forall i :: 0 <= i < k ==> RequestFails(respond(i)) || respond(i).body.Undecodable?)
      && (out.0.None? ==> Requests(out.1) == |retrySeconds| + 1)
  {
    RunOutcome(PetfinderStep, None, request, Listed(retrySeconds), respond, |retrySeconds| + 1, 0);
    ScheduleRequests(request, Listed(retrySeconds), 0, AttemptsMade(PetfinderStep, respond, 0, |retrySeconds| + 1));
    match FirstStop(PetfinderStep, respond, 0, |retrySeconds| + 1)
    case Some(k) =>
    case None =>
      assert forall k :: 0 <= k <= |retrySeconds| ==> PetfinderStep(respond(k)).Continue?;
  }

  /** With `retry_seconds = [1, 2]`, two failed attempts and then a good
      answer: the loop sleeps 1, then 2, and returns the third body. */
  lemma TwoFailuresThenSuccess(request: Event, respond: nat -> Attempt)
    requires request.Get?
    requires RequestFails(respond(0)) && !RequestFails(respond(1)) && respond(1).body.Undecodable?
    requires !RequestFails(respond(2)) && respond(2).body.Decodes?
    ensures Run(PetfinderStep, None, request, Listed([1, 2]), respond, 3, 0)
         == (Some(respond(2).body.json), [request, Sleep(1), request, Sleep(2), request])
  {
    var pauses := Listed([1, 2]);
    assert PetfinderStep(respond(2)) == Stop(Some(respond(2).body.json));
    assert PauseBefore(pauses, 1) == [Sleep(1)] && PauseBefore(pauses, 2) == [Sleep(2)];
    var third := Run(PetfinderStep, None, request, pauses, respond, 3, 2);
    assert third == (Some(respond(2).body.json), [Sleep(2)] + [request]);
    var second := Run(PetfinderStep, None, request, pauses, respond, 3, 1);
    assert second == (third.0, [Sleep(1)] + [request] + third.1);
    var first := Run(PetfinderStep, None, request, pauses, respond, 3, 0);
    assert first == (third.0, [] + [request] + second.1);
    assert [] + [request] + ([Sleep(1)] + [request] + ([Sleep(2)] + [request]))
        == [request, Sleep(1), request, Sleep(2), request];
  }
}

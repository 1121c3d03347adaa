/** `PetfinderApiConnectionManager` of the Petfinder API Lambda
    (petfinder_api_lambda/petfinder_api_management/petfinder_api_connection_manager.py):
    a token POST and a data GET, each inside a `range(max_tries)` loop with no
    pause between attempts. */
module ApiLambdaConnection {
  import opened Py
  import opened Json
  import opened Http
  import opened Retry
  import opened PetfinderRequest
  import opened TokenLambda

  /** How the data loop treats one attempt: a request error moves on; a
      successful answer ends the loop with `response.json()`, which raises
      JSONDecodeError for an undecodable body. */
  function ApiDataStep(a: Attempt): (s: Step<Result<Option<Json>>>)
    ensures s.Continue? <==> RequestFails(a)
    ensures s.Stop? && a.body.Decodes? ==> s.result == Ok(Some(a.body.json))
    ensures s.Stop? && a.body.Undecodable? ==> s.result == Err(JSONDecodeError)
  {
    if RequestFails(a) then Continue
    else match a.body
      case Decodes(j) => Stop(Ok(Some(j)))
      case Undecodable => Stop(Err(JSONDecodeError))
  }

  class PetfinderApiConnectionManager {
    const apiUrl: string
    const tokenUrl: string

    constructor (apiUrl: string, tokenUrl: string)
      ensures this.apiUrl == apiUrl && this.tokenUrl == tokenUrl
    {
      this.apiUrl := apiUrl;
      this.tokenUrl := tokenUrl;
    }

    /** `generate_access_token`: the client-credentials form POSTed to the
        token URL inside `range(max_tries)`. Every branch of the loop body
        leaves the method, so the loop makes at most its first attempt; with
        `max_tries <= 0` it makes none and MaxGenerateAccessTokenTriesError
        is raised. */
    method GenerateAccessToken(apiKey: Json, secretKey: Json, maxTries: int, respond: nat -> Attempt)
      returns (r: Result<TokenOutcome>, ghost trace: seq<Event>)
      ensures var out := Run(TokenStep, Err(MaxGenerateAccessTokenTriesError),
                             Post(tokenUrl, ClientCredentialsForm(apiKey, secretKey)), NoPauses, respond, maxTries, 0);
        r == out.0 && trace == out.1
    {
      var data := ClientCredentialsForm(apiKey, secretKey);
      trace := [];
      if maxTries <= 0 {
        return Err(MaxGenerateAccessTokenTriesError), trace;
      }
      trace := trace + [Post(tokenUrl, data)];
      TokenLoopMakesOneAttempt(Err(MaxGenerateAccessTokenTriesError), Post(tokenUrl, data), NoPauses, respond, maxTries);
      var response := respond(0);
      if RequestFails(response) {
        return Ok(ReturnedError(RequestException)), trace;
      }
      match response.body {
        case Undecodable =>
          return Ok(ReturnedError(JSONDecodeError)), trace;
        case Decodes(responseData) =>
          var token := Subscript(responseData, "access_token");
          if token.Err? {
            return Err(token.exc), trace;
          }
          return Ok(Token(token.value)), trace;
      }
    }

    /** `make_request`: the header carries the `access_token` argument; the
        category is joined to the API URL and the result thrown away, so the
        join can only raise; every GET goes to `api_url` itself, with the
        request's parameters, up to `max_tries` times without sleeping. When
        every attempt fails the method falls off its end and returns None. */
    method MakeRequest(accessToken: Json, petfinderApiRequest: PetfinderApiRequest, maxTries: int,
                       respond: nat -> Attempt)
      returns (r: Result<Option<Json>>, ghost trace: seq<Event>)
      ensures UrlJoinRaises(apiUrl, petfinderApiRequest.category) ==> r == Err(TypeError) && trace == []
      ensures !UrlJoinRaises(apiUrl, petfinderApiRequest.category) ==>
                var out := Run(ApiDataStep, Ok(None),
                               Get(apiUrl, AuthorizationHeader(Str(accessToken)), petfinderApiRequest.parameters),
                               NoPauses, respond, maxTries, 0);
                r == out.0 && trace == out.1
    {
      trace := [];
      var accessTokenHeader := AuthorizationHeader(Str(accessToken));
      var category := petfinderApiRequest.category;
      if UrlJoinRaises(apiUrl, category) {
        return Err(TypeError), trace;
      }
      var parameters := petfinderApiRequest.parameters;
      ghost var request := Get(apiUrl, accessTokenHeader, parameters);
      ghost var spec := Run(ApiDataStep, Ok(None), request, NoPauses, respond, maxTries, 0);
      var tries: nat := 0;
      while tries < maxTries
        invariant Follows(spec, trace, ApiDataStep, Ok(None), request, NoPauses, respond, maxTries, tries)
        decreases maxTries - tries
      {
        ghost var before := trace;
        trace := trace + [Get(apiUrl, accessTokenHeader, parameters)];
        assert trace == before + (PauseBefore(NoPauses, tries) + [request]);
        var response := respond(tries);
        if RequestFails(response) {
          RunContinues(spec, before, ApiDataStep, Ok(None), request, NoPauses, respond, maxTries, tries);
          tries := tries + 1;
          continue;
        }
        RunStops(spec, before, ApiDataStep, Ok(None), request, NoPauses, respond, maxTries, tries);
        match response.body {
          case Decodes(jsonData) =>
            return Ok(Some(jsonData)), trace;
          case Undecodable =>
            return Err(JSONDecodeError), trace;
        }
      }
      RunExhausted(spec, trace, ApiDataStep, Ok(None), request, NoPauses, respond, maxTries, tries);
      r := Ok(None);
    }
  }

  /** With `max_tries <= 0` no request is made and the error is raised;
      otherwise exactly one POST is made, its answer decides the result and
      MaxGenerateAccessTokenTriesError is not raised. */
  lemma ApiTokenAttempts(request: Event, maxTries: int, respond: nat -> Attempt)
    ensures var out := Run(TokenStep, Err(MaxGenerateAccessTokenTriesError), request, NoPauses, respond, maxTries, 0);
      (maxTries <= 0 ==> out == (Err(MaxGenerateAccessTokenTriesError), []))
      && (maxTries >= 1 ==> out.1 == [request] && out.0 == TokenStep(respond(0)).result
                            && out.0 != Err(MaxGenerateAccessTokenTriesError))
  {
    if maxTries >= 1 {
      TokenLoopMakesOneAttempt(Err(MaxGenerateAccessTokenTriesError), request, NoPauses, respond, maxTries);
    }
  }

  /** At most `max_tries` GETs, none for `max_tries <= 0`, and no sleep. */
  lemma {:induction false} ApiDataAttemptBound(request: Event, maxTries: int, respond: nat -> Attempt)
    requires request.Get?
    ensures var out := Run(ApiDataStep, Ok(None), request, NoPauses, respond, maxTries, 0);
      Requests(out.1) <= (if maxTries > 0 then maxTries else 0) && Sleeps(out.1) == []
  {
    RunOutcome(ApiDataStep, Ok(None), request, NoPauses, respond, maxTries, 0);
    var n := AttemptsMade(ApiDataStep, respond, 0, maxTries);
    ScheduleRequests(request, NoPauses, 0, n);
    ScheduleNoPauses(request, 0, n);
  }

  /** The first attempt the server answers without an error status decides
      the result: its body, or JSONDecodeError when the body does not decode.
      None comes back exactly when all `max_tries` attempts fail. */
  lemma {:induction false} ApiDataFirstAnswerWins(request: Event, maxTries: int, respond: nat -> Attempt)
    requires request.Get?
    ensures var out := Run(ApiDataStep, Ok(None), request, NoPauses, respond, maxTries, 0);
      (out.0 == Ok(None) <==> forall k :: 0 <= k < maxTries ==> RequestFails(respond(k)))
      && (out.0 == Ok(None) ==> Requests(out.1) == (if maxTries > 0 then maxTries else 0))
      && (out.0 != Ok(None) ==> exists k :: 0 <= k < maxTries && !RequestFails(respond(k))
                                  && Requests(out.1) == k + 1
                                  && out.0 == (if respond(k).body.Decodes? then Ok(Some(respond(k).body.json))
                                               else Err(JSONDecodeError))
                                  && forall i :: 0 <= i < k ==> RequestFails(respond(i)))
  {
    RunOutcome(ApiDataStep, Ok(None), request, NoPauses, respond, maxTries, 0);
    ScheduleRequests(request, NoPauses, 0, AttemptsMade(ApiDataStep, respond, 0, maxTries));
    match FirstStop(ApiDataStep, respond, 0, maxTries)
    case Some(k) =>
    case None =>
      assert forall k :: 0 <= k < maxTries ==> ApiDataStep(respond(k)).Continue?;
  }
}

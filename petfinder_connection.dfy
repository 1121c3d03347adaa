/** `PetfinderApiConnectionManager` of api_pull/utils/petfinder/petfinder_api_connection_manager.py:
    path validation, the listing URL, the Bearer header, and two retry loops
    with a fixed delay, a token POST and a data GET. As written the class
    cannot produce a token or a listing (see the `AsWritten` members); the
    manager class below is the evidently intended one, caching a padded
    `PetfinderAccessToken` and creating or overwriting it as the api_pull/utils
    draft does. `max_retries` and `retry_delay`, read from configuration, are
    parameters; so are the clock readings (`now` for the validity test,
    `generationTime` for the `time.time()` after the successful POST). */
module PetfinderConnection {
  import opened Py
  import opened Json
  import opened Http
  import opened Retry
  import opened PaddedAccessToken

  /** What the token loop keeps from an accepted answer. */
  datatype Granted = Granted(token: Json, expiresIn: int)

  /** Lines 84-86 as intended, on a decoded body: `response_data["access_token"]`
      and then `["expires_in"]` raise KeyError when missing (TypeError for a
      body that is not a dict); a lifetime that is not a number cannot have
      the padding taken off it (TypeError). */
  function ReadGrant(responseData: Json): (r: Result<Granted>)
    ensures r.Ok? ==> Subscript(responseData, "access_token") == Ok(r.value.token)
                      && Subscript(responseData, "expires_in") == Ok(JInt(r.value.expiresIn))
    ensures r.Ok? <==> HasKey(responseData, "access_token") && HasKey(responseData, "expires_in")
                       && Subscript(responseData, "expires_in").value.JInt?
    ensures r.Err? ==> r.exc in {KeyError, TypeError}
    ensures r.Err? && HasKey(responseData, "access_token") && HasKey(responseData, "expires_in") ==> r.exc == TypeError
  {
    match Subscript(responseData, "access_token")
    case Err(e) => Err(e)
    case Ok(token) =>
      match Subscript(responseData, "expires_in")
      case Err(e) => Err(e)
      case Ok(JInt(expiresIn)) => Ok(Granted(token, expiresIn))
      case Ok(_) => Err(TypeError)
  }

  /** The token attempt as intended: a request error moves on; an undecodable
      body raises JSONDecodeError; a decoded one is read by `ReadGrant`. */
  function TokenStep(a: Attempt): (s: Step<Result<Granted>>)
    ensures s.Continue? <==> RequestFails(a)
    ensures s.Stop? && a.body.Undecodable? ==> s.result == Err(JSONDecodeError)
    ensures s.Stop? && a.body.Decodes? ==> s.result == ReadGrant(a.body.json)
  {
    if RequestFails(a) then Continue
    else match a.body
      case Undecodable => Stop(Err(JSONDecodeError))
      case Decodes(responseData) => Stop(ReadGrant(responseData))
  }

  /** The token attempt as written: after a decodable answer, line 84 looks up
      `self._handle_access_token`, which the class does not define, before it
      evaluates the arguments, so AttributeError is raised whatever the body
      holds (and line 87 would read `.access_token` of a token object that
      only has `_access_token`). */
  function TokenStepAsWritten(a: Attempt): (s: Step<Result<Granted>>)
    ensures s.Continue? <==> RequestFails(a)
    ensures s.Stop? && a.body.Undecodable? ==> s.result == Err(JSONDecodeError)
    ensures s.Stop? && a.body.Decodes? ==> s.result == Err(AttributeError)
  {
    if RequestFails(a) then Continue
    else match a.body
      case Undecodable => Stop(Err(JSONDecodeError))
      case Decodes(_) => Stop(Err(AttributeError))
  }

  /** As written, no run of the token loop ends with a token. */
  lemma {:induction false} TokenLoopAsWrittenNeverGrants(request: Event, retryDelay: nat, maxRetries: int,
                                                         respond: nat -> Attempt, k: nat)
    ensures Run(TokenStepAsWritten, Err(MaxPetfinderTokenGenerationTriesError), request, Fixed(retryDelay),
                respond, maxRetries, k).0.Err?
    decreases maxRetries - k
  {
    if k < maxRetries && TokenStepAsWritten(respond(k)).Continue? {
      TokenLoopAsWrittenNeverGrants(request, retryDelay, maxRetries, respond, k + 1);
    }
  }

  /** A 200 answer carrying both keys, the lifetime a number: the intended
      attempt hands the token on, the attempt as written raises. */
  lemma GrantedAnswer(token: Json, expiresIn: int)
    ensures var a := Answered(200, Decodes(JObj([("access_token", token), ("expires_in", JInt(expiresIn))])));
      TokenStep(a) == Stop(Ok(Granted(token, expiresIn)))
      && TokenStepAsWritten(a) == Stop(Err(AttributeError))
  {
  }

  /** `valid_access_token_exists` as written: `self._access_token` is never
      assigned by any method, so reading it raises AttributeError. */
  function ValidAccessTokenExistsAsWritten(): (r: Result<bool>)
    ensures r.Err? && r.exc == AttributeError
  {
    Err(AttributeError)
  }

  /** `generate_access_token` as written raises AttributeError at its first
      line on every call, before any request. */
  method GenerateAccessTokenAsWritten(apiKey: Json, secretKey: Json) returns (r: Result<Json>, ghost trace: seq<Event>)
    ensures r == Err(AttributeError) && trace == []
  {
    trace := [];
    var validTokenExists := ValidAccessTokenExistsAsWritten();
    r := Err(validTokenExists.exc);
  }

  /** `make_request` as written: an invalid path raises ValueError; a valid
      one reaches line 155, where `generate_access_token()` is called without
      its two arguments and TypeError is raised. No request is ever made. */
  function MakeRequestAsWritten(pathEndpoint: string): (r: Result<Json>)
    ensures r.Err?
    ensures r.exc == (if ValidCategory(pathEndpoint) then TypeError else ValueError)
  {
    if !ValidCategory(pathEndpoint) then Err(ValueError)
    else Err(TypeError)
  }

  /** `_generate_access_token_header`: the Bearer header of the token as an
      f-string renders it. */
  function GenerateAccessTokenHeader(accessToken: Json): (h: map<string, string>)
    ensures h.Keys == {"Authorization"} && h["Authorization"] == "Bearer " + Str(accessToken)
  {
    AuthorizationHeader(Str(accessToken))
  }

  /** The header of lines 157-159 as written: `'Bearer '` followed by the
      rendering of the whole dict `_generate_access_token_header` returns. */
  function AccessTokenHeaderAsWritten(accessToken: Json): (h: map<string, string>)
    ensures h.Keys == {"Authorization"}
  {
    map["Authorization" := Bearer(Str(JObj([("Authorization", JStr(Bearer(Str(accessToken))))])))]
  }

  /** `str` of a one-entry dict holding a string. */
  lemma StrOfOneStringEntry(key: string, value: string)
    ensures Str(JObj([(key, JStr(value))])) == "{'" + key + "': '" + value + "'}"
  {
    var d := JObj([(key, JStr(value))]);
    assert ReprFields(d, d.fields) == "'" + key + "': " + ("'" + value + "'");
    assert "{" + ("'" + key + "': " + ("'" + value + "'")) + "}" == "{'" + key + "': '" + value + "'}";
  }

  /** The header as written holds the scheme twice and the inner dict's
      punctuation. */
  lemma AsWrittenHeaderValue(accessToken: Json)
    ensures AccessTokenHeaderAsWritten(accessToken)["Authorization"]
         == "Bearer " + ("{'" + "Authorization" + "': '" + Bearer(Str(accessToken)) + "'}")
  {
    var inner := Bearer(Str(accessToken));
    var rendered := Str(JObj([("Authorization", JStr(inner))]));
    assert AccessTokenHeaderAsWritten(accessToken)["Authorization"] == "Bearer " + rendered;
    StrOfOneStringEntry("Authorization", inner);
  }

  /** So it is never the Bearer credential of the token: it is 28 characters
      longer. */
  lemma DoubleBearer(accessToken: Json)
    ensures |AccessTokenHeaderAsWritten(accessToken)["Authorization"]|
         == |GenerateAccessTokenHeader(accessToken)["Authorization"]| + 28
    ensures AccessTokenHeaderAsWritten(accessToken)["Authorization"] != GenerateAccessTokenHeader(accessToken)["Authorization"]
  {
    var inner := Bearer(Str(accessToken));
    AsWrittenHeaderValue(accessToken);
    assert |"Bearer " + ("{'" + "Authorization" + "': '" + inner + "'}")| == 7 + 2 + 13 + 4 + |inner| + 2;
  }

  /** How the data loop treats one attempt: a request error moves on; the
      first success returns `response.json()`, which raises JSONDecodeError
      for an undecodable body. */
  function DataStep(a: Attempt): (s: Step<Result<Json>>)
    ensures s.Continue? <==> RequestFails(a)
    ensures s.Stop? && a.body.Decodes? ==> s.result == Ok(a.body.json)
    ensures s.Stop? && a.body.Undecodable? ==> s.result == Err(JSONDecodeError)
  {
    if RequestFails(a) then Continue
    else match a.body
      case Decodes(j) => Stop(Ok(j))
      case Undecodable => Stop(Err(JSONDecodeError))
  }

  /** The token POST. */
  function TokenRequest(tokenUrl: string, apiKey: Json, secretKey: Json): Event {
    Post(tokenUrl, ClientCredentialsForm(apiKey, secretKey))
  }

  /** The token the caller sees from the loop's outcome. */
  function GrantedToken(r: Result<Granted>): Result<Json> {
    match r
    case Ok(g) => Ok(g.token)
    case Err(e) => Err(e)
  }

  class PetfinderApiConnectionManager {
    const apiUrl: string
    const tokenUrl: string
    /** The cache the code reads as `self._access_token`, set to None here. */
    var accessToken: PetfinderAccessToken?

    constructor (apiUrl: string, tokenUrl: string)
      ensures this.apiUrl == apiUrl && this.tokenUrl == tokenUrl && accessToken == null
    {
      this.apiUrl := apiUrl;
      this.tokenUrl := tokenUrl;
      accessToken := null;
    }

    /** `valid_access_token_exists`, with the cache initialised. */
    predicate ValidAccessTokenExists(now: int)
      reads this, accessToken
      ensures accessToken == null ==> !ValidAccessTokenExists(now)
      ensures ValidAccessTokenExists(now) <==>
                accessToken != null && now - accessToken.timeOfGeneration <= accessToken.expiration
    {
      accessToken != null && accessToken.TokenIsValid(now)
    }

    /** `_generate_api_url`: ValueError for an invalid path, otherwise the
        path, in its own case, resolved against `api_url`. */
    function GenerateApiUrl(pathEndpoint: string): (r: Result<string>)
      ensures r.Ok? <==> ValidCategory(pathEndpoint)
      ensures r.Err? ==> r.exc == ValueError
      ensures r.Ok? ==> SimpleSegment(pathEndpoint) && r.value == UrlJoin(apiUrl, pathEndpoint)
    {
      if !ValidCategory(pathEndpoint) then Err(ValueError)
      else
        ValidCategorySegment(pathEndpoint);
        Ok(UrlJoin(apiUrl, pathEndpoint))
    }

    /** The token step of `generate_access_token`, from the state before it:
        the cached token while it is valid, otherwise the loop's outcome. */
    function TokenPhase(apiKey: Json, secretKey: Json, maxRetries: int, retryDelay: nat, now: int,
                        respond: nat -> Attempt): (Result<Json>, seq<Event>)
      reads this, accessToken
    {
      if ValidAccessTokenExists(now) then (Ok(accessToken.accessToken), [])
      else
        var out := Run(TokenStep, Err(MaxPetfinderTokenGenerationTriesError), TokenRequest(tokenUrl, apiKey, secretKey),
                       Fixed(retryDelay), respond, maxRetries, 0);
        (GrantedToken(out.0), out.1)
    }

    /** The create-or-overwrite of the cached token the code calls
        `_handle_access_token`: a new token takes the padding off the
        lifetime, an overwritten one stores it as given. */
    method HandleAccessToken(newToken: Json, timeOfGeneration: int, expiration: int)
      modifies this, accessToken
      ensures accessToken != null
      ensures old(accessToken) == null ==> fresh(accessToken) && accessToken.expiration == expiration - Padding
      ensures old(accessToken) != null ==> accessToken == old(accessToken) && accessToken.expiration == expiration
      ensures accessToken.accessToken == newToken && accessToken.timeOfGeneration == timeOfGeneration
    {
      if accessToken != null {
        accessToken.UpdateAccessToken(newToken, timeOfGeneration, expiration);
      } else {
        accessToken := new PetfinderAccessToken(newToken, timeOfGeneration, expiration);
      }
    }

    /** The `for tries in range(max_retries)` token loop: `retry_delay`
        before every attempt after the first. */
    method TokenLoop(apiKey: Json, secretKey: Json, maxRetries: int, retryDelay: nat, respond: nat -> Attempt)
      returns (r: Result<Granted>, ghost trace: seq<Event>)
      ensures var out := Run(TokenStep, Err(MaxPetfinderTokenGenerationTriesError),
                             TokenRequest(tokenUrl, apiKey, secretKey), Fixed(retryDelay), respond, maxRetries, 0);
        r == out.0 && trace == out.1
    {
      trace := [];
      var data := ClientCredentialsForm(apiKey, secretKey);
      ghost var request := TokenRequest(tokenUrl, apiKey, secretKey);
      assert request == Post(tokenUrl, data);
      ghost var spec := Run(TokenStep, Err(MaxPetfinderTokenGenerationTriesError), request, Fixed(retryDelay),
                            respond, maxRetries, 0);
      var tries: nat := 0;
      while tries < maxRetries
        invariant Follows(spec, trace, TokenStep, Err(MaxPetfinderTokenGenerationTriesError), request, Fixed(retryDelay),
                          respond, maxRetries, tries)
        decreases maxRetries - tries
      {
        ghost var before := trace;
        if tries >= 1 {
          trace := trace + [Sleep(retryDelay)];
        } else {
          assert trace == before + [];
        }
        assert trace == before + PauseBefore(Fixed(retryDelay), tries);
        trace := trace + [Post(tokenUrl, data)];
        AttemptEvents(before, PauseBefore(Fixed(retryDelay), tries), request);
        var response := respond(tries);
        // A failed request goes on to the next attempt; any other answer ends
        // the loop.
        if !RequestFails(response) {
          RunStops(spec, before, TokenStep, Err(MaxPetfinderTokenGenerationTriesError), request, Fixed(retryDelay),
                   respond, maxRetries, tries);
          if response.body.Undecodable? {
            return Err(JSONDecodeError), trace;
          }
          var responseData := response.body.json;
          return ReadGrant(responseData), trace;
        }
        RunContinues(spec, before, TokenStep, Err(MaxPetfinderTokenGenerationTriesError), request, Fixed(retryDelay),
                     respond, maxRetries, tries);
        tries := tries + 1;
      }
      RunExhausted(spec, trace, TokenStep, Err(MaxPetfinderTokenGenerationTriesError), request, Fixed(retryDelay),
                   respond, maxRetries, tries);
      r := Err(MaxPetfinderTokenGenerationTriesError);
    }

    /** `generate_access_token`, with the cache initialised: a valid cached
        token is returned with no request and nothing changes; otherwise the
        token loop runs and the answer it accepts is stored, with the clock
        reading after its POST, and its token returned. A failed loop stores
        nothing. */
    method GenerateAccessToken(apiKey: Json, secretKey: Json, maxRetries: int, retryDelay: nat, now: int,
                               generationTime: int, respond: nat -> Attempt)
      returns (r: Result<Json>, ghost trace: seq<Event>)
      modifies this, accessToken
      ensures r == old(TokenPhase(apiKey, secretKey, maxRetries, retryDelay, now, respond)).0
      ensures trace == old(TokenPhase(apiKey, secretKey, maxRetries, retryDelay, now, respond)).1
      ensures old(ValidAccessTokenExists(now)) ==> accessToken == old(accessToken) && unchanged(accessToken)
      ensures !old(ValidAccessTokenExists(now)) && r.Ok? ==>
                accessToken != null && trace != []
                && (old(accessToken) != null ==> accessToken == old(accessToken))
                && accessToken.accessToken == r.value
                && accessToken.timeOfGeneration == generationTime
      ensures !old(ValidAccessTokenExists(now)) && r.Ok? ==>
                var granted := Run(TokenStep, Err(MaxPetfinderTokenGenerationTriesError),
                                   TokenRequest(tokenUrl, apiKey, secretKey), Fixed(retryDelay), respond, maxRetries, 0).0;
                granted.Ok? && r.value == granted.value.token
                && (old(accessToken) == null ==> fresh(accessToken) && accessToken.expiration == granted.value.expiresIn - Padding)
                && (old(accessToken) != null ==> accessToken.expiration == granted.value.expiresIn)
      ensures r.Err? ==> accessToken == old(accessToken) && (accessToken != null ==> unchanged(accessToken))
    {
      if accessToken != null {
        var valid := accessToken.TokenIsValid(now);
        if valid {
          return Ok(accessToken.accessToken), [];
        }
      }
      var granted;
      granted, trace := TokenLoop(apiKey, secretKey, maxRetries, retryDelay, respond);
      if granted.Err? {
        return Err(granted.exc), trace;
      }
      HandleAccessToken(granted.value.token, generationTime, granted.value.expiresIn);
      r := Ok(accessToken.accessToken);
    }

    /** The data loop of `make_request`: `retry_delay` before every attempt
        after the first; exhaustion raises MaxPetfinderDataRequestTriesError. */
    method DataLoop(url: string, header: map<string, string>, parameters: map<string, Json>, maxRetries: int,
                    retryDelay: nat, respond: nat -> Attempt)
      returns (r: Result<Json>, ghost trace: seq<Event>)
      ensures var out := Run(DataStep, Err(MaxPetfinderDataRequestTriesError), Get(url, header, parameters),
                             Fixed(retryDelay), respond, maxRetries, 0);
        r == out.0 && trace == out.1
    {
      trace := [];
      ghost var request := Get(url, header, parameters);
      ghost var spec := Run(DataStep, Err(MaxPetfinderDataRequestTriesError), request, Fixed(retryDelay),
                            respond, maxRetries, 0);
      var tries: nat := 0;
      while tries < maxRetries
        invariant Follows(spec, trace, DataStep, Err(MaxPetfinderDataRequestTriesError), request, Fixed(retryDelay),
                          respond, maxRetries, tries)
        decreases maxRetries - tries
      {
        ghost var before := trace;
        if tries >= 1 {
          trace := trace + [Sleep(retryDelay)];
        }
        trace := trace + [Get(url, header, parameters)];
        AttemptEvents(before, PauseBefore(Fixed(retryDelay), tries), request);
        var response := respond(tries);
        if RequestFails(response) {
          RunContinues(spec, before, DataStep, Err(MaxPetfinderDataRequestTriesError), request, Fixed(retryDelay),
                       respond, maxRetries, tries);
          tries := tries + 1;
          continue;
        }
        RunStops(spec, before, DataStep, Err(MaxPetfinderDataRequestTriesError), request, Fixed(retryDelay),
                 respond, maxRetries, tries);
        match response.body {
          case Decodes(jsonData) =>
            return Ok(jsonData), trace;
          case Undecodable =>
            return Err(JSONDecodeError), trace;
        }
      }
      RunExhausted(spec, trace, DataStep, Err(MaxPetfinderDataRequestTriesError), request, Fixed(retryDelay),
                   respond, maxRetries, tries);
      r := Err(MaxPetfinderDataRequestTriesError);
    }

    /** `make_request`, as evidently intended: the path is checked before
        anything else happens; then the token, passing the keys; the header
        is the Bearer credential of that token; then the data loop against
        the resolved URL. */
    method MakeRequest(pathEndpoint: string, parameters: map<string, Json>, apiKey: Json, secretKey: Json,
                       maxRetries: int, retryDelay: nat, now: int, generationTime: int,
                       tokenRespond: nat -> Attempt, dataRespond: nat -> Attempt)
      returns (r: Result<Json>, ghost trace: seq<Event>)
      modifies this, accessToken
      ensures !ValidCategory(pathEndpoint) ==>
                r == Err(ValueError) && trace == [] && accessToken == old(accessToken)
                && (accessToken != null ==> unchanged(accessToken))
      ensures ValidCategory(pathEndpoint) && old(ValidAccessTokenExists(now)) ==>
                accessToken == old(accessToken) && unchanged(accessToken)
      ensures ValidCategory(pathEndpoint) && !old(ValidAccessTokenExists(now)) ==>
                var granted := Run(TokenStep, Err(MaxPetfinderTokenGenerationTriesError),
                                   TokenRequest(tokenUrl, apiKey, secretKey), Fixed(retryDelay), tokenRespond, maxRetries, 0).0;
                (granted.Err? ==> accessToken == old(accessToken) && (accessToken != null ==> unchanged(accessToken)))
                && (granted.Ok? ==>
                      accessToken != null && (old(accessToken) != null ==> accessToken == old(accessToken))
                      && accessToken.accessToken == granted.value.token
                      && accessToken.timeOfGeneration == generationTime
                      && (old(accessToken) == null ==> fresh(accessToken) && accessToken.expiration == granted.value.expiresIn - Padding)
                      && (old(accessToken) != null ==> accessToken.expiration == granted.value.expiresIn))
      ensures ValidCategory(pathEndpoint) ==>
                var token := old(TokenPhase(apiKey, secretKey, maxRetries, retryDelay, now, tokenRespond));
                (token.0.Err? ==> r == Err(token.0.exc) && trace == token.1)
                && (token.0.Ok? ==>
                      var data := Run(DataStep, Err(MaxPetfinderDataRequestTriesError),
                                      Get(GenerateApiUrl(pathEndpoint).value, GenerateAccessTokenHeader(token.0.value), parameters),
                                      Fixed(retryDelay), dataRespond, maxRetries, 0);
                      r == data.0 && trace == token.1 + data.1)
    {
      if !ValidCategory(pathEndpoint) {
        return Err(ValueError), [];
      }
      var accessTokenValue;
      ghost var tokenTrace;
      accessTokenValue, tokenTrace := GenerateAccessToken(apiKey, secretKey, maxRetries, retryDelay, now, generationTime, tokenRespond);
      if accessTokenValue.Err? {
        return Err(accessTokenValue.exc), tokenTrace;
      }
      var accessTokenHeader := GenerateAccessTokenHeader(accessTokenValue.value);
      var url := GenerateApiUrl(pathEndpoint).value;
      ghost var dataTrace;
      r, dataTrace := DataLoop(url, accessTokenHeader, parameters, maxRetries, retryDelay, dataRespond);
      trace := tokenTrace + dataTrace;
    }
  }

  /** At most `max_retries` POSTs, none for `max_retries <= 0`, with
      `retry_delay` before each one after the first. */
  lemma {:induction false} TokenAttemptBound(request: Event, retryDelay: nat, maxRetries: int, respond: nat -> Attempt)
    requires request.Post?
    ensures var out := Run(TokenStep, Err(MaxPetfinderTokenGenerationTriesError), request, Fixed(retryDelay),
                           respond, maxRetries, 0);
      Requests(out.1) <= (if maxRetries > 0 then maxRetries else 0)
      && Sleeps(out.1) == seq(if Requests(out.1) > 0 then Requests(out.1) - 1 else 0, _ => retryDelay)
      && (maxRetries <= 0 ==> out == (Err(MaxPetfinderTokenGenerationTriesError), []))
  {
    RunOutcome(TokenStep, Err(MaxPetfinderTokenGenerationTriesError), request, Fixed(retryDelay), respond, maxRetries, 0);
    var n := AttemptsMade(TokenStep, respond, 0, maxRetries);
    ScheduleRequests(request, Fixed(retryDelay), 0, n);
    ScheduleFixed(request, retryDelay, 0, n);
  }

  /** The first attempt without a request error decides the token loop: its
      token, or the error its body raises, with no further attempt. Only when
      every attempt fails is MaxPetfinderTokenGenerationTriesError raised. */
  lemma {:induction false} TokenFirstAnswerDecides(request: Event, retryDelay: nat, maxRetries: int, respond: nat -> Attempt)
    requires request.Post?
    ensures var out := Run(TokenStep, Err(MaxPetfinderTokenGenerationTriesError), request, Fixed(retryDelay),
                           respond, maxRetries, 0);
      (out.0 == Err(MaxPetfinderTokenGenerationTriesError) <==> forall k :: 0 <= k < maxRetries ==> RequestFails(respond(k)))
      && (out.0 != Err(MaxPetfinderTokenGenerationTriesError) ==>
            exists k :: 0 <= k < maxRetries && !RequestFails(respond(k)) && out.0 == TokenStep(respond(k)).result
                        && Requests(out.1) == k + 1 && forall i :: 0 <= i < k ==> RequestFails(respond(i)))
  {
    RunOutcome(TokenStep, Err(MaxPetfinderTokenGenerationTriesError), request, Fixed(retryDelay), respond, maxRetries, 0);
    ScheduleRequests(request, Fixed(retryDelay), 0, AttemptsMade(TokenStep, respond, 0, maxRetries));
    match FirstStop(TokenStep, respond, 0, maxRetries)
    case Some(k) =>
      assert TokenStep(respond(k)).result != Err(MaxPetfinderTokenGenerationTriesError);
    case None =>
      assert forall k :: 0 <= k < maxRetries ==> TokenStep(respond(k)).Continue?;
  }

  /** The same for the data loop: the first answer without an error status
      is decoded and returned (or its JSONDecodeError raised);
      MaxPetfinderDataRequestTriesError only after `max_retries` failures. */
  lemma {:induction false} DataFirstAnswerDecides(request: Event, retryDelay: nat, maxRetries: int, respond: nat -> Attempt)
    requires request.Get?
    ensures var out := Run(DataStep, Err(MaxPetfinderDataRequestTriesError), request, Fixed(retryDelay),
                           respond, maxRetries, 0);
      (out.0 == Err(MaxPetfinderDataRequestTriesError) <==> forall k :: 0 <= k < maxRetries ==> RequestFails(respond(k)))
      && (out.0 == Err(MaxPetfinderDataRequestTriesError) ==> Requests(out.1) == (if maxRetries > 0 then maxRetries else 0))
      && (out.0 != Err(MaxPetfinderDataRequestTriesError) ==>
            exists k :: 0 <= k < maxRetries && !RequestFails(respond(k)) && out.0 == DataStep(respond(k)).result
                        && Requests(out.1) == k + 1 && forall i :: 0 <= i < k ==> RequestFails(respond(i)))
      && Requests(out.1) <= (if maxRetries > 0 then maxRetries else 0)
      && Sleeps(out.1) == seq(if Requests(out.1) > 0 then Requests(out.1) - 1 else 0, _ => retryDelay)
  {
    RunOutcome(DataStep, Err(MaxPetfinderDataRequestTriesError), request, Fixed(retryDelay), respond, maxRetries, 0);
    var n := AttemptsMade(DataStep, respond, 0, maxRetries);
    ScheduleRequests(request, Fixed(retryDelay), 0, n);
    ScheduleFixed(request, retryDelay, 0, n);
    match FirstStop(DataStep, respond, 0, maxRetries)
    case Some(k) =>
      assert DataStep(respond(k)).result != Err(MaxPetfinderDataRequestTriesError);
    case None =>
      assert forall k :: 0 <= k < maxRetries ==> DataStep(respond(k)).Continue?;
  }
}

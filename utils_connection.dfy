/** `PetfinderApiConnectionManager` of api_pull/utils/petfinder_api_connection_manager.py:
    a cached token object that is created or overwritten, a token request
    tried exactly twice with a two-second sleep after every failure, and a
    single data GET. The clock is a parameter: `now` for the staleness test,
    `clock(k)` for the `time.time()` read before token attempt `k`. */
module UtilsConnection {
  import opened Py
  import opened Json
  import opened Http
  import opened AccessToken

  /** The loop's `max_retries`. */
  const TokenTries: nat := 2
  /** The loop's `retry_delay`, in seconds. */
  const TokenRetryDelay: int := 2

  /** A token answer the loop accepted: `response_data.get` of the two keys
      (None when absent), and the attempt that produced it. */
  datatype Issued = Issued(token: Json, expiresIn: Json, attempt: nat)

  /** The token loop from attempt `k` on: what it ends with and the events it
      performs. An answer that does not end the loop is followed by a sleep,
      also after the last attempt; the raise of lines 72-73 needs
      `num_retries >= max_retries`, which `range` never gives, so two refused
      answers end in None. */
  function TokenRun(request: Event, respond: nat -> Attempt, k: nat): (Result<Option<Issued>>, seq<Event>)
    decreases TokenTries - k
  {
    if k >= TokenTries then (Ok(None), [])
    else match TokenAnswer(respond(k), k)
      case Some(v) => (v, [request])
      case None =>
        var rest := TokenRun(request, respond, k + 1);
        (rest.0, [request, Sleep(TokenRetryDelay)] + rest.1)
  }

  /** What the answer to attempt `k` ends the loop with, or None when the loop
      sleeps and goes on. `response.json()` runs before the status is looked
      at, so an undecodable body raises even on an error status; a body that
      is not a dict has no `.get` and raises AttributeError, both on a 200 and
      in the error log of any other status; a dict on a 200 ends the loop with
      its two `.get` values. */
  function TokenAnswer(a: Attempt, k: nat): (r: Option<Result<Option<Issued>>>)
    ensures r.None? <==> Refused(a)
  {
    match a
    case Raised => Some(Err(RequestException))
    case Answered(status, body) =>
      match body
      case Undecodable => Some(Err(JSONDecodeError))
      case Decodes(data) =>
        if !data.JObj? then Some(Err(AttributeError))
        else if status == 200 then
          Some(Ok(Some(Issued(GetOr(data, "access_token", JNull).value, GetOr(data, "expires_in", JNull).value, k))))
        else None
  }

  /** The events of a refused attempt, appended one at a time. */
  lemma AppendPair(done: seq<Event>, post: Event, sleep: Event, rest: seq<Event>)
    ensures done + [post] + [sleep] + rest == done + ([post, sleep] + rest)
  {
    assert [post, sleep] == [post] + [sleep];
  }

  /** A refused answer: the loop sleeps and goes on with the next attempt. */
  lemma TokenRunRefused(request: Event, respond: nat -> Attempt, k: nat)
    requires k < TokenTries && Refused(respond(k))
    ensures TokenRun(request, respond, k)
         == (TokenRun(request, respond, k + 1).0, [request, Sleep(TokenRetryDelay)] + TokenRun(request, respond, k + 1).1)
  {
  }

  /** Any other answer ends the loop with what it gives, after one POST. */
  lemma TokenRunEnds(request: Event, respond: nat -> Attempt, k: nat)
    requires k < TokenTries && !Refused(respond(k))
    ensures TokenRun(request, respond, k) == (TokenAnswer(respond(k), k).value, [request])
  {
  }

  /** An attempt the loop answers with a sleep and moves past. */
  predicate Refused(a: Attempt) {
    a.Answered? && a.body.Decodes? && a.body.json.JObj? && a.status != 200
  }

  /** What the caller of the token loop sees: the token of the accepted answer. */
  function IssuedToken(r: Result<Option<Issued>>): Result<Option<Json>> {
    match r
    case Err(e) => Err(e)
    case Ok(None) => Ok(None)
    case Ok(Some(i)) => Ok(Some(i.token))
  }

  /** The bound method `response.json`, returned without being called; it
      would decode `body`. */
  datatype JsonMethod = JsonMethod(body: Body)

  /** The data GET: a client error raises; any status but 200 raises
      HTTPError; a 200 hands back the uncalled `response.json`. */
  function DataOutcome(a: Attempt): (r: Result<JsonMethod>)
    ensures r.Ok? <==> a.Answered? && a.status == 200
    ensures r.Ok? ==> r.value == JsonMethod(a.body)
    ensures a.Raised? ==> r == Err(RequestException)
    ensures a.Answered? && a.status != 200 ==> r == Err(HTTPError)
  {
    match a
    case Raised => Err(RequestException)
    case Answered(status, body) => if status != 200 then Err(HTTPError) else Ok(JsonMethod(body))
  }

  class PetfinderApiConnectionManager {
    const apiUrl: string
    const tokenUrl: string
    const apiKey: Json
    const secretKey: Json
    var petfinderAccessToken: PetfinderAccessToken?

    constructor (apiUrl: string, tokenUrl: string, apiKey: Json, secretKey: Json)
      ensures this.apiUrl == apiUrl && this.tokenUrl == tokenUrl
      ensures this.apiKey == apiKey && this.secretKey == secretKey
      ensures petfinderAccessToken == null
    {
      this.apiUrl := apiUrl;
      this.tokenUrl := tokenUrl;
      this.apiKey := apiKey;
      this.secretKey := secretKey;
      petfinderAccessToken := null;
    }

    /** The form the token loop POSTs. */
    function TokenRequest(): Event {
      Post(tokenUrl, ClientCredentialsForm(apiKey, secretKey))
    }

    /** The test at line 46: a token is cached and not stale at `now`. */
    predicate CachedTokenFresh(now: int)
      reads this, petfinderAccessToken
      ensures petfinderAccessToken == null ==> !CachedTokenFresh(now)
      ensures CachedTokenFresh(now) ==>
                Numeric(petfinderAccessToken.timeOfGeneration) && Numeric(petfinderAccessToken.expiration)
                && now < NumberValue(petfinderAccessToken.timeOfGeneration) + NumberValue(petfinderAccessToken.expiration)
    {
      petfinderAccessToken != null && !petfinderAccessToken.NeedToGenerateNewToken(now)
    }

    /** `_handle_access_token`: without a cached token a new one is created,
        otherwise the cached object itself is overwritten; either way it then
        holds exactly the three given values. */
    method HandleAccessToken(newToken: Json, timeOfGeneration: Json, expiration: Json)
      modifies this, petfinderAccessToken
      ensures petfinderAccessToken != null
      ensures old(petfinderAccessToken) == null ==> fresh(petfinderAccessToken)
      ensures old(petfinderAccessToken) != null ==> petfinderAccessToken == old(petfinderAccessToken)
      ensures petfinderAccessToken.accessToken == newToken
      ensures petfinderAccessToken.timeOfGeneration == timeOfGeneration
      ensures petfinderAccessToken.expiration == expiration
    {
      if petfinderAccessToken != null {
        petfinderAccessToken.UpdateAccessToken(newToken, timeOfGeneration, expiration);
      } else {
        petfinderAccessToken := new PetfinderAccessToken(newToken, timeOfGeneration, expiration);
      }
    }

    /** The `for num_retries in list(range(max_retries))` loop of
        `_generate_access_token`, up to the answer it accepts. */
    method TokenLoop(respond: nat -> Attempt) returns (r: Result<Option<Issued>>, ghost trace: seq<Event>)
      ensures r == TokenRun(TokenRequest(), respond, 0).0 && trace == TokenRun(TokenRequest(), respond, 0).1
    {
      trace := [];
      var maxRetries := TokenTries;
      var retryDelay := TokenRetryDelay;
      var data := ClientCredentialsForm(apiKey, secretKey);
      ghost var request := TokenRequest();
      assert request == Post(tokenUrl, data);
      ghost var spec := TokenRun(request, respond, 0);
      var numRetries: nat := 0;
      while numRetries < maxRetries
        invariant numRetries <= maxRetries
        invariant TokenRun(request, respond, numRetries).0 == spec.0
        invariant spec.1 == trace + TokenRun(request, respond, numRetries).1
        decreases maxRetries - numRetries
      {
        ghost var before := trace;
        trace := trace + [Post(tokenUrl, data)];
        var response := respond(numRetries);
        if !Refused(response) {
          TokenRunEnds(request, respond, numRetries);
        }
        if response.Raised? {
          assert TokenAnswer(response, numRetries) == Some(Err(RequestException));
          return Err(RequestException), trace;
        }
        if response.body.Undecodable? {
          assert TokenAnswer(response, numRetries) == Some(Err(JSONDecodeError));
          return Err(JSONDecodeError), trace;
        }
        var responseData := response.body.json;
        if !responseData.JObj? {
          assert TokenAnswer(response, numRetries) == Some(Err(AttributeError));
          return Err(AttributeError), trace;
        }
        if response.status == 200 {
          var token := GetOr(responseData, "access_token", JNull).value;
          var expiresIn := GetOr(responseData, "expires_in", JNull).value;
          assert TokenAnswer(response, numRetries) == Some(Ok(Some(Issued(token, expiresIn, numRetries))));
          return Ok(Some(Issued(token, expiresIn, numRetries))), trace;
        }
        // `num_retries < max_retries` always holds here.
        trace := trace + [Sleep(retryDelay)];
        TokenRunRefused(request, respond, numRetries);
        AppendPair(before, request, Sleep(TokenRetryDelay), TokenRun(request, respond, numRetries + 1).1);
        numRetries := numRetries + 1;
      }
      assert trace + [] == trace;
      r := Ok(None);
    }

    /** `_generate_access_token`: a fresh cached token is returned with no
        request; otherwise the token loop runs, and the answer it accepts is
        stored, with the clock reading taken before its POST, and its token
        returned. Nothing is stored when the loop ends otherwise. */
    method GenerateAccessToken(now: int, clock: nat -> int, respond: nat -> Attempt)
      returns (r: Result<Option<Json>>, ghost trace: seq<Event>)
      modifies this, petfinderAccessToken
      ensures old(CachedTokenFresh(now)) ==>
                petfinderAccessToken == old(petfinderAccessToken) && petfinderAccessToken != null
                && unchanged(petfinderAccessToken)
                && r == Ok(Some(petfinderAccessToken.accessToken)) && trace == []
      ensures !old(CachedTokenFresh(now)) ==>
                var out := TokenRun(TokenRequest(), respond, 0);
                r == IssuedToken(out.0) && trace == out.1
                && (out.0.Ok? && out.0.value.Some? ==>
                      petfinderAccessToken != null
                      && (old(petfinderAccessToken) != null ==> petfinderAccessToken == old(petfinderAccessToken))
                      && petfinderAccessToken.accessToken == out.0.value.value.token
                      && petfinderAccessToken.timeOfGeneration == JInt(clock(out.0.value.value.attempt))
                      && petfinderAccessToken.expiration == out.0.value.value.expiresIn)
                && (!(out.0.Ok? && out.0.value.Some?) ==>
                      petfinderAccessToken == old(petfinderAccessToken)
                      && (petfinderAccessToken != null ==> unchanged(petfinderAccessToken)))
    {
      if petfinderAccessToken != null {
        var stale := petfinderAccessToken.NeedToGenerateNewToken(now);
        if !stale {
          return Ok(Some(petfinderAccessToken.accessToken)), [];
        }
      }
      var accepted;
      accepted, trace := TokenLoop(respond);
      match accepted {
        case Err(e) =>
          r := Err(e);
        case Ok(None) =>
          r := Ok(None);
        case Ok(Some(issued)) =>
          HandleAccessToken(issued.token, JInt(clock(issued.attempt)), issued.expiresIn);
          r := Ok(Some(petfinderAccessToken.accessToken));
      }
    }

    /** `_generate_api_url`: the category lower-cased, refused with a bare
        Exception unless it is `animals` or `organizations`, then appended to
        `api_url` with a trailing `/`. */
    function GenerateApiUrl(category: string): (r: Result<string>)
      ensures r.Ok? <==> ValidCategory(category)
      ensures r.Err? ==> r.exc == GenericException
      ensures r.Ok? ==> r.value == apiUrl + "animals/" || r.value == apiUrl + "organizations/"
      ensures r.Ok? ==> r.value == apiUrl + Lower(category) + "/"
    {
      var lowered := Lower(category);
      if lowered != "animals" && lowered != "organizations" then Err(GenericException)
      else Ok(apiUrl + lowered + "/")
    }

    /** `make_request`: the lower-cased category is checked first (ValueError,
        and nothing else happens); then a token is made sure of, its errors
        propagating; the header is built from whatever token object is cached
        afterwards, so with none cached `None.get_access_token` raises
        AttributeError, and after two refusals a stale cached token is still
        sent; then one GET to `api_url + category + '/'`. */
    method MakeRequest(category: string, parameters: map<string, Json>, now: int, clock: nat -> int,
                       tokenRespond: nat -> Attempt, dataRespond: Attempt)
      returns (r: Result<JsonMethod>, ghost trace: seq<Event>)
      modifies this, petfinderAccessToken
      ensures !ValidCategory(category) ==>
                r == Err(ValueError) && trace == [] && petfinderAccessToken == old(petfinderAccessToken)
                && (petfinderAccessToken != null ==> unchanged(petfinderAccessToken))
      ensures ValidCategory(category) && old(CachedTokenFresh(now)) ==>
                petfinderAccessToken == old(petfinderAccessToken) && unchanged(petfinderAccessToken)
      ensures ValidCategory(category) && !old(CachedTokenFresh(now)) ==>
                var out := TokenRun(TokenRequest(), tokenRespond, 0);
                (out.0.Ok? && out.0.value.Some? ==>
                   petfinderAccessToken != null
                   && (old(petfinderAccessToken) != null ==> petfinderAccessToken == old(petfinderAccessToken))
                   && petfinderAccessToken.accessToken == out.0.value.value.token
                   && petfinderAccessToken.timeOfGeneration == JInt(clock(out.0.value.value.attempt))
                   && petfinderAccessToken.expiration == out.0.value.value.expiresIn)
                && (!(out.0.Ok? && out.0.value.Some?) ==>
                      petfinderAccessToken == old(petfinderAccessToken)
                      && (petfinderAccessToken != null ==> unchanged(petfinderAccessToken)))
      ensures ValidCategory(category) && old(CachedTokenFresh(now)) ==>
                trace == [Get(apiUrl + Lower(category) + "/", AuthorizationHeader(Str(old(petfinderAccessToken.accessToken))), parameters)]
                && r == DataOutcome(dataRespond)
      ensures ValidCategory(category) && !old(CachedTokenFresh(now)) ==>
                var out := TokenRun(TokenRequest(), tokenRespond, 0);
                (out.0.Err? ==> r == Err(out.0.exc) && trace == out.1)
                && (out.0 == Ok(None) && old(petfinderAccessToken) == null ==> r == Err(AttributeError) && trace == out.1)
                && (out.0.Ok? && (out.0.value.Some? || old(petfinderAccessToken) != null) ==>
                      petfinderAccessToken != null
                      && petfinderAccessToken.accessToken
                         == (if out.0.value.Some? then out.0.value.value.token else old(petfinderAccessToken.accessToken))
                      && trace == out.1 + [Get(apiUrl + Lower(category) + "/",
                                               AuthorizationHeader(Str(petfinderAccessToken.accessToken)), parameters)]
                      && r == DataOutcome(dataRespond))
    {
      var lowered := Lower(category);
      if lowered != "animals" && lowered != "organizations" {
        return Err(ValueError), [];
      }
      var generated;
      generated, trace := GenerateAccessToken(now, clock, tokenRespond);
      if generated.Err? {
        return Err(generated.exc), trace;
      }
      if petfinderAccessToken == null {
        return Err(AttributeError), trace;
      }
      var token := petfinderAccessToken.GetAccessToken();
      var accessTokenHeader := AuthorizationHeader(Str(token));
      var url := apiUrl + lowered + "/";
      trace := trace + [Get(url, accessTokenHeader, parameters)];
      r := DataOutcome(dataRespond);
    }
  }

  /** `_generate_access_token_header`: ValueError for a token that is not a
      string, otherwise the Bearer header. */
  function GenerateAccessTokenHeader(accessToken: Json): (r: Result<map<string, string>>)
    ensures r.Ok? <==> accessToken.JStr?
    ensures r.Err? ==> r.exc == ValueError
    ensures r.Ok? ==> r.value.Keys == {"Authorization"} && r.value["Authorization"] == "Bearer " + accessToken.s
  {
    if !accessToken.JStr? then Err(ValueError)
    else Ok(AuthorizationHeader(accessToken.s))
  }

  /** At most two POSTs, each refusal followed by a two-second sleep; the bare
      Exception of line 73 is never raised. None comes back exactly when both
      attempts are refused, after two POSTs and two sleeps; an accepted answer
      is the first attempt's or, after one refusal, the second's. */
  lemma {:induction false} TokenRunOutcome(request: Event, respond: nat -> Attempt)
    ensures var out := TokenRun(request, respond, 0);
      out.0 != Err(GenericException)
      && (out.0 == Ok(None) <==> Refused(respond(0)) && Refused(respond(1)))
      && (out.0 == Ok(None) ==> out.1 == [request, Sleep(2), request, Sleep(2)])
      && (out.0.Ok? && out.0.value.Some? ==>
            var k := out.0.value.value.attempt;
            k < 2 && respond(k).Answered? && respond(k).status == 200
            && (k == 0 ==> out.1 == [request])
            && (k == 1 ==> Refused(respond(0)) && out.1 == [request, Sleep(2), request]))
      && (out.0.Err? ==> out.1 == [request] || (Refused(respond(0)) && out.1 == [request, Sleep(2), request]))
  {
    var second := TokenRun(request, respond, 1);
    assert TokenRun(request, respond, 2) == (Ok(None), []);
    if Refused(respond(1)) {
      assert [request, Sleep(2)] + [] == [request, Sleep(2)];
      assert second == (Ok(None), [request, Sleep(2)]);
    }
    if Refused(respond(0)) {
      assert TokenRun(request, respond, 0) == (second.0, [request, Sleep(2)] + second.1);
    }
  }

  /** A token answer without `expires_in` is stored with a None lifetime, and
      such a token is stale at every later call. */
  lemma MissingLifetimeIsStale(data: seq<(string, Json)>, t: PetfinderAccessToken, now: int)
    requires !HasKey(JObj(data), "expires_in") && t.expiration == GetOr(JObj(data), "expires_in", JNull).value
    ensures t.NeedToGenerateNewToken(now)
  {
  }
}

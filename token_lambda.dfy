/** The token Lambda (petfinder_generate_access_token/lambda_function.py):
    one POST of the client-credentials form to the configured token URL.
    The configuration is an input; the retry list under
    `'petfinder_access_token_retry_seconds'` is taken as a list of delays. */
module TokenLambda {
  import opened Py
  import opened Json
  import opened Http
  import opened Retry

  /** What a token attempt hands back without raising: the token, or the
      exception object that `return e` returns as a value. */
  datatype TokenOutcome = Token(token: Json) | ReturnedError(error: Exception)

  /** How a token loop treats one attempt: every branch leaves the loop. A
      request error and an undecodable body are returned as values; a body
      without `'access_token'` raises (KeyError for a dict, TypeError for
      anything that cannot be subscripted by a string). */
  function TokenStep(a: Attempt): (s: Step<Result<TokenOutcome>>)
    ensures s.Stop?
    ensures RequestFails(a) ==> s.result == Ok(ReturnedError(RequestException))
    ensures !RequestFails(a) && a.body.Undecodable? ==> s.result == Ok(ReturnedError(JSONDecodeError))
    ensures !RequestFails(a) && a.body.Decodes? ==>
              (s.result.Ok? <==> HasKey(a.body.json, "access_token"))
              && (s.result.Ok? ==> s.result == Ok(Token(Subscript(a.body.json, "access_token").value)))
              && (s.result.Err? ==> s.result.exc == (if a.body.json.JObj? then KeyError else TypeError))
  {
    if RequestFails(a) then Stop(Ok(ReturnedError(RequestException)))
    else match a.body
      case Undecodable => Stop(Ok(ReturnedError(JSONDecodeError)))
      case Decodes(responseData) =>
        match Subscript(responseData, "access_token")
        case Ok(token) => Stop(Ok(Token(token)))
        case Err(e) => Stop(Err(e))
  }

  /** A loop whose first attempt always ends it makes that one attempt. */
  lemma TokenLoopMakesOneAttempt(exhausted: Result<TokenOutcome>, request: Event, pauses: Pauses,
                                 respond: nat -> Attempt, maxTries: int)
    requires maxTries >= 1
    ensures Run(TokenStep, exhausted, request, pauses, respond, maxTries, 0) == (TokenStep(respond(0)).result, [request])
  {
    assert PauseBefore(pauses, 0) + [request] == [request];
  }

  /** The configured token URL, as `requests` turns it into a string. */
  function TokenUrl(configValues: Json): (r: Result<string>)
    ensures r.Ok? <==> HasKey(configValues, "petfinder_token_url")
    ensures r.Ok? ==> r.value == Str(Subscript(configValues, "petfinder_token_url").value)
  {
    var url :- Subscript(configValues, "petfinder_token_url");
    Ok(Str(url))
  }

  /** Both credentials are configured. */
  predicate ConfigComplete(configValues: Json) {
    HasKey(configValues, "petfinder_api_key") && HasKey(configValues, "petfinder_secret_key")
  }

  /** The POST of the client-credentials form to the token URL. */
  function TokenRequest(configValues: Json): Event
    requires ConfigComplete(configValues) && HasKey(configValues, "petfinder_token_url")
  {
    Post(TokenUrl(configValues).value,
         ClientCredentialsForm(Subscript(configValues, "petfinder_api_key").value,
                               Subscript(configValues, "petfinder_secret_key").value))
  }

  /** `lambda_handler`: builds the form from the two configured keys, then
      runs the `range(len(retry_seconds) + 1)` loop. Every branch of its body
      leaves the handler, so only its first iteration ever runs: the token URL
      is read, one POST is made and its answer is returned or raised. The
      sleep before later attempts and the final MaxGenerateAccessTokenTriesError
      cannot be reached; the contract still states the result as the whole
      loop's, through Run. */
  method LambdaHandler(configValues: Json, retrySeconds: seq<nat>, respond: nat -> Attempt)
    returns (r: Result<TokenOutcome>, ghost trace: seq<Event>)
    ensures !HasKey(configValues, "petfinder_api_key") ==>
              r == Err(if configValues.JObj? then KeyError else TypeError) && trace == []
    ensures HasKey(configValues, "petfinder_api_key") && !HasKey(configValues, "petfinder_secret_key") ==>
              r == Err(KeyError) && trace == []
    ensures ConfigComplete(configValues) && !HasKey(configValues, "petfinder_token_url") ==>
              r == Err(KeyError) && trace == []
    ensures ConfigComplete(configValues) && HasKey(configValues, "petfinder_token_url") ==>
              var out := Run(TokenStep, Err(MaxGenerateAccessTokenTriesError), TokenRequest(configValues),
                             Listed(retrySeconds), respond, |retrySeconds| + 1, 0);
              r == out.0 && trace == out.1
  {
    trace := [];
    var clientId :- Subscript(configValues, "petfinder_api_key");
    var clientSecret :- Subscript(configValues, "petfinder_secret_key");
    var data := ClientCredentialsForm(clientId, clientSecret);
    var url := TokenUrl(configValues);
    if url.Err? {
      return Err(url.exc), trace;
    }
    trace := trace + [Post(url.value, data)];
    TokenLoopMakesOneAttempt(Err(MaxGenerateAccessTokenTriesError), TokenRequest(configValues),
                             Listed(retrySeconds), respond, |retrySeconds| + 1);
    var response := respond(0);
    if RequestFails(response) {
      return Ok(ReturnedError(RequestException)), trace;
    }
    match response.body {
      case Undecodable =>
        return Ok(ReturnedError(JSONDecodeError)), trace;
      case Decodes(responseData) =>
        var token := Subscript(responseData, "access_token");
        if token.Err? {
          return Err(token.exc), trace;
        }
        return Ok(Token(token.value)), trace;
    }
  }

  /** With the configuration complete, exactly one POST is made, nothing is
      slept, the first answer decides the result and
      MaxGenerateAccessTokenTriesError is never raised. */
  lemma TokenLambdaOnePost(request: Event, retrySeconds: seq<nat>, respond: nat -> Attempt)
    ensures var out := Run(TokenStep, Err(MaxGenerateAccessTokenTriesError), request, Listed(retrySeconds),
                           respond, |retrySeconds| + 1, 0);
      out.1 == [request] && out.0 == TokenStep(respond(0)).result
      && out.0 != Err(MaxGenerateAccessTokenTriesError)
  {
    TokenLoopMakesOneAttempt(Err(MaxGenerateAccessTokenTriesError), request, Listed(retrySeconds), respond, |retrySeconds| + 1);
  }
}

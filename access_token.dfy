/** `PetfinderAccessToken` of api_pull/utils/petfinder_access_token.py: a
    cached token with the time it was generated and its lifetime, all three
    exactly as given. The clock, `time.time()`, is the parameter `now`, in
    whole seconds. */
module AccessToken {
  import opened Json

  /** A value Python adds as a number: an int, or a bool (`True` is 1). */
  predicate Numeric(j: Json) {
    j.JInt? || j.JBool?
  }

  function NumberValue(j: Json): int
    requires Numeric(j)
  {
    if j.JInt? then j.n else if j.b then 1 else 0
  }

  class PetfinderAccessToken {
    var accessToken: Json
    var timeOfGeneration: Json
    var expiration: Json

    constructor (accessToken: Json, timeOfGeneration: Json, expiration: Json)
      ensures this.accessToken == accessToken && this.timeOfGeneration == timeOfGeneration
      ensures this.expiration == expiration
    {
      this.accessToken := accessToken;
      this.timeOfGeneration := timeOfGeneration;
      this.expiration := expiration;
    }

    /** `need_to_generate_new_token`: stale once generation time plus lifetime
        is at most `now`. When either is not a number (None, a string, ...)
        the sum or the comparison raises TypeError, which the method catches
        and answers True. */
    predicate NeedToGenerateNewToken(now: int)
      reads this
      ensures !(Numeric(timeOfGeneration) && Numeric(expiration)) ==> NeedToGenerateNewToken(now)
      ensures Numeric(timeOfGeneration) && Numeric(expiration) ==>
                (NeedToGenerateNewToken(now) <==> now - NumberValue(timeOfGeneration) >= NumberValue(expiration))
    {
      !(Numeric(timeOfGeneration) && Numeric(expiration))
      || NumberValue(timeOfGeneration) + NumberValue(expiration) <= now
    }

    /** `update_access_token`: replaces the three fields together. */
    method UpdateAccessToken(newToken: Json, timeOfGeneration: Json, expiration: Json)
      modifies this
      ensures this.accessToken == newToken && this.timeOfGeneration == timeOfGeneration
      ensures this.expiration == expiration
    {
      this.accessToken := newToken;
      this.timeOfGeneration := timeOfGeneration;
      this.expiration := expiration;
    }

    /** `get_access_token`: the stored token; nothing changes. */
    method GetAccessToken() returns (t: Json)
      ensures t == accessToken
    {
      t := accessToken;
    }
  }

  /** A token with numeric times is still fresh one second before its expiry
      instant and stale at that instant itself. */
  lemma StaleAtExpiryInstant(t: PetfinderAccessToken)
    requires Numeric(t.timeOfGeneration) && Numeric(t.expiration)
    ensures var expiry := NumberValue(t.timeOfGeneration) + NumberValue(t.expiration);
      t.NeedToGenerateNewToken(expiry) && !t.NeedToGenerateNewToken(expiry - 1)
  {
  }

  /** Without a generation time or a lifetime a token is always stale. */
  lemma MissingTimeIsStale(t: PetfinderAccessToken, now: int)
    requires t.timeOfGeneration == JNull || t.expiration == JNull
    ensures t.NeedToGenerateNewToken(now)
  {
  }

  /** Once stale, a token stays stale as the clock advances. */
  lemma StaleStaysStale(t: PetfinderAccessToken, now: int, later: int)
    requires t.NeedToGenerateNewToken(now) && now <= later
    ensures t.NeedToGenerateNewToken(later)
  {
  }
}

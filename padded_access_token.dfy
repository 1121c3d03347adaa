/** `PetfinderAccessToken` of api_pull/utils/petfinder/petfinder_access_token.py:
    a cached token whose lifetime the constructor shortens by 20 seconds, so
    that it is renewed before the server expires it. Times are whole seconds;
    the clock, `time.time()`, is the parameter `now`. */
module PaddedAccessToken {
  import opened Json

  /** The seconds the constructor takes off the lifetime. */
  const Padding: int := 20

  class PetfinderAccessToken {
    var accessToken: Json
    var timeOfGeneration: int
    var expiration: int

    /** Stores the token and the generation time as given, the lifetime less
        the padding: valid up to and including `expiration - 20` seconds after
        generation. */
    constructor (accessToken: Json, timeOfGeneration: int, expiration: int)
      ensures this.accessToken == accessToken && this.timeOfGeneration == timeOfGeneration
      ensures this.expiration == expiration - Padding
      ensures forall now :: TokenIsValid(now) <==> now <= timeOfGeneration + expiration - Padding
    {
      this.accessToken := accessToken;
      this.timeOfGeneration := timeOfGeneration;
      this.expiration := expiration - Padding;
    }

    /** `token_is_valid`: generation time plus stored lifetime is at least `now`. */
    predicate TokenIsValid(now: int)
      reads this
      ensures TokenIsValid(now) <==> now - timeOfGeneration <= expiration
    {
      timeOfGeneration + expiration >= now
    }

    /** `update_access_token`: replaces the three fields; this lifetime is
        stored without the padding, so the token stays valid up to the full
        `expiration` seconds after generation. */
    method UpdateAccessToken(newToken: Json, timeOfGeneration: int, expiration: int)
      modifies this
      ensures this.accessToken == newToken && this.timeOfGeneration == timeOfGeneration
      ensures this.expiration == expiration
      ensures forall now :: TokenIsValid(now) <==> now <= timeOfGeneration + expiration
    {
      this.accessToken := newToken;
      this.timeOfGeneration := timeOfGeneration;
      this.expiration := expiration;
    }

    /** `get_access_token`: the stored token; nothing changes. */
    method GetAccessToken() returns (t: Json)
      ensures t == accessToken
    {
      t := accessToken;
    }
  }

  /** Validity only ends: once invalid, a token stays invalid as the clock
      advances. */
  lemma ValidityAntitone(t: PetfinderAccessToken, now: int, later: int)
    requires !t.TokenIsValid(now) && now <= later
    ensures !t.TokenIsValid(later)
  {
  }

  /** The last valid instant is the expiry instant itself. */
  lemma ValidAtExpiryInstant(t: PetfinderAccessToken)
    ensures t.TokenIsValid(t.timeOfGeneration + t.expiration)
    ensures !t.TokenIsValid(t.timeOfGeneration + t.expiration + 1)
  {
  }
}

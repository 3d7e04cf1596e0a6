/** The process-wide access-token cache of the flight-search edge function
    (`cachedToken` and `getAmadeusToken`). The token is obtained with the
    client-credentials grant of section 4.4 of RFC 6749. The two clock
    readings, the environment lookup and the token endpoint's answer are
    parameters. */
module Credentials {
  import opened JsValues
  import opened Http

  /** The one cache slot: a bearer token and the instant, in epoch
      milliseconds, from which it is no longer handed out. */
  datatype Credential = Credential(token: string, expiresAt: int)

  /** The environment variables AMADEUS_API_KEY and AMADEUS_API_SECRET. */
  datatype Env = Env(apiKey: Option<string>, apiSecret: Option<string>)

  /** The decoded body of a successful token answer: `access_token` and
      `expires_in` (the lifetime in seconds). */
  datatype TokenGrant = TokenGrant(accessToken: string, expiresIn: int)

  /** What one call of getAmadeusToken yields: the token or the message it
      throws, the cache slot afterwards, and the outbound requests it made. */
  datatype Acquisition = Acquisition(result: Result<string, string>, slot: Option<Credential>, calls: seq<Call>)

  const CredentialsMissing := "Amadeus API credentials not configured"
  const AuthenticationFailed := "Failed to authenticate with Amadeus API"

  /** Seconds taken off the reported lifetime so that a token is not used right up to its real expiry. */
  const SafetyMarginSeconds := 60

  /** The cached token may be handed out at `now` (strictly before its expiry). */
  predicate Usable(slot: Option<Credential>, now: int)
  {
    slot.Some? && now < slot.value.expiresAt
  }

  /** Both credentials are present and non-empty. */
  predicate Configured(env: Env)
  {
    Truthy(env.apiKey) && Truthy(env.apiSecret)
  }

  /** The form body of a client-credentials access token request
      (section 4.4.2 of RFC 6749, client authenticated by body parameters). */
  function ClientCredentialsForm(clientId: string, clientSecret: string): seq<Param>
  {
    [Param("grant_type", "client_credentials"), Param("client_id", clientId), Param("client_secret", clientSecret)]
  }

  /** The expiry recorded for a token issued at `issuedAt` (milliseconds)
      with a reported lifetime of `expiresIn` seconds. */
  function ExpiryOf(issuedAt: int, expiresIn: int): int
  {
    issuedAt + (expiresIn - SafetyMarginSeconds) * 1000
  }

  /** One call of getAmadeusToken from cache slot `slot`. `now` is the clock
      reading of the freshness test, `issuedAt` the later reading taken when
      the new token is stored; `reply` is what the token endpoint answers.
      A call that throws leaves the cache exactly as it was; a call that
      returns a token leaves that very token in the cache. */
  function Acquire(slot: Option<Credential>, now: int, env: Env, reply: Reply<TokenGrant>, issuedAt: int): (a: Acquisition)
    ensures a.result.Failure? ==> a.slot == slot
    ensures a.result.Success? ==> a.slot.Some? && a.slot.value.token == a.result.value
    ensures |a.calls| <= 1
  {
    if Usable(slot, now) then
      Acquisition(Success(slot.value.token), slot, [])
    else if !Configured(env) then
      Acquisition(Failure(CredentialsMissing), slot, [])
    else
      var calls := [TokenRequest(ClientCredentialsForm(env.apiKey.value, env.apiSecret.value))];
      match reply
      case Thrown(message) => Acquisition(Failure(message), slot, calls)
      case Answered(status, grant) =>
        if !IsOk(status) then Acquisition(Failure(AuthenticationFailed), slot, calls)
        else
          var issued := Credential(grant.accessToken, ExpiryOf(issuedAt, grant.expiresIn));
          Acquisition(Success(issued.token), Some(issued), calls)
  }

  /** A usable cached token is returned as it is, with no request and no change to the cache. */
  lemma CacheHit(slot: Option<Credential>, now: int, env: Env, reply: Reply<TokenGrant>, issuedAt: int)
    requires Usable(slot, now)
    ensures Acquire(slot, now, env, reply, issuedAt) == Acquisition(Success(slot.value.token), slot, [])
  {
  }

  /** Outside the usable window (no token, or `now` at or past the expiry) a
      configured cache makes exactly one token request, a client-credentials
      grant carrying the two credentials; an unconfigured one makes none and
      throws the configuration error. */
  lemma RefreshRequests(slot: Option<Credential>, now: int, env: Env, reply: Reply<TokenGrant>, issuedAt: int)
    requires !Usable(slot, now)
    ensures var a := Acquire(slot, now, env, reply, issuedAt);
      if Configured(env) then a.calls == [TokenRequest(ClientCredentialsForm(env.apiKey.value, env.apiSecret.value))]
      else a.calls == [] && a.result == Failure(CredentialsMissing)
  {
  }

  /** Whatever happens, at most one request is made, and it is a token request. */
  lemma AtMostOneTokenRequest(slot: Option<Credential>, now: int, env: Env, reply: Reply<TokenGrant>, issuedAt: int)
    ensures var a := Acquire(slot, now, env, reply, issuedAt);
      |a.calls| <= 1 && (forall c :: c in a.calls ==> c.TokenRequest?)
      && (|a.calls| == 1 <==> !Usable(slot, now) && Configured(env))
  {
  }

  /** A successful refresh replaces the slot wholesale with the new token and
      its expiry `issuedAt + (expires_in - 60) * 1000`. */
  lemma RefreshReplacesSlot(slot: Option<Credential>, now: int, env: Env, status: int, grant: TokenGrant, issuedAt: int)
    requires !Usable(slot, now) && Configured(env) && IsOk(status)
    ensures var a := Acquire(slot, now, env, Answered(status, grant), issuedAt);
      a.result == Success(grant.accessToken)
      && a.slot == Some(Credential(grant.accessToken, issuedAt + (grant.expiresIn - 60) * 1000))
  {
  }

  /** A rejected token request throws the authentication error and keeps the old slot. */
  lemma RejectedGrantThrows(slot: Option<Credential>, now: int, env: Env, status: int, grant: TokenGrant, issuedAt: int)
    requires !Usable(slot, now) && Configured(env) && !IsOk(status)
    ensures Acquire(slot, now, env, Answered(status, grant), issuedAt)
         == Acquisition(Failure(AuthenticationFailed), slot, [TokenRequest(ClientCredentialsForm(env.apiKey.value, env.apiSecret.value))])
  {
  }

  /** After a refresh at `issuedAt` with lifetime `expiresIn`, a later call at
      `later` reuses the token without any request exactly when `later` is
      more than 60 seconds before the token's real end of life
      `issuedAt + expiresIn * 1000`. */
  lemma SecondCallWithinMargin(slot: Option<Credential>, now: int, env: Env, status: int, grant: TokenGrant, issuedAt: int,
                               later: int, env2: Env, reply2: Reply<TokenGrant>, issuedAt2: int)
    requires !Usable(slot, now) && Configured(env) && IsOk(status)
    ensures var first := Acquire(slot, now, env, Answered(status, grant), issuedAt);
      var second := Acquire(first.slot, later, env2, reply2, issuedAt2);
      (second.calls == [] && second.result == first.result)
        <==> later + 60 * 1000 < issuedAt + grant.expiresIn * 1000
  {
    var first := Acquire(slot, now, env, Answered(status, grant), issuedAt);
    var second := Acquire(first.slot, later, env2, reply2, issuedAt2);
    if !(later + 60 * 1000 < issuedAt + grant.expiresIn * 1000) {
      assert !Usable(first.slot, later);
      if !Configured(env2) {
        assert second.result == Failure(CredentialsMissing);
      }
    }
  }

  /** The cache slot of the edge function: one per process. */
  class TokenCache {
    var slot: Option<Credential>

    /** A process starts with an empty slot. */
    constructor ()
      ensures slot == None
    {
      slot := None;
    }

    /** getAmadeusToken: hands out the cached token while it is usable,
        otherwise requests a new one and stores it. */
    method GetToken(now: int, env: Env, reply: Reply<TokenGrant>, issuedAt: int) returns (result: Result<string, string>, calls: seq<Call>)
      modifies this
      ensures Acquire(old(slot), now, env, reply, issuedAt) == Acquisition(result, slot, calls)
    {
      if slot.Some? && now < slot.value.expiresAt {
        return Success(slot.value.token), [];
      }
      if !Truthy(env.apiKey) || !Truthy(env.apiSecret) {
        return Failure(CredentialsMissing), [];
      }
      calls := [TokenRequest(ClientCredentialsForm(env.apiKey.value, env.apiSecret.value))];
      match reply {
        case Thrown(message) =>
          result := Failure(message);
        case Answered(status, grant) =>
          if !IsOk(status) {
            result := Failure(AuthenticationFailed);
          } else {
            slot := Some(Credential(grant.accessToken, ExpiryOf(issuedAt, grant.expiresIn)));
            result := Success(slot.value.token);
          }
      }
    }
  }
}

/** The request handler passed to `serve`: answers the CORS pre-flight,
    validates the body, then runs token cache, search and normaliser in turn
    and turns whatever they throw into a 500 answer. The decoded request body
    (or the message of its decoding error) and the two provider answers are
    parameters. */
module SearchHandler {
  import opened JsValues
  import opened Http
  import opened Credentials
  import opened FlightQuery
  import opened ProviderData
  import opened Normalizer

  /** The JSON body of an answer. */
  datatype Body =
    | NoBody                                               // `new Response(null, ...)`
    | ErrorJson(error: string)                             // `{ error }`
    | FlightsJson(flights: seq<FlightOption>, total: int)  // `{ flights, meta: { total } }`

  datatype Response = Response(status: int, headers: seq<Param>, body: Body)

  /** One invocation's answer, the cache slot it leaves, and its outbound requests in order. */
  datatype Served = Served(response: Response, slot: Option<Credential>, calls: seq<Call>)

  const CorsHeaders := [
    Param("Access-Control-Allow-Origin", "*"),
    Param("Access-Control-Allow-Headers", "authorization, x-client-info, apikey, content-type")]

  const JsonHeaders := CorsHeaders + [Param("Content-Type", "application/json")]

  const MissingFieldsMessage := "Missing required fields: origin, destination, departureDate"

  /** The three fields the handler requires are all present and non-empty. */
  predicate Complete(req: SearchRequest)
  {
    Truthy(req.origin) && Truthy(req.destination) && Truthy(req.departureDate)
  }

  function ErrorResponse(message: string): Response
  {
    Response(500, JsonHeaders, ErrorJson(message))
  }

  /** One invocation with HTTP method `verb` and decoded `body`, starting
      from cache slot `slot`; `now` and `issuedAt` are the token cache's clock
      readings, `tokenReply` and `searchReply` the provider's answers. */
  function Serve(slot: Option<Credential>, verb: string, body: Result<SearchRequest, string>, env: Env,
                 now: int, issuedAt: int, tokenReply: Reply<TokenGrant>, searchReply: Reply<Payload>): (served: Served)
    ensures served.response.status == 200 || served.response.status == 400 || served.response.status == 500
    ensures served.response.body.FlightsJson? ==> served.response.body.total == |served.response.body.flights|
    ensures |served.calls| <= 2
  {
    if verb == "OPTIONS" then Served(Response(200, CorsHeaders, NoBody), slot, [])
    else if body.Failure? then Served(ErrorResponse(body.error), slot, [])
    else if !Complete(body.value) then Served(Response(400, JsonHeaders, ErrorJson(MissingFieldsMessage)), slot, [])
    else
      var acquired := Acquire(slot, now, env, tokenReply, issuedAt);
      if acquired.result.Failure? then Served(ErrorResponse(acquired.result.error), acquired.slot, acquired.calls)
      else
        var (found, searchCalls) := SearchOffers(body.value, acquired.result.value, searchReply);
        var calls := acquired.calls + searchCalls;
        if found.Failure? then Served(ErrorResponse(found.error), acquired.slot, calls)
        else
          var flights := TransformFlightOffers(found.value);
          Served(Response(200, JsonHeaders, FlightsJson(flights, |flights|)), acquired.slot, calls)
  }

  /** A pre-flight request gets an empty 200 answer with only the CORS
      headers, and nothing else happens. */
  lemma PreflightShortCircuits(slot: Option<Credential>, body: Result<SearchRequest, string>, env: Env,
                               now: int, issuedAt: int, tokenReply: Reply<TokenGrant>, searchReply: Reply<Payload>)
    ensures Serve(slot, "OPTIONS", body, env, now, issuedAt, tokenReply, searchReply)
         == Served(Response(200, CorsHeaders, NoBody), slot, [])
  {
  }

  /** A body missing origin, destination or departure date is answered 400
      before any token work: no request is made and the cache is untouched. */
  lemma IncompleteRequestRejected(slot: Option<Credential>, verb: string, req: SearchRequest, env: Env,
                                  now: int, issuedAt: int, tokenReply: Reply<TokenGrant>, searchReply: Reply<Payload>)
    requires verb != "OPTIONS" && !Complete(req)
    ensures Serve(slot, verb, Success(req), env, now, issuedAt, tokenReply, searchReply)
         == Served(Response(400, JsonHeaders, ErrorJson(MissingFieldsMessage)), slot, [])
  {
  }

  /** Every answer but the pre-flight one carries the CORS headers and the
      JSON content type, and has status 200, 400 or 500; a 200 answer lists
      flights with `meta.total` equal to their number, and any other answer
      carries an error message, never flights. */
  lemma AnswerShape(slot: Option<Credential>, verb: string, body: Result<SearchRequest, string>, env: Env,
                    now: int, issuedAt: int, tokenReply: Reply<TokenGrant>, searchReply: Reply<Payload>)
    requires verb != "OPTIONS"
    ensures var r := Serve(slot, verb, body, env, now, issuedAt, tokenReply, searchReply).response;
      && r.headers == JsonHeaders
      && (r.status == 200 || r.status == 400 || r.status == 500)
      && (r.status == 200 <==> r.body.FlightsJson?)
      && (r.status == 200 ==> r.body.total == |r.body.flights|)
      && (r.status != 200 ==> r.body.ErrorJson?)
  {
  }

  /** The answer is 200 exactly when the body decodes and is complete, a
      token is obtained, and the search answers with an ok status; the
      flights are then the normalised search answer. */
  lemma SuccessIffEveryStepSucceeds(slot: Option<Credential>, verb: string, body: Result<SearchRequest, string>, env: Env,
                                    now: int, issuedAt: int, tokenReply: Reply<TokenGrant>, searchReply: Reply<Payload>)
    requires verb != "OPTIONS"
    ensures var r := Serve(slot, verb, body, env, now, issuedAt, tokenReply, searchReply).response;
      var acquired := Acquire(slot, now, env, tokenReply, issuedAt);
      r.status == 200 <==>
        body.Success? && Complete(body.value) && acquired.result.Success?
        && searchReply.Answered? && IsOk(searchReply.status)
    ensures var r := Serve(slot, verb, body, env, now, issuedAt, tokenReply, searchReply).response;
      r.status == 200 ==> searchReply.Answered? && r.body.flights == TransformFlightOffers(searchReply.body)
  {
  }

  /** Whatever throws inside the handler's try block (reading the body, the
      token cache or the search) is answered 500 with the thrown message. */
  lemma ThrownErrorsAnswer500(slot: Option<Credential>, verb: string, body: Result<SearchRequest, string>, env: Env,
                              now: int, issuedAt: int, tokenReply: Reply<TokenGrant>, searchReply: Reply<Payload>)
    requires verb != "OPTIONS"
    ensures var r := Serve(slot, verb, body, env, now, issuedAt, tokenReply, searchReply).response;
      body.Failure? ==> r == ErrorResponse(body.error)
    ensures var r := Serve(slot, verb, body, env, now, issuedAt, tokenReply, searchReply).response;
      var acquired := Acquire(slot, now, env, tokenReply, issuedAt);
      body.Success? && Complete(body.value) && acquired.result.Failure? ==> r == ErrorResponse(acquired.result.error)
    ensures var r := Serve(slot, verb, body, env, now, issuedAt, tokenReply, searchReply).response;
      var acquired := Acquire(slot, now, env, tokenReply, issuedAt);
      body.Success? && Complete(body.value) && acquired.result.Success? ==>
        var found := SearchOffers(body.value, acquired.result.value, searchReply).0;
        found.Failure? ==> r == ErrorResponse(found.error) && r.status == 500
  {
  }

  /** When the token cache throws, the search is never attempted: the only
      requests are the cache's own, and the answer is 500 with the cache's
      message. */
  lemma TokenFailureSkipsSearch(slot: Option<Credential>, verb: string, req: SearchRequest, env: Env,
                                now: int, issuedAt: int, tokenReply: Reply<TokenGrant>, searchReply: Reply<Payload>)
    requires verb != "OPTIONS" && Complete(req)
    requires Acquire(slot, now, env, tokenReply, issuedAt).result.Failure?
    ensures var acquired := Acquire(slot, now, env, tokenReply, issuedAt);
      var served := Serve(slot, verb, Success(req), env, now, issuedAt, tokenReply, searchReply);
      && served.response == ErrorResponse(acquired.result.error)
      && served.calls == acquired.calls
      && forall c :: c in served.calls ==> c.TokenRequest?
  {
    AtMostOneTokenRequest(slot, now, env, tokenReply, issuedAt);
  }

  /** A complete request whose token is obtained makes exactly one search
      request, after the token request if there was one, and that search
      sends the query built from the request with the obtained token as its
      bearer credential. */
  lemma SearchUsesObtainedToken(slot: Option<Credential>, verb: string, req: SearchRequest, env: Env,
                                now: int, issuedAt: int, tokenReply: Reply<TokenGrant>, searchReply: Reply<Payload>)
    requires verb != "OPTIONS" && Complete(req)
    requires Acquire(slot, now, env, tokenReply, issuedAt).result.Success?
    ensures var acquired := Acquire(slot, now, env, tokenReply, issuedAt);
      var served := Serve(slot, verb, Success(req), env, now, issuedAt, tokenReply, searchReply);
      served.calls == acquired.calls + [OfferSearch(SearchQuery(req), "Bearer " + acquired.result.value)]
  {
  }

  /** Two complete requests in a row: when the first obtains a fresh token
      and the second comes more than 60 seconds before that token's real end
      of life, the second makes no token request, only its search. */
  lemma WarmCacheSkipsExchange(slot: Option<Credential>, req: SearchRequest, env: Env, now: int, issuedAt: int,
                               status: int, grant: TokenGrant, searchReply: Reply<Payload>,
                               req2: SearchRequest, later: int, issuedAt2: int, tokenReply2: Reply<TokenGrant>, searchReply2: Reply<Payload>)
    requires Complete(req) && Complete(req2) && !Usable(slot, now) && Configured(env) && IsOk(status)
    requires later + 60 * 1000 < issuedAt + grant.expiresIn * 1000
    ensures var first := Serve(slot, "POST", Success(req), env, now, issuedAt, Answered(status, grant), searchReply);
      var second := Serve(first.slot, "POST", Success(req2), env, later, issuedAt2, tokenReply2, searchReply2);
      second.calls == [OfferSearch(SearchQuery(req2), "Bearer " + grant.accessToken)]
  {
    var first := Serve(slot, "POST", Success(req), env, now, issuedAt, Answered(status, grant), searchReply);
    assert first.slot == Some(Credential(grant.accessToken, ExpiryOf(issuedAt, grant.expiresIn)));
  }

  /** The edge function's request handler, sharing `cache` with every other invocation of the process. */
  method Handle(cache: TokenCache, verb: string, body: Result<SearchRequest, string>, env: Env,
                now: int, issuedAt: int, tokenReply: Reply<TokenGrant>, searchReply: Reply<Payload>)
    returns (response: Response, calls: seq<Call>)
    modifies cache
    ensures Serve(old(cache.slot), verb, body, env, now, issuedAt, tokenReply, searchReply) == Served(response, cache.slot, calls)
  {
    if verb == "OPTIONS" {
      return Response(200, CorsHeaders, NoBody), [];
    }
    if body.Failure? {
      return ErrorResponse(body.error), [];
    }
    var req := body.value;
    if !Truthy(req.origin) || !Truthy(req.destination) || !Truthy(req.departureDate) {
      return Response(400, JsonHeaders, ErrorJson(MissingFieldsMessage)), [];
    }
    var token;
    token, calls := cache.GetToken(now, env, tokenReply, issuedAt);
    if token.Failure? {
      return ErrorResponse(token.error), calls;
    }
    var flightData, searchCalls := SearchFlights(req, token.value, searchReply);
    calls := calls + searchCalls;
    if flightData.Failure? {
      return ErrorResponse(flightData.error), calls;
    }
    var flights := TransformFlightOffers(flightData.value);
    response := Response(200, JsonHeaders, FlightsJson(flights, |flights|));
  }
}

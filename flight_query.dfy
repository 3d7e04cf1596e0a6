/** `searchFlights`: builds the offer-search query, sends it with the bearer
    token and hands back the decoded answer or throws on a non-ok status. The
    query list is a URLSearchParams object that the code appends to; the
    provider's answer is a parameter. */
module FlightQuery {
  import opened JsValues
  import opened Decimal
  import opened Http
  import opened ProviderData

  /** The request body the edge function receives. The three fields it
      validates, and the optional return date, may be absent; the passenger
      counts are integers. */
  datatype SearchRequest = SearchRequest(
    origin: Option<string>,
    destination: Option<string>,
    departureDate: Option<string>,
    returnDate: Option<string>,
    adults: int,
    children: int)

  const SearchFailedPrefix := "Flight search failed: "

  /** The entries the query is created with, in insertion order. An absent
      field is converted to the text "undefined", as URLSearchParams does. */
  function RequiredParams(req: SearchRequest): seq<Param>
  {
    [ Param("originLocationCode", JsString(req.origin)),
      Param("destinationLocationCode", JsString(req.destination)),
      Param("departureDate", JsString(req.departureDate)),
      Param("adults", IntToString(req.adults)),
      Param("children", IntToString(req.children)),
      Param("currencyCode", "USD"),
      Param("max", "10") ]
  }

  /** The query that searchFlights sends for `req`. */
  function SearchQuery(req: SearchRequest): (q: seq<Param>)
    ensures |q| == (if Truthy(req.returnDate) then 8 else 7)
    ensures q[..7] == RequiredParams(req)
    ensures Truthy(req.returnDate) ==> q[7] == Param("returnDate", req.returnDate.value)
  {
    if Truthy(req.returnDate) then RequiredParams(req) + [Param("returnDate", req.returnDate.value)]
    else RequiredParams(req)
  }

  /** The `Authorization` header value for a bearer token. */
  function Bearer(token: string): string
  {
    "Bearer " + token
  }

  /** What searchFlights does with the provider's answer `reply`: the one
      request it sends, and the decoded body it returns or the message it throws. */
  function SearchOffers(req: SearchRequest, token: string, reply: Reply<Payload>): (r: (Result<Payload, string>, seq<Call>))
    ensures r.1 == [OfferSearch(SearchQuery(req), Bearer(token))]
    ensures r.0.Success? <==> reply.Answered? && IsOk(reply.status)
  {
    var calls := [OfferSearch(SearchQuery(req), Bearer(token))];
    match reply
    case Thrown(message) => (Failure(message), calls)
    case Answered(status, body) =>
      if IsOk(status) then (Success(body), calls)
      else (Failure(SearchFailedPrefix + IntToString(status)), calls)
  }

  /** Read as URLSearchParams.get, the query names each parameter once and
      carries: the three request fields, both passenger counts in decimal,
      currency USD, at most 10 results, and a return date exactly when the
      request has a non-empty one. */
  lemma SearchQueryContents(req: SearchRequest)
    ensures var q := SearchQuery(req);
      && (forall j, k :: 0 <= j < k < |q| ==> q[j].name != q[k].name)
      && Get(q, "originLocationCode") == Some(JsString(req.origin))
      && Get(q, "destinationLocationCode") == Some(JsString(req.destination))
      && Get(q, "departureDate") == Some(JsString(req.departureDate))
      && Get(q, "adults") == Some(IntToString(req.adults))
      && Get(q, "children") == Some(IntToString(req.children))
      && Get(q, "currencyCode") == Some("USD")
      && Get(q, "max") == Some("10")
      && (Get(q, "returnDate").Some? <==> Truthy(req.returnDate))
      && (Truthy(req.returnDate) ==> Get(q, "returnDate") == req.returnDate)
  {
    QueryNamesDistinct(req);
    PlaceLookups(req);
    CountLookups(req);
    FixedLookups(req);
    ReturnDateLookup(req);
  }

  /** The parameter names have pairwise different lengths, so no name repeats. */
  lemma QueryNamesDistinct(req: SearchRequest)
    ensures var q := SearchQuery(req);
      forall j, k :: 0 <= j < k < |q| ==> q[j].name != q[k].name
  {
    NameLengths(req);
  }

  /** The names of the query's entries, by length: no two are alike. */
  lemma NameLengths(req: SearchRequest)
    ensures var q := SearchQuery(req);
      forall j :: 0 <= j < |q| ==> |q[j].name| == [18, 23, 13, 6, 8, 12, 3, 10][j]
  {
  }

  lemma PlaceLookups(req: SearchRequest)
    ensures var q := SearchQuery(req);
      && Get(q, "originLocationCode") == Some(JsString(req.origin))
      && Get(q, "destinationLocationCode") == Some(JsString(req.destination))
      && Get(q, "departureDate") == Some(JsString(req.departureDate))
  {
    var q := SearchQuery(req);
    NameLengths(req);
    GetFirst(q, 0);
    GetFirst(q, 1);
    GetFirst(q, 2);
  }

  lemma CountLookups(req: SearchRequest)
    ensures var q := SearchQuery(req);
      && Get(q, "adults") == Some(IntToString(req.adults))
      && Get(q, "children") == Some(IntToString(req.children))
  {
    var q := SearchQuery(req);
    NameLengths(req);
    GetFirst(q, 3);
    GetFirst(q, 4);
  }

  lemma FixedLookups(req: SearchRequest)
    ensures var q := SearchQuery(req);
      && Get(q, "currencyCode") == Some("USD")
      && Get(q, "max") == Some("10")
  {
    var q := SearchQuery(req);
    NameLengths(req);
    GetFirst(q, 5);
    GetFirst(q, 6);
  }

  lemma ReturnDateLookup(req: SearchRequest)
    ensures var q := SearchQuery(req);
      && (Get(q, "returnDate").Some? <==> Truthy(req.returnDate))
      && (Truthy(req.returnDate) ==> Get(q, "returnDate") == req.returnDate)
  {
    var q := SearchQuery(req);
    NameLengths(req);
    if Truthy(req.returnDate) {
      GetFirst(q, 7);
    }
  }

  /** Exactly one request is sent, carrying the query for `req` and the
      token as a bearer credential. The call returns the decoded body exactly
      when the answer has an ok status; a non-ok status throws
      "Flight search failed: <status>", and a rejected fetch throws its own message. */
  lemma SearchOutcome(req: SearchRequest, token: string, reply: Reply<Payload>)
    ensures var (result, calls) := SearchOffers(req, token, reply);
      && calls == [OfferSearch(SearchQuery(req), "Bearer " + token)]
      && (result.Success? <==> reply.Answered? && IsOk(reply.status))
      && (result.Success? ==> result.value == reply.body)
      && (reply.Answered? && !IsOk(reply.status) ==> result == Failure("Flight search failed: " + IntToString(reply.status)))
      && (reply.Thrown? ==> result == Failure(reply.message))
  {
  }

  /** The search-failure message names the status: two different statuses never give the same message. */
  lemma FailureMessageIdentifiesStatus(a: int, b: int)
    ensures SearchFailedPrefix + IntToString(a) == SearchFailedPrefix + IntToString(b) <==> a == b
  {
    if SearchFailedPrefix + IntToString(a) == SearchFailedPrefix + IntToString(b) {
      assert (SearchFailedPrefix + IntToString(a))[|SearchFailedPrefix|..] == IntToString(a);
      assert (SearchFailedPrefix + IntToString(b))[|SearchFailedPrefix|..] == IntToString(b);
      IntToStringInjective(a, b);
    }
  }

  /** A URLSearchParams object: an ordered list of name/value entries. */
  class QueryParams {
    var entries: seq<Param>

    /** `new URLSearchParams({...})`: the entries of the object, in order. */
    constructor (init: seq<Param>)
      ensures entries == init
    {
      entries := init;
    }

    /** `append(name, value)`: adds an entry at the end, even when the name is already present. */
    method Append(name: string, value: string)
      modifies this
      ensures entries == old(entries) + [Param(name, value)]
    {
      entries := entries + [Param(name, value)];
    }
  }

  /** searchFlights(params, token). */
  method SearchFlights(req: SearchRequest, token: string, reply: Reply<Payload>) returns (result: Result<Payload, string>, calls: seq<Call>)
    ensures (result, calls) == SearchOffers(req, token, reply)
  {
    var searchParams := new QueryParams(RequiredParams(req));
    if Truthy(req.returnDate) {
      searchParams.Append("returnDate", req.returnDate.value);
    }
    calls := [OfferSearch(searchParams.entries, Bearer(token))];
    match reply {
      case Thrown(message) =>
        result := Failure(message);
      case Answered(status, body) =>
        if !IsOk(status) {
          result := Failure(SearchFailedPrefix + IntToString(status));
        } else {
          result := Success(body);
        }
    }
  }
}

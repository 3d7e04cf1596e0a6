/** The edge function's view of HTTP: name/value parameter lists, the
    answer an outbound `fetch` brings back, and a record of the outbound
    requests a call made. The network itself is not modelled: what it
    answers is a parameter of each operation. */
module Http {
  import opened JsValues

  /** One entry of a URLSearchParams list (a query string or a form body) or of a header list. */
  datatype Param = Param(name: string, value: string)

  /** `response.ok`: the status is in the range 200-299. */
  predicate IsOk(status: int)
  {
    200 <= status <= 299
  }

  /** What an outbound `fetch` yields: either it rejects (or the JSON body of an
      ok answer cannot be read) with an error message, or the server answers
      with a status and a decoded body. */
  datatype Reply<T> = Thrown(message: string) | Answered(status: int, body: T)

  /** An outbound request made by the edge function. */
  datatype Call =
    | TokenRequest(form: seq<Param>)                  // POST to the OAuth2 token endpoint
    | OfferSearch(query: seq<Param>, authorization: string)  // GET to the flight-offer search endpoint

  /** The position of the first entry called `name`, or the length of the list when there is none. */
  function IndexOf(params: seq<Param>, name: string): (i: nat)
    ensures i <= |params|
    ensures i < |params| ==> params[i].name == name
    ensures forall j :: 0 <= j < i ==> params[j].name != name
  {
    if params == [] then 0
    else if params[0].name == name then 0
    else 1 + IndexOf(params[1..], name)
  }

  /** `URLSearchParams.get(name)`: the value of the first entry called `name`. */
  function Get(params: seq<Param>, name: string): (r: Option<string>)
    ensures r.None? <==> forall j :: 0 <= j < |params| ==> params[j].name != name
  {
    var i := IndexOf(params, name);
    if i < |params| then Some(params[i].value) else None
  }

  /** `Get` finds an entry when no entry before it has the same name. */
  lemma GetFirst(params: seq<Param>, i: nat)
    requires i < |params|
    requires forall j :: 0 <= j < i ==> params[j].name != params[i].name
    ensures Get(params, params[i].name) == Some(params[i].value)
  {
  }
}

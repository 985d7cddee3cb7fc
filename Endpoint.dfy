/**
 * The base API endpoint (LicenseJet/Endpoint/Endpoint.php): builds the HTTP
 * request for a method, a URI and parameters, sends it, and turns failures
 * into LicenseJetExceptions. The HTTP client is the function `send`.
 */
module Endpoints {
  import opened Values
  import opened Strings
  import opened Responses
  import opened Exceptions
  import opened Identities

  /** The request options: a JSON body, a query string, or neither. */
  datatype RequestOptions = RequestOptions(json: Option<Attrs>, query: Option<Attrs>)

  datatype HttpRequest = HttpRequest(verb: string, uri: string, headers: map<string, string>, options: RequestOptions)

  /**
   * What sending a request comes to: a response (its payload decoded), the
   * client's ClientException for a 4xx status, or any other failure.
   */
  datatype SendOutcome =
    | Delivered(status: int, reason: string, payload: Value)
    | ClientFailure(status: int, reason: string)
    | Failure(message: string)

  /** The headers every request carries. */
  function Headers(key: string): (h: map<string, string>)
    ensures h.Keys == {"Authorization", "Accept"}
    ensures h["Authorization"] == "APIKEY " + key && h["Accept"] == "application/json"
  {
    map["Authorization" := "APIKEY " + key, "Accept" := "application/json"]
  }

  /**
   * The request `request()` sends for an upper-cased verb: POST sends
   * non-empty parameters as a JSON body, every other method as a query
   * string, and empty parameters set neither option.
   */
  function RequestFor(verb: string, uri: string, key: string, params: Attrs): (req: HttpRequest)
    ensures req.verb == verb && req.uri == uri && req.headers == Headers(key)
    ensures req.options.json.Some? <==> verb == "POST" && params != map[]
    ensures req.options.query.Some? <==> verb != "POST" && params != map[]
    ensures req.options.json.Some? ==> req.options.json.value == params
    ensures req.options.query.Some? ==> req.options.query.value == params
  {
    var options :=
      if params == map[] then RequestOptions(None, None)
      else if verb == "POST" then RequestOptions(Some(params), None)
      else RequestOptions(None, Some(params));
    HttpRequest(verb, uri, Headers(key), options)
  }

  /**
   * The response for a delivered request, or the LicenseJetException that
   * wraps the failure: "Request failed: " and the reason phrase around a
   * ClientException, "Request failed. Error: " and the message around any
   * other throwable. Only a 404 ClientException makes it "not found".
   */
  function Delivery(outcome: SendOutcome): (r: Result<Response>)
    ensures r.Ok? <==> outcome.Delivered?
    ensures r.Ok? ==> r.value == Response(outcome.status, outcome.reason, outcome.payload)
    ensures outcome.ClientFailure? ==> (r.error ==
      LicenseJetException("Request failed: " + outcome.reason, Some(ClientException(outcome.status, outcome.reason))))
    ensures outcome.Failure? ==> (r.error ==
      LicenseJetException("Request failed. Error: " + outcome.message, Some(OtherThrowable(outcome.message))))
    ensures r.Err? ==> (r.error.LicenseJetException? &&
      (IsNotFound(r.error) <==> outcome.ClientFailure? && outcome.status == 404))
  {
    match outcome
    case Delivered(status, reason, payload) => Ok(Response(status, reason, payload))
    case ClientFailure(status, reason) =>
      Err(LicenseJetException("Request failed: " + reason, Some(ClientException(status, reason))))
    case Failure(message) =>
      Err(LicenseJetException("Request failed. Error: " + message, Some(OtherThrowable(message))))
  }

  class Endpoint {
    const identity: Identity
    /** The HTTP client: what the server does with each request. */
    const send: HttpRequest -> SendOutcome

    constructor(identity: Identity, send: HttpRequest -> SendOutcome)
      ensures this.identity == identity && this.send == send
    {
      this.identity := identity;
      this.send := send;
    }

    /**
     * What `request()` returns or raises for an already upper-cased verb when
     * the identity's timeout is `timeout`: building the client reads the
     * timeout through `getClientTimeout()`, outside the `try`, so a null
     * timeout raises that getter's TypeError unwrapped and nothing is sent.
     */
    function Call(verb: string, uri: string, params: Attrs, timeout: Option<int>): Result<Response>
    {
      if timeout.None? then Err(OtherThrowable("TypeError"))
      else Delivery(send(RequestFor(verb, uri, identity.apiKey, params)))
    }

    /**
     * `request($method, $uri, $queryParams)`: send the request built for the
     * upper-cased method and return the response, or raise the wrapped failure.
     * Only a null client timeout raises something else: the TypeError of
     * `getClientTimeout()`, before any request is sent.
     */
    method Request(verb: string, uri: string, params: Attrs := map[]) returns (r: Result<Response>)
      ensures r == Call(Upper(verb), uri, params, identity.clientTimeout)
      ensures identity.clientTimeout.None? ==> r == Err(OtherThrowable("TypeError"))
      ensures identity.clientTimeout.Some? && r.Err? ==> r.error.LicenseJetException?
    {
      var timeout := identity.GetClientTimeout();
      if timeout.Err? {
        return Err(timeout.error);
      }
      var request := RequestFor(Upper(verb), uri, identity.GetKey(), params);
      r := Delivery(send(request));
    }
  }

  /**
   * The method name is case-insensitive: every spelling of "post" (and only
   * those) sends non-empty parameters as a JSON body rather than a query string.
   */
  lemma MethodIsCaseInsensitive(verb: string, uri: string, key: string, params: Attrs)
    requires params != map[]
    ensures SameIgnoringCase(verb, "post") ==>
      RequestFor(Upper(verb), uri, key, params).options == RequestOptions(Some(params), None)
    ensures !SameIgnoringCase(verb, "post") ==>
      RequestFor(Upper(verb), uri, key, params).options == RequestOptions(None, Some(params))
  {
    assert Upper("post") == "POST";
    UpperEqual(verb, "post");
  }

  /** PUT is not POST: its parameters go into the query string. */
  lemma PutSendsQuery(uri: string, key: string, params: Attrs)
    requires params != map[]
    ensures RequestFor("PUT", uri, key, params).options == RequestOptions(None, Some(params))
  {
  }
}

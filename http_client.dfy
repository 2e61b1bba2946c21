/**
 * The authenticated management-API client: URL resolution against the service's base URL,
 * classification of the response status, and a client object whose requests go to a
 * scripted network (the replies it will receive, in order) and are recorded in a log.
 */
module HttpClient {
  import opened Wrappers
  import opened Json

  const HttpsScheme := "https://"
  const ManagementApiEndpoint := "management.azure.com"
  const SuccessCodes: set<int> := {200, 201, 202}

  predicate StartsWith(s: string, prefix: string)
  {
    |prefix| <= |s| && s[..|prefix|] == prefix
  }

  /** The resource URL of one API Management service instance. */
  function BaseUrl(subscriptionId: string, resourceGroupName: string, serviceName: string): (url: string)
    ensures StartsWith(url, HttpsScheme)
    ensures |serviceName| < |url| && url[|url| - |serviceName|..] == serviceName
  {
    HttpsScheme + ManagementApiEndpoint + "/subscriptions/" + subscriptionId
    + "/resourceGroups/" + resourceGroupName
    + "/providers/Microsoft.ApiManagement/service/" + serviceName
  }

  /** An absolute URL is used as it is; anything else is a path under the base URL. */
  function ResolveUrl(baseUrl: string, url: string): (r: string)
    ensures StartsWith(url, HttpsScheme) ==> r == url
    ensures !StartsWith(url, HttpsScheme) ==> r == baseUrl + url
    ensures StartsWith(baseUrl, HttpsScheme) ==> StartsWith(r, HttpsScheme)
  {
    if StartsWith(url, HttpsScheme) then url else baseUrl + url
  }

  datatype Method = GET | PUT | POST

  /** One call handed to the transport: HTTP method, resolved URL and JSON body. */
  datatype Request = Request(verb: Method, url: string, body: Option<Value>)

  /**
   * A response: status code, body text, and what `response.json()` decodes that text to
   * (`None` when the text is not JSON).
   */
  datatype Response = Response(status: int, text: string, json: Option<Value>)

  /** How `send_request` ends for one response. */
  datatype Outcome =
    | Parsed(body: Value)   // success status, decoded body returned
    | Empty                 // success status with empty text: "" is returned
    | HttpError(code: int)  // raise_for_status raises for a 4xx or 5xx status
    | FallThrough           // raise_for_status does not raise, so the call returns None
    | Undecodable           // success status, but response.json() raises

  function Classify(resp: Response): (o: Outcome)
    ensures o.Parsed? <==> resp.status in SuccessCodes && resp.text != "" && resp.json.Some?
    ensures o.Parsed? ==> o.body == resp.json.value
    ensures o.Empty? <==> resp.status in SuccessCodes && resp.text == ""
    ensures o.Undecodable? <==> resp.status in SuccessCodes && resp.text != "" && resp.json.None?
    ensures o.HttpError? <==> 400 <= resp.status < 600
    ensures o.HttpError? ==> o.code == resp.status
    ensures o.FallThrough? <==> resp.status !in SuccessCodes && !(400 <= resp.status < 600)
  {
    if resp.status in SuccessCodes then
      if resp.text == "" then Empty
      else if resp.json.Some? then Parsed(resp.json.value)
      else Undecodable
    else if 400 <= resp.status < 600 then HttpError(resp.status)
    else FallThrough
  }

  /** The Python value `send_request` returns, or the exception it raises. */
  function ToPython(o: Outcome): (r: Result<Value>)
    ensures r.Err? <==> o.HttpError? || o.Undecodable?
  {
    match o
    case Parsed(body) => Ok(body)
    case Empty => Ok(Str(""))
    case FallThrough => Ok(Null)
    case HttpError(code) => Err(HttpFailure(code))
    case Undecodable => Err(DecodeFailure)
  }

  /**
   * What `send_request` makes of one response, read off its status, text and decoded body:
   * the body on a success status with text, "" on a success status without, a decode error
   * when the text is not JSON, an HTTP error carrying the status for 4xx/5xx, `None` otherwise.
   */
  lemma SendResult(resp: Response)
    ensures var r := ToPython(Classify(resp));
      && (resp.status in SuccessCodes && resp.text != "" && resp.json.Some? ==> r == Ok(resp.json.value))
      && (resp.status in SuccessCodes && resp.text == "" ==> r == Ok(Str("")))
      && (resp.status in SuccessCodes && resp.text != "" && resp.json.None? ==> r == Err(DecodeFailure))
      && (400 <= resp.status < 600 ==> r == Err(HttpFailure(resp.status)))
      && (resp.status !in SuccessCodes && !(400 <= resp.status < 600) ==> r == Ok(Null))
  {
  }

  /** Every request sent so far, and the replies the network has still to give. */
  datatype Network = Network(sent: seq<Request>, replies: seq<Response>)

  /**
   * One `send_request`: the request is handed to the transport with its URL resolved,
   * and the next reply (if there is one) is consumed and classified.
   */
  function Exchange(baseUrl: string, net: Network, m: Method, url: string, body: Option<Value>)
    : (res: (Result<Value>, Network))
    ensures res.1.sent == net.sent + [Request(m, ResolveUrl(baseUrl, url), body)]
    ensures net.replies == [] ==> res == (Err(ConnectionFailure), Network(res.1.sent, []))
    ensures net.replies != [] ==> res.1.replies == net.replies[1..]
    ensures net.replies != [] ==> res.0 == ToPython(Classify(net.replies[0]))
  {
    var request := Request(m, ResolveUrl(baseUrl, url), body);
    if net.replies == [] then
      (Err(ConnectionFailure), Network(net.sent + [request], []))
    else
      (ToPython(Classify(net.replies[0])), Network(net.sent + [request], net.replies[1..]))
  }

  /** A success (or fall-through) response, one `send_request` accepts without raising. */
  predicate Accepts(resp: Response)
  {
    ToPython(Classify(resp)).Ok?
  }

  /**
   * The client. The access token, headers and api-version parameter are not modelled;
   * `sent` records every request, `replies` is what the network will answer.
   */
  class Client {
    const baseUrl: string
    var sent: seq<Request>
    var replies: seq<Response>

    function State(): Network
      reads this
    {
      Network(sent, replies)
    }

    constructor (subscriptionId: string, resourceGroupName: string, serviceName: string, replies: seq<Response>)
      ensures baseUrl == BaseUrl(subscriptionId, resourceGroupName, serviceName)
      ensures State() == Network([], replies)
    {
      baseUrl := BaseUrl(subscriptionId, resourceGroupName, serviceName);
      sent := [];
      this.replies := replies;
    }

    method SendRequest(m: Method, url: string, body: Option<Value>) returns (r: Result<Value>)
      modifies this
      ensures (r, State()) == Exchange(baseUrl, old(State()), m, url, body)
    {
      var target := ResolveUrl(baseUrl, url);
      sent := sent + [Request(m, target, body)];
      if replies == [] {
        return Err(ConnectionFailure);
      }
      var response := replies[0];
      replies := replies[1..];
      r := ToPython(Classify(response));
    }
  }
}

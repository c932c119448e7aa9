/**
  The HTTP session wrapper of client.go: endpoint validation, request
  construction, per-verb accepted status codes and failure classification.
  The network is an oracle: a total function from the request that would be
  sent to what the service answers.
 */
module Transport {
  import opened Wrappers

  newtype byte = x: int | 0 <= x < 256

  type Bytes = seq<byte>

  /** The five HTTP methods the client issues. */
  datatype Verb = GET | POST | PUT | PATCH | DELETE

  /** What `http.NewRequest` plus the header updates in `do` produce. */
  datatype HttpRequest = HttpRequest(
    verb: Verb,
    url: string,
    header: map<string, string>,
    body: Option<Bytes>,
    close: bool)

  /** A response whose status line was received, with its body read in full. */
  datatype HttpResponse = HttpResponse(statusCode: int, body: Bytes)

  /** What `httpClient.Do` yields: a transport-level failure, or a response. */
  datatype HttpReply = TransportFailure(reason: string) | Answered(response: HttpResponse)

  /** The HTTP execution capability. */
  type Service = HttpRequest -> HttpReply

  /** The failures this core produces. */
  datatype Error =
    | InvalidEndpoint
    | TransportError(reason: string)
    | RequestFailed(status: int, body: Bytes)
    | MalformedEnvelope

  datatype Result<+T> = Ok(value: T) | Err(error: Error)

  /** `common.DefaultServiceRoot`: the path a request for the empty path is sent to. */
  const DefaultServiceRoot: string := "/redfish/v1/"

  const UserAgent: string := "gofish/1.0.0"

  const JsonMediaType: string := "application/json"

  const StatusOK := 200
  const StatusCreated := 201
  const StatusAccepted := 202
  const StatusNoContent := 204

  /** `strings.HasPrefix(endpoint, "http")`: no further check of the scheme. */
  predicate ValidEndpoint(endpoint: string) {
    "http" <= endpoint
  }

  lemma EndpointPrefixExamples()
    ensures !ValidEndpoint("ftp://x")
    ensures ValidEndpoint("httpfoo")
    ensures ValidEndpoint("https://bmc.example")
    ensures !ValidEndpoint("HTTP://bmc.example")
    ensures !ValidEndpoint("")
  {
    assert "ftp://x"[0] != "http"[0];
  }

  /** The status codes each verb method passes to `do`. */
  function AcceptedStatuses(verb: Verb): seq<int> {
    match verb
    case GET => [StatusOK]
    case POST => [StatusOK, StatusCreated, StatusAccepted, StatusNoContent]
    case PUT => [StatusOK, StatusCreated, StatusAccepted, StatusNoContent]
    case PATCH => [StatusOK, StatusCreated, StatusAccepted, StatusNoContent]
    case DELETE => [StatusOK, StatusAccepted, StatusNoContent]
  }

  /** The request `do` hands to the HTTP client, described header by header. */
  function RequestFor(endpoint: string, token: string, relativePath: string, verb: Verb, payload: Option<Bytes>): (req: HttpRequest)
    ensures req.verb == verb && req.body == payload && req.close
    ensures relativePath == "" ==> req.url == endpoint + DefaultServiceRoot
    ensures relativePath != "" ==> req.url == endpoint + relativePath
    ensures req.header.Keys ==
      {"User-Agent", "Accept"}
      + (if payload.Some? then {"Content-Type"} else {})
      + (if token != "" then {"X-Auth-Token"} else {})
    ensures "Content-Type" in req.header <==> payload.Some?
    ensures "Content-Type" in req.header ==> req.header["Content-Type"] == JsonMediaType
    ensures req.header["User-Agent"] == UserAgent && req.header["Accept"] == JsonMediaType
    ensures "X-Auth-Token" in req.header <==> token != ""
    ensures "X-Auth-Token" in req.header ==> req.header["X-Auth-Token"] == token
  {
    var path := if relativePath == "" then DefaultServiceRoot else relativePath;
    var typed: map<string, string> := if payload.Some? then map["Content-Type" := JsonMediaType] else map[];
    var standard := typed["User-Agent" := UserAgent]["Accept" := JsonMediaType];
    var header := if token != "" then standard["X-Auth-Token" := token] else standard;
    HttpRequest(verb, endpoint + path, header, payload, true)
  }

  /** How `do` turns what the HTTP client yields into its result. */
  function Classify(reply: HttpReply, statuses: seq<int>): (r: Result<HttpResponse>)
    ensures reply.TransportFailure? ==> r == Err(TransportError(reply.reason))
    ensures reply.Answered? ==> (r.Ok? <==> reply.response.statusCode in statuses)
    ensures r.Ok? ==> r.value == reply.response
    ensures reply.Answered? && r.Err? ==> r.error == RequestFailed(reply.response.statusCode, reply.response.body)
  {
    match reply
    case TransportFailure(reason) => Err(TransportError(reason))
    case Answered(response) =>
      if response.statusCode in statuses then Ok(response)
      else Err(RequestFailed(response.statusCode, response.body))
  }

  /** A client's configuration at one moment: what a request depends on. */
  datatype ClientView = ClientView(endpoint: string, token: string, http: Service)

  /** The outcome of one verb method of a client in the state `view`. */
  function Exchange(view: ClientView, verb: Verb, relativePath: string, payload: Option<Bytes>): Result<HttpResponse> {
    Classify(view.http(RequestFor(view.endpoint, view.token, relativePath, verb, payload)), AcceptedStatuses(verb))
  }

  /** `checkStatus`: a scan of `statuses` that stops at the first match. */
  method CheckStatus(status: int, statuses: seq<int>) returns (found: bool)
    ensures found <==> status in statuses
  {
    var i := 0;
    while i < |statuses|
      invariant 0 <= i <= |statuses|
      invariant forall j :: 0 <= j < i ==> statuses[j] != status
    {
      if status == statuses[i] {
        return true;
      }
      i := i + 1;
    }
    return false;
  }

  /** `ApiClient`: a connection to a Redfish or Swordfish service. */
  class ApiClient {
    var Endpoint: string
    var Token: string
    var httpClient: Service

    constructor (endpoint: string, http: Service)
      ensures Endpoint == endpoint && Token == "" && httpClient == http
    {
      Endpoint := endpoint;
      Token := "";
      httpClient := http;
    }

    function View(): ClientView
      reads this
    {
      ClientView(Endpoint, Token, httpClient)
    }

    /** `do`: build the request step by step, send it, classify the reply. */
    method Do(relativePath: string, verb: Verb, payload: Option<Bytes>, statuses: seq<int>) returns (r: Result<HttpResponse>)
      ensures r == Classify(httpClient(RequestFor(Endpoint, Token, relativePath, verb, payload)), statuses)
    {
      var path := relativePath;
      if path == "" {
        path := DefaultServiceRoot;
      }
      var url := Endpoint + path;
      var header: map<string, string> := map[];
      if payload.Some? {
        header := header["Content-Type" := JsonMediaType];
      }
      header := header["User-Agent" := UserAgent];
      header := header["Accept" := JsonMediaType];
      if Token != "" {
        header := header["X-Auth-Token" := Token];
      }
      var req := HttpRequest(verb, url, header, payload, true);
      var reply := httpClient(req);
      if reply.TransportFailure? {
        return Err(TransportError(reply.reason));
      }
      var accepted := CheckStatus(reply.response.statusCode, statuses);
      if !accepted {
        return Err(RequestFailed(reply.response.statusCode, reply.response.body));
      }
      r := Ok(reply.response);
    }

    method Get(relativePath: string) returns (r: Result<HttpResponse>)
      ensures r == Exchange(View(), GET, relativePath, None)
      ensures var reply := httpClient(RequestFor(Endpoint, Token, relativePath, GET, None));
        r.Ok? <==> reply.Answered? && reply.response.statusCode == 200
    {
      r := Do(relativePath, GET, None, [StatusOK]);
    }

    method Post(relativePath: string, payload: Option<Bytes>) returns (r: Result<HttpResponse>)
      ensures r == Exchange(View(), POST, relativePath, payload)
      ensures var reply := httpClient(RequestFor(Endpoint, Token, relativePath, POST, payload));
        r.Ok? <==> reply.Answered? && reply.response.statusCode in {200, 201, 202, 204}
    {
      r := Do(relativePath, POST, payload, [StatusOK, StatusCreated, StatusAccepted, StatusNoContent]);
    }

    method Put(relativePath: string, payload: Option<Bytes>) returns (r: Result<HttpResponse>)
      ensures r == Exchange(View(), PUT, relativePath, payload)
      ensures var reply := httpClient(RequestFor(Endpoint, Token, relativePath, PUT, payload));
        r.Ok? <==> reply.Answered? && reply.response.statusCode in {200, 201, 202, 204}
    {
      r := Do(relativePath, PUT, payload, [StatusOK, StatusCreated, StatusAccepted, StatusNoContent]);
    }

    method Patch(relativePath: string, payload: Option<Bytes>) returns (r: Result<HttpResponse>)
      ensures r == Exchange(View(), PATCH, relativePath, payload)
      ensures var reply := httpClient(RequestFor(Endpoint, Token, relativePath, PATCH, payload));
        r.Ok? <==> reply.Answered? && reply.response.statusCode in {200, 201, 202, 204}
    {
      r := Do(relativePath, PATCH, payload, [StatusOK, StatusCreated, StatusAccepted, StatusNoContent]);
    }

    method Delete(relativePath: string) returns (r: Result<HttpResponse>)
      ensures r == Exchange(View(), DELETE, relativePath, None)
      ensures var reply := httpClient(RequestFor(Endpoint, Token, relativePath, DELETE, None));
        r.Ok? <==> reply.Answered? && reply.response.statusCode in {200, 202, 204}
    {
      r := Do(relativePath, DELETE, None, [StatusOK, StatusAccepted, StatusNoContent]);
    }
  }

  /**
    `APIClient`: fails exactly when the endpoint does not start with "http".
    `defaultHttp` stands for the `&http.Client{}` built when none is supplied.
   */
  method APIClient(endpoint: string, httpClient: Option<Service>, defaultHttp: Service) returns (c: ApiClient?, err: Option<Error>)
    ensures c == null <==> !ValidEndpoint(endpoint)
    ensures c == null ==> err == Some(InvalidEndpoint)
    ensures c != null ==> err == None && fresh(c)
    ensures c != null ==> c.Endpoint == endpoint && c.Token == ""
    ensures c != null ==> c.httpClient == (if httpClient.Some? then httpClient.value else defaultHttp)
  {
    if !ValidEndpoint(endpoint) {
      return null, Some(InvalidEndpoint);
    }
    var http := if httpClient.Some? then httpClient.value else defaultHttp;
    c := new ApiClient(endpoint, http);
    err := None;
  }
}

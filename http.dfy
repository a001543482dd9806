/** What both API clients share: the request and response records, the API
 *  exceptions and the message they carry, the datacentre taken from the API
 *  key, and the rule by which a cURL result becomes a response or an
 *  exception.  The status classes are those of section 15 of RFC 9110; an
 *  error body of type `application/problem+json` is the problem document of
 *  section 3 of RFC 7807. */
module Http {
  import opened Base
  import opened Strings

  /** A request as a client records it before sending it.  `id` is absent for
   *  the test client, which does not number its requests. */
  datatype Request = Request(
    id: Option<nat>,
    verb: string,
    url: string,
    headers: string,
    userpwd: string,
    data: string,
    verifypeer: bool,
    verifyhost: int)

  /** A response: the status code and the decoded body, either possibly null. */
  datatype Response = Response(httpCode: Option<int>, data: Json)

  /** The response a client sets up before it sends anything. */
  const NullResponse := Response(None, JNull)

  /** The output of `curl_getinfo` that the code reads. */
  datatype CurlInfo = CurlInfo(httpCode: Option<int>, contentType: Option<string>)

  /** The output of `curl_exec` with its transfer information; `body` is
   *  absent when cURL returned false or null. */
  datatype CurlResult = CurlResult(info: CurlInfo, body: Option<string>)

  datatype ErrorKind = NetworkError | RequestError

  /** An API exception: what went wrong, snapshots of the client's request and
   *  response at the time, the message and the code. */
  datatype ApiException = ApiException(
    kind: ErrorKind,
    request: Request,
    response: Response,
    message: string,
    code: int)

  /** Everything the modelled code throws. */
  datatype Failure =
    | ApiError(e: ApiException)
    | InvalidArgument(message: string)
    | RuntimeError(message: string)

  const SaidPrefix := "Mailchimp API said: "
  const NoDataMessage := "No data received, possibly a network timeout"

  /** The message of an API exception: the problem title Mailchimp sent, or
   *  a timeout notice when the response carries no data. */
  function ExceptionMessage(response: Response): (m: string)
    ensures StartsWith(m, SaidPrefix) <==> Truthy(response.data)
    ensures Truthy(response.data) && Prop(response.data, "title").JStr? ==>
      m == SaidPrefix + Prop(response.data, "title").s
    ensures !Truthy(response.data) ==> m == NoDataMessage
  {
    if Truthy(response.data) then SaidPrefix + Text(Prop(response.data, "title"))
    else
      assert NoDataMessage[0] != SaidPrefix[0];
      NoDataMessage
  }

  /** Throwing an API exception from a client whose current request and
   *  response are given.  The exception keeps copies of both; cloning a
   *  request or response that was never set up is an error in PHP. */
  function Raise(kind: ErrorKind, request: Option<Request>, response: Option<Response>): (f: Failure)
    ensures f.ApiError? <==> request.Some? && response.Some?
    ensures f.ApiError? ==> f.e.kind == kind && f.e.request == request.value && f.e.response == response.value
    ensures f.ApiError? ==> f.e.message == ExceptionMessage(response.value)
    ensures f.ApiError? ==> f.e.code == response.value.httpCode.GetOr(0)
  {
    if request.None? || response.None? then RuntimeError("__clone method called on non-object")
    else
      var resp := response.value;
      ApiError(ApiException(kind, request.value, resp, ExceptionMessage(resp), resp.httpCode.GetOr(0)))
  }

  predicate IsWordChar(c: char) {
    'a' <= c <= 'z' || 'A' <= c <= 'Z' || '0' <= c <= '9' || c == '_'
  }

  predicate MediaTypeIs(t: string, name: string) {
    StartsWith(Lower(t), name) && (|t| == |name| || !IsWordChar(t[|name|]))
  }

  /** `preg_match('@^application/(problem\+)?json\b@i', $t)`. */
  predicate IsJsonContentType(t: string) {
    MediaTypeIs(t, "application/json") || MediaTypeIs(t, "application/problem+json")
  }

  /** The first character of the decimal rendering of a status code: the
   *  code switches on it. */
  function StatusClass(code: int): char {
    IntToString(code)[0]
  }

  datatype Verdict = Accepted | Rejected(kind: ErrorKind)

  /** How a cURL result updates a response that is already set up, and
   *  whether the request succeeded or which exception it raises. */
  function Classify(c: CurlResult, current: Response, codec: Codec): (r: (Response, Verdict))
    ensures c.info.httpCode.None? || c.info.httpCode == Some(0) ==> r == (current, Rejected(NetworkError))
    ensures c.info.httpCode.Some? && c.info.httpCode != Some(0) ==> r.0.httpCode == c.info.httpCode
    ensures r.0.data != current.data ==> c.info.contentType.Some? && IsJsonContentType(c.info.contentType.value)
    ensures r.1.Accepted? ==> StatusClass(c.info.httpCode.value) != '4' && StatusClass(c.info.httpCode.value) != '5'
  {
    match c.info.httpCode
    case None => (current, Rejected(NetworkError))
    case Some(code) =>
      if code == 0 then (current, Rejected(NetworkError))
      else if c.info.contentType.None? || !IsJsonContentType(c.info.contentType.value) then
        (Response(Some(code), current.data), Rejected(NetworkError))
      else
        var data := if !EmptyText(c.body) then codec.jsonDecode(c.body.value) else JNull;
        var resp := Response(Some(code), data);
        if StatusClass(code) == '4' then (resp, Rejected(RequestError))
        else if StatusClass(code) == '5' then (resp, Rejected(NetworkError))
        else (resp, Accepted)
  }

  /** `curlResultToResponse($info, $result)` of either client: the new
   *  response (left unset when the transfer had no status and no response was
   *  set up) and the value returned or the exception thrown. */
  function CurlStep(request: Option<Request>, response: Option<Response>, c: CurlResult, codec: Codec)
    : (r: (Option<Response>, Result<Response, Failure>))
    ensures c.info.httpCode.None? || c.info.httpCode == Some(0) ==>
      r == (response, Failure(Raise(NetworkError, request, response)))
    ensures r.1.Success? ==> r.0 == Some(r.1.value) && r.1.value.httpCode == c.info.httpCode
    ensures r.1.Failure? && r.1.error.ApiError? ==> Some(r.1.error.e.response) == r.0
  {
    if c.info.httpCode.None? || c.info.httpCode == Some(0) then
      (response, Failure(Raise(NetworkError, request, response)))
    else
      var (resp, verdict) := Classify(c, response.GetOr(NullResponse), codec);
      (Some(resp), if verdict.Accepted? then Success(resp) else Failure(Raise(verdict.kind, request, Some(resp))))
  }

  /** For a three-digit status code the first character is its hundreds
   *  digit. */
  lemma {:induction false} StatusClassOfThreeDigits(code: int)
    requires 100 <= code <= 999
    ensures StatusClass(code) == Digit(code / 100)
  {
    var n: nat := code;
    assert NatToString(n) == NatToString(n / 10) + [Digit(n % 10)];
    assert NatToString(n / 10) == NatToString(n / 100) + [Digit((n / 10) % 10)];
    assert n / 10 / 10 == n / 100;
    assert NatToString(n / 100) == [Digit(n / 100)];
  }

  /** A JSON response with a status code from RFC 9110 is accepted exactly
   *  for the informational, successful and redirection classes; a client
   *  error (4xx) raises a request error and a server error (5xx) a network
   *  error, and either way the response carries the code and the decoded
   *  body. */
  lemma StatusClassesDecideOutcome(c: CurlResult, current: Response, codec: Codec)
    requires c.info.httpCode.Some? && 100 <= c.info.httpCode.value <= 599
    requires c.info.contentType.Some? && IsJsonContentType(c.info.contentType.value)
    ensures Classify(c, current, codec).1 == Accepted <==> c.info.httpCode.value < 400
    ensures Classify(c, current, codec).1 == Rejected(RequestError) <==> 400 <= c.info.httpCode.value < 500
    ensures Classify(c, current, codec).1 == Rejected(NetworkError) <==> 500 <= c.info.httpCode.value
    ensures Classify(c, current, codec).0 ==
      Response(c.info.httpCode, if EmptyText(c.body) then JNull else codec.jsonDecode(c.body.value))
  {
    StatusClassOfThreeDigits(c.info.httpCode.value);
  }

  /** A response that is not JSON is a network error whatever its status,
   *  and the body is not decoded. */
  lemma NonJsonIsNetworkError(c: CurlResult, current: Response, codec: Codec)
    requires c.info.httpCode.Some? && c.info.httpCode != Some(0)
    requires c.info.contentType.None? || !IsJsonContentType(c.info.contentType.value)
    ensures Classify(c, current, codec) == (Response(c.info.httpCode, current.data), Rejected(NetworkError))
  {
  }

  /** The content types the check accepts: both spellings of the JSON type,
   *  in any case, with parameters after them; a longer subtype is not JSON. */
  lemma JsonContentTypes()
    ensures IsJsonContentType("application/json")
    ensures IsJsonContentType("Application/JSON; charset=utf-8")
    ensures IsJsonContentType("application/problem+json")
    ensures !IsJsonContentType("application/jsonp")
    ensures !IsJsonContentType("text/html")
  {
    assert Lower("Application/JSON; charset=utf-8")[..16] == "application/json";
    assert Lower("application/jsonp")[..16] == "application/json";
    assert Lower("text/html") != "application/json";
  }

  /** The position of the last '-' in `key`, if any. */
  function LastDash(key: string): (r: Option<nat>)
    ensures r.Some? ==> r.value < |key| && key[r.value] == '-' && '-' !in key[r.value + 1..]
    ensures r.None? ==> '-' !in key
    decreases |key|
  {
    if key == [] then None
    else if key[|key| - 1] == '-' then Some(|key| - 1)
    else
      var r := LastDash(key[..|key| - 1]);
      assert key == key[..|key| - 1] + [key[|key| - 1]];
      r
  }

  /** The datacentre at the end of an API key: what
   *  `preg_match('/^.*-([^-]+)$/', $key, $m)` captures, when it is not empty
   *  in PHP's sense.  `.` does not match a line break, so the part before the
   *  last '-' may not contain one. */
  function Datacentre(key: string): (r: Option<string>)
    ensures r.Some? ==> r.value != "" && r.value != "0" && '-' !in r.value
    ensures r.Some? ==> exists i :: 0 <= i < |key| && key[..i] + "-" + r.value == key
  {
    match LastDash(key)
    case None => None
    case Some(i) =>
      if '\n' in key[..i] || i + 1 == |key| || key[i + 1..] == "0" then None
      else
        assert key[..i] + "-" + key[i + 1..] == key;
        Some(key[i + 1..])
  }

  /** A key written as a prefix without a line break, a '-' and a
   *  datacentre without a '-' gives that datacentre back. */
  lemma DatacentreOfKey(prefix: string, dc: string)
    requires '\n' !in prefix && '-' !in dc && dc != "" && dc != "0"
    ensures Datacentre(prefix + "-" + dc) == Some(dc)
  {
    var key := prefix + "-" + dc;
    var i := LastDash(key).value;
    assert key[|prefix|] == '-';
    assert key[..i] == prefix && key[i + 1..] == dc;
  }

  /** The base URL both clients build from an API key, or the exception
   *  their constructors throw. */
  function ServerFromKey(key: string): (r: Result<string, Failure>)
    ensures r.Success? <==> !EmptyText(Some(key)) && Datacentre(key).Some?
    ensures r.Success? ==> r.value == "https://" + Datacentre(key).value + ".api.mailchimp.com/3.0"
    ensures r.Failure? ==> r.error.InvalidArgument?
  {
    if EmptyText(Some(key)) then Failure(InvalidArgument("API Key required."))
    else match Datacentre(key)
      case None => Failure(InvalidArgument("Invalid API key - could not extract datacentre from given API key."))
      case Some(dc) => Success("https://" + dc + ".api.mailchimp.com/3.0")
  }

  const JsonHeaders := "Content-Type: Application/json;charset=UTF-8"

  /** Whether a path is accepted by the clients: it must begin with '/'. */
  predicate RootedPath(url: string) {
    |url| > 0 && url[0] == '/'
  }

  /** The request record with no payload yet. */
  function BareRequest(id: Option<nat>, verb: string, url: string, key: string): Request {
    Request(id, verb, url, JsonHeaders, "dummy:" + key, "", false, 2)
  }

  /** A payload sent as a JSON body, with its length declared in a header. */
  function WithBody(q: Request, body: string): (r: Request)
    ensures r.data == body && StartsWith(r.headers, q.headers)
    ensures r.headers[|q.headers|..] == "\r\nContent-Length: " + NatToString(|body|)
    ensures r.(data := q.data, headers := q.headers) == q
  {
    q.(data := body, headers := q.headers + "\r\nContent-Length: " + NatToString(|body|))
  }
}

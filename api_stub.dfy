/** The test client (CRM/Mailchimp/ApiBase.php with
 *  CRM/Mailchimp/Api3Stub.php): it builds requests as the real client does,
 *  but instead of sending them it answers each one with the next cURL result
 *  from a first-in first-out queue of mock responses.
 *
 *  `StubState` is the client's observable state and `StubRequestStep`
 *  specifies one request on it; the lemmas state the promises of the queue. */
module MailchimpApiStub {
  import opened Base
  import opened Strings
  import opened Http

  const NoMocksMessage := "No response mocks provided or left."
  const BadUrlMessage := "Invalid URL - must begin with root /"

  /** The request record of the test client: unnumbered, the URL under the
   *  server, and any payload, whatever the method, as a JSON body with a
   *  Content-Length header. */
  function StubRequest(server: string, key: string, verb: string, url: string,
                       data: Option<Json>, codec: Codec): (q: Request)
    ensures q.id.None? && q.verb == verb && q.url == server + url && q.userpwd == "dummy:" + key
    ensures !q.verifypeer && q.verifyhost == 2
    ensures data.None? ==> q.data == "" && q.headers == JsonHeaders
    ensures data.Some? ==> q.data == codec.jsonEncode(data.value)
    ensures data.Some? ==> q.headers == JsonHeaders + "\r\nContent-Length: " + NatToString(|q.data|)
  {
    var bare := BareRequest(None, verb, server + url, key);
    if data.None? then bare else WithBody(bare, codec.jsonEncode(data.value))
  }

  /** What the test client's requests read and change. */
  datatype StubState = StubState(
    request: Option<Request>,
    response: Option<Response>,
    mocks: seq<CurlResult>)

  /** `request($verb, $url, $data)` on the test client: refuse a path that
   *  does not begin with '/', set up the request and a null response, then
   *  take the first mock off the queue and treat it as the cURL result. */
  function StubRequestStep(s: StubState, server: string, key: string, codec: Codec,
                           verb: string, url: string, data: Option<Json>)
    : (r: (StubState, Result<Response, Failure>))
  {
    if !RootedPath(url) then (s, Failure(InvalidArgument(BadUrlMessage)))
    else
      var q := StubRequest(server, key, verb, url, data, codec);
      var prepared := s.(request := Some(q), response := Some(NullResponse));
      if s.mocks == [] then (prepared, Failure(RuntimeError(NoMocksMessage)))
      else
        var (resp, outcome) := CurlStep(Some(q), Some(NullResponse), s.mocks[0], codec);
        (prepared.(response := resp, mocks := s.mocks[1..]), outcome)
  }

  /** The queue is first in, first out: a request with mocks left uses up
   *  exactly the first one, and its outcome is what that cURL result gives
   *  for the request. */
  lemma MocksAreConsumedInOrder(s: StubState, server: string, key: string, codec: Codec,
                                verb: string, url: string, data: Option<Json>)
    requires RootedPath(url) && s.mocks != []
    ensures var (s', r) := StubRequestStep(s, server, key, codec, verb, url, data);
      s'.mocks == s.mocks[1..] &&
      s'.request == Some(StubRequest(server, key, verb, url, data, codec)) &&
      (s'.response, r) == CurlStep(s'.request, Some(NullResponse), s.mocks[0], codec)
  {
  }

  /** Two requests in a row answer with the first two mocks, in the order
   *  they were queued. */
  lemma TwoRequestsUseTwoMocks(s: StubState, server: string, key: string, codec: Codec,
                               verb1: string, url1: string, data1: Option<Json>,
                               verb2: string, url2: string, data2: Option<Json>)
    requires RootedPath(url1) && RootedPath(url2) && |s.mocks| >= 2
    ensures var (s1, r1) := StubRequestStep(s, server, key, codec, verb1, url1, data1);
      var (s2, r2) := StubRequestStep(s1, server, key, codec, verb2, url2, data2);
      s2.mocks == s.mocks[2..] &&
      r1 == CurlStep(s1.request, Some(NullResponse), s.mocks[0], codec).1 &&
      r2 == CurlStep(s2.request, Some(NullResponse), s.mocks[1], codec).1
  {
    var s1 := StubRequestStep(s, server, key, codec, verb1, url1, data1).0;
    assert s1.mocks == s.mocks[1..];
    assert s1.mocks[0] == s.mocks[1];
    assert s1.mocks[1..] == s.mocks[2..];
  }

  /** With no mocks left a request fails with a runtime error, after setting
   *  up the request and the null response; the queue stays empty. */
  lemma EmptyQueueFails(s: StubState, server: string, key: string, codec: Codec,
                        verb: string, url: string, data: Option<Json>)
    requires RootedPath(url) && s.mocks == []
    ensures var (s', r) := StubRequestStep(s, server, key, codec, verb, url, data);
      r == Failure(RuntimeError(NoMocksMessage)) && s'.mocks == [] &&
      s'.response == Some(NullResponse) && s'.request.Some?
  {
  }

  /** A refused path changes nothing, not even the queue. */
  lemma BadPathKeepsQueue(s: StubState, server: string, key: string, codec: Codec,
                          verb: string, url: string, data: Option<Json>)
    requires !RootedPath(url)
    ensures StubRequestStep(s, server, key, codec, verb, url, data) == (s, Failure(InvalidArgument(BadUrlMessage)))
  {
  }

  /** The default mock: status 200 with a JSON content type and the body
   *  "{}". */
  const DefaultInfo := CurlInfo(Some(200), Some("application/json"))
  const DefaultBody := "{}"

  /** The mock `addMockResponse($response)` queues: the given curl_info and
   *  result where present (a present result may be null), the defaults
   *  otherwise. */
  function MockResponse(curlInfo: Option<CurlInfo>, result: Option<Option<string>>): (c: CurlResult)
    ensures curlInfo.None? ==> c.info == DefaultInfo
    ensures curlInfo.Some? ==> c.info == curlInfo.value
    ensures result.None? ==> c.body == Some(DefaultBody)
    ensures result.Some? ==> c.body == result.value
  {
    CurlResult(curlInfo.GetOr(DefaultInfo), result.GetOr(Some(DefaultBody)))
  }

  /** The problem document `addMockResponseError($code, $title)` queues. */
  function ErrorBody(code: int, title: string): (b: string)
    ensures StartsWith(b, "{\"status\":" + IntToString(code) + ",\"title\":\"" + title + "\"")
  {
    var head := "{\"status\":" + IntToString(code) + ",\"title\":\"" + title + "\"";
    var b := head + ",\"detail\":\"\",\"instance\":\"\",\"type\":\"\"}";
    assert b[..|head|] == head;
    b
  }

  function MockError(code: int, title: string): (c: CurlResult)
    ensures c.info == CurlInfo(Some(code), Some("application/json"))
    ensures c.body == Some(ErrorBody(code, title))
  {
    CurlResult(CurlInfo(Some(code), Some("application/json")), Some(ErrorBody(code, title)))
  }

  /** A queued error mock with a client error status makes the next request
   *  raise a request error, and one with a server error status a network
   *  error; the exception carries the status as its code and, when the body
   *  decodes to the problem document, the title Mailchimp would have sent. */
  lemma MockErrorRaises(s: StubState, server: string, key: string, codec: Codec,
                        verb: string, url: string, data: Option<Json>, code: int, title: string)
    requires RootedPath(url) && s.mocks != [] && s.mocks[0] == MockError(code, title)
    requires 400 <= code <= 599
    ensures var (s', r) := StubRequestStep(s, server, key, codec, verb, url, data);
      r.Failure? && r.error.ApiError? &&
      r.error.e.kind == (if code < 500 then RequestError else NetworkError) &&
      r.error.e.code == code &&
      r.error.e.response == Response(Some(code), codec.jsonDecode(ErrorBody(code, title))) &&
      s'.response == Some(r.error.e.response) &&
      (Truthy(codec.jsonDecode(ErrorBody(code, title))) &&
       Prop(codec.jsonDecode(ErrorBody(code, title)), "title") == JStr(title) ==>
         r.error.e.message == SaidPrefix + title)
  {
    var c := s.mocks[0];
    assert IsJsonContentType("application/json") by { JsonContentTypes(); }
    StatusClassesDecideOutcome(c, NullResponse, codec);
    assert !EmptyText(c.body) by {
      assert c.body.value[0] == '{';
    }
  }

  /** The default mock answers with status 200 and the decoded "{}". */
  lemma DefaultMockSucceeds(s: StubState, server: string, key: string, codec: Codec,
                            verb: string, url: string, data: Option<Json>)
    requires RootedPath(url) && s.mocks != [] && s.mocks[0] == MockResponse(None, None)
    ensures StubRequestStep(s, server, key, codec, verb, url, data).1 ==
      Success(Response(Some(200), codec.jsonDecode(DefaultBody)))
  {
    var c := s.mocks[0];
    assert IsJsonContentType("application/json") by { JsonContentTypes(); }
    StatusClassesDecideOutcome(c, NullResponse, codec);
  }

  class Api3Stub {
    const apiKey: string
    const server: string
    const codec: Codec
    var request: Option<Request>
    var response: Option<Response>
    var mockResponses: seq<CurlResult>

    function State(): StubState
      reads this
    {
      StubState(request, response, mockResponses)
    }

    constructor Init(key: string, url: string, codec: Codec)
      requires ServerFromKey(key) == Success(url)
      ensures apiKey == key && server == url && this.codec == codec
      ensures request.None? && response.None? && mockResponses == []
    {
      apiKey := key;
      server := url;
      this.codec := codec;
      request := None;
      response := None;
      mockResponses := [];
    }

    /** `new CRM_Mailchimp_Api3Stub(['api_key' => $key])`. */
    static method Create(key: string, codec: Codec) returns (r: Result<Api3Stub, Failure>)
      ensures r.Failure? <==> ServerFromKey(key).Failure?
      ensures r.Failure? ==> r.error == ServerFromKey(key).error
      ensures r.Success? ==> fresh(r.value) && r.value.apiKey == key && r.value.server == ServerFromKey(key).value
      ensures r.Success? ==> r.value.codec == codec && r.value.State() == StubState(None, None, [])
    {
      var server := ServerFromKey(key);
      if server.Failure? {
        return Failure(server.error);
      }
      var client := new Api3Stub.Init(key, server.value, codec);
      r := Success(client);
    }

    /** `sendRequest()`: the first mock is taken off the queue and becomes
     *  the cURL result. */
    method SendRequest() returns (r: Result<Response, Failure>)
      modifies this`response, this`mockResponses
      ensures old(mockResponses) == [] ==>
        r == Failure(RuntimeError(NoMocksMessage)) && mockResponses == [] && response == old(response)
      ensures old(mockResponses) != [] ==>
        mockResponses == old(mockResponses)[1..] &&
        (response, r) == CurlStep(request, old(response), old(mockResponses)[0], codec)
    {
      if mockResponses == [] {
        return Failure(RuntimeError(NoMocksMessage));
      }
      var c := mockResponses[0];
      mockResponses := mockResponses[1..];
      var step := CurlStep(request, response, c, codec);
      response := step.0;
      r := step.1;
    }

    method Request(verb: string, url: string, data: Option<Json>) returns (r: Result<Response, Failure>)
      modifies this
      ensures (State(), r) == StubRequestStep(old(State()), server, apiKey, codec, verb, url, data)
    {
      if !RootedPath(url) {
        return Failure(InvalidArgument(BadUrlMessage));
      }
      request := Some(StubRequest(server, apiKey, verb, url, data, codec));
      response := Some(NullResponse);
      r := SendRequest();
    }

    method Get(url: string) returns (r: Result<Response, Failure>)
      modifies this
      ensures (State(), r) == StubRequestStep(old(State()), server, apiKey, codec, "GET", url, None)
    {
      r := Request("GET", url, None);
    }

    method Post(url: string, data: Json) returns (r: Result<Response, Failure>)
      modifies this
      ensures (State(), r) == StubRequestStep(old(State()), server, apiKey, codec, "POST", url, Some(data))
    {
      r := Request("POST", url, Some(data));
    }

    /** PUT is sent without its data. */
    method Put(url: string, data: Json) returns (r: Result<Response, Failure>)
      modifies this
      ensures (State(), r) == StubRequestStep(old(State()), server, apiKey, codec, "PUT", url, None)
    {
      r := Request("PUT", url, None);
    }

    /** PATCH is sent without its data. */
    method Patch(url: string, data: Json) returns (r: Result<Response, Failure>)
      modifies this
      ensures (State(), r) == StubRequestStep(old(State()), server, apiKey, codec, "PATCH", url, None)
    {
      r := Request("PATCH", url, None);
    }

    method Delete(url: string) returns (r: Result<Response, Failure>)
      modifies this
      ensures (State(), r) == StubRequestStep(old(State()), server, apiKey, codec, "DELETE", url, None)
    {
      r := Request("DELETE", url, None);
    }

    /** `addMockResponse($response)`: queue one mock at the back. */
    method AddMockResponse(curlInfo: Option<CurlInfo>, result: Option<Option<string>>)
      modifies this`mockResponses
      ensures mockResponses == old(mockResponses) + [MockResponse(curlInfo, result)]
    {
      mockResponses := mockResponses + [MockResponse(curlInfo, result)];
    }

    /** `addMockResponseError($code, $title)`: queue a JSON problem document
     *  with the given status at the back. */
    method AddMockResponseError(code: int, title: string)
      modifies this`mockResponses
      ensures mockResponses == old(mockResponses) + [MockError(code, title)]
    {
      mockResponses := mockResponses + [MockError(code, title)];
    }
  }
}

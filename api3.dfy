/** The Mailchimp API v3 client (CRM/Mailchimp/Api3.php): it builds each
 *  request, sends it through cURL when networking is on, and turns the result
 *  into a response or an exception; batches are submitted to /batches and
 *  polled until Mailchimp reports them finished.
 *
 *  The client's observable state (the shared request counter, the network
 *  switch, the last request and response, and what the network has seen) is
 *  captured by `ClientState`; every operation is specified by a function on
 *  that state, and the lemmas about those functions state the client's
 *  promises. */
module MailchimpApi3 {
  import opened Base
  import opened Strings
  import opened Http

  /** The counter that numbers requests.  In PHP it is a static property, so
   *  every client in the process shares one. */
  class RequestCounter {
    var next: nat

    constructor()
      ensures next == 0
    {
      next := 0;
    }
  }

  /** What a transfer yields when nothing answers: no status code at all. */
  const NoAnswer := CurlResult(CurlInfo(Some(0), None), None)

  /** The next answer of the network and what is left of its script. */
  function NextAnswer(script: seq<CurlResult>): (r: (CurlResult, seq<CurlResult>))
    ensures script != [] ==> r == (script[0], script[1..])
    ensures script == [] ==> r == (NoAnswer, [])
  {
    if script == [] then (NoAnswer, []) else (script[0], script[1..])
  }

  /** The network as the client reaches it through cURL.  It records every
   *  request it is given and answers from a script of cURL results; once the
   *  script is used up, transfers get no status code. */
  class Network {
    var sent: seq<Request>
    var script: seq<CurlResult>

    constructor(answers: seq<CurlResult>)
      ensures sent == [] && script == answers
    {
      sent := [];
      script := answers;
    }

    method Transfer(q: Request) returns (c: CurlResult)
      modifies this
      ensures sent == old(sent) + [q]
      ensures (c, script) == NextAnswer(old(script))
    {
      sent := sent + [q];
      c, script := NextAnswer(script).0, NextAnswer(script).1;
    }
  }

  /** The request record `request()` sets up: the URL under the server, basic
   *  authentication with the key, peer verification off, host verification
   *  on; a payload goes into the query string of a GET and into a JSON body
   *  with a Content-Length header otherwise. */
  function BuildRequest(id: nat, server: string, key: string, verb: string, url: string,
                        data: Option<Json>, codec: Codec): (q: Request)
    ensures q.id == Some(id) && q.verb == verb && q.userpwd == "dummy:" + key
    ensures !q.verifypeer && q.verifyhost == 2
    ensures StartsWith(q.url, server + url)
    ensures data.None? ==> q.url == server + url && q.data == "" && q.headers == JsonHeaders
    ensures data.Some? && verb == "GET" ==>
      q.data == "" && q.headers == JsonHeaders &&
      q.url == server + url + (if '?' in server + url then "&" else "?") + codec.httpBuildQuery(data.value)
    ensures data.Some? && verb != "GET" ==>
      q.url == server + url && q.data == codec.jsonEncode(data.value) &&
      q.headers == JsonHeaders + "\r\nContent-Length: " + NatToString(|q.data|)
  {
    var bare := BareRequest(Some(id), verb, server + url, key);
    match data
    case None => bare
    case Some(d) =>
      if verb == "GET" then
        var q := bare.(url := bare.url + (if '?' in bare.url then "&" else "?") + codec.httpBuildQuery(d));
        assert q.url[..|bare.url|] == bare.url;
        q
      else WithBody(bare, codec.jsonEncode(d))
  }

  /** The state of a client that its operations read and change. */
  datatype ClientState = ClientState(
    nextId: nat,
    networkEnabled: bool,
    request: Option<Request>,
    response: Option<Response>,
    sent: seq<Request>,
    script: seq<CurlResult>)

  /** `request($verb, $url, $data)` on a client with the given server, key
   *  and library functions. */
  function RequestStep(s: ClientState, server: string, key: string, codec: Codec,
                       verb: string, url: string, data: Option<Json>)
    : (r: (ClientState, Result<Response, Failure>))
  {
    if !RootedPath(url) then (s, Failure(InvalidArgument("Invalid URL - must begin with root /")))
    else
      var q := BuildRequest(s.nextId, server, key, verb, url, data, codec);
      var prepared := s.(nextId := s.nextId + 1, request := Some(q), response := Some(NullResponse));
      if !s.networkEnabled then (prepared, Success(NullResponse))
      else
        var (c, rest) := NextAnswer(s.script);
        var (resp, outcome) := CurlStep(Some(q), Some(NullResponse), c, codec);
        (prepared.(sent := s.sent + [q], script := rest, response := resp), outcome)
  }

  /** A path that does not begin with '/' is refused before anything
   *  changes; any other request takes the next number and becomes the
   *  client's current request. */
  lemma RequestNumbering(s: ClientState, server: string, key: string, codec: Codec,
                         verb: string, url: string, data: Option<Json>)
    ensures !RootedPath(url) ==>
      RequestStep(s, server, key, codec, verb, url, data) == (s, Failure(InvalidArgument("Invalid URL - must begin with root /")))
    ensures RootedPath(url) ==>
      var s' := RequestStep(s, server, key, codec, verb, url, data).0;
      s'.nextId == s.nextId + 1 && s'.request.Some? && s'.request.value.id == Some(s.nextId) &&
      s'.request.value == BuildRequest(s.nextId, server, key, verb, url, data, codec) &&
      s'.networkEnabled == s.networkEnabled
  {
  }

  /** With networking off nothing is sent: the request is set up and the
   *  null response is returned. */
  lemma DisabledNetworkSendsNothing(s: ClientState, server: string, key: string, codec: Codec,
                                    verb: string, url: string, data: Option<Json>)
    requires RootedPath(url) && !s.networkEnabled
    ensures var (s', r) := RequestStep(s, server, key, codec, verb, url, data);
      s'.sent == s.sent && s'.script == s.script && r == Success(NullResponse) && s'.response == Some(NullResponse)
  {
  }

  /** With networking on the request is sent exactly once, it uses up at
   *  most one answer, and an API exception it raises carries that very
   *  request and the response the client is left with. */
  lemma EnabledNetworkSendsOnce(s: ClientState, server: string, key: string, codec: Codec,
                                verb: string, url: string, data: Option<Json>)
    requires RootedPath(url) && s.networkEnabled
    ensures var (s', r) := RequestStep(s, server, key, codec, verb, url, data);
      s'.request.Some? && s'.sent == s.sent + [s'.request.value] &&
      s'.script == (if s.script == [] then [] else s.script[1..]) &&
      (r.Success? ==> s'.response == Some(r.value)) &&
      (r.Failure? ==> r.error.ApiError? && r.error.e.request == s'.request.value && Some(r.error.e.response) == s'.response)
  {
  }

  /** Once the network has no answers left every request fails with a
   *  network error that reports no data and code 0, and the state keeps
   *  failing the same way. */
  lemma ExhaustedNetworkFails(s: ClientState, server: string, key: string, codec: Codec,
                              verb: string, url: string, data: Option<Json>)
    requires RootedPath(url) && s.networkEnabled && s.script == []
    ensures var (s', r) := RequestStep(s, server, key, codec, verb, url, data);
      r.Failure? && r.error.ApiError? && r.error.e.kind == NetworkError &&
      r.error.e.message == NoDataMessage && r.error.e.code == 0 && s'.script == [] && s'.networkEnabled
  {
  }

  /** One entry of a batch as the caller gives it: `[method, path, data]`,
   *  with null for missing data. */
  datatype RawOp = RawOp(verb: string, path: string, payload: Json)

  /** One operation of a /batches request. */
  datatype BatchOp = BatchOp(verb: string, path: string, params: Option<Json>, body: Option<string>)

  /** How one batch entry is written: the method upper-cased, non-empty data
   *  as query parameters of a GET and as a JSON body otherwise. */
  function OpFor(op: RawOp, codec: Codec): (b: BatchOp)
    ensures b.verb == Upper(op.verb) && b.path == op.path
    ensures b.params.Some? <==> Truthy(op.payload) && b.verb == "GET"
    ensures b.body.Some? <==> Truthy(op.payload) && b.verb != "GET"
    ensures b.params.Some? ==> b.params.value == op.payload
    ensures b.body.Some? ==> b.body.value == codec.jsonEncode(op.payload)
  {
    var verb := Upper(op.verb);
    if !Truthy(op.payload) then BatchOp(verb, op.path, None, None)
    else if verb == "GET" then BatchOp(verb, op.path, Some(op.payload), None)
    else BatchOp(verb, op.path, None, Some(codec.jsonEncode(op.payload)))
  }

  function OpJson(b: BatchOp): Json {
    JMap([("method", JStr(b.verb)), ("path", JStr(b.path))]
      + (if b.params.Some? then [("params", b.params.value)] else [])
      + (if b.body.Some? then [("body", JStr(b.body.value))] else []))
  }

  function OpsJson(ops: seq<BatchOp>): Json {
    JMap([("operations", JList(seq(|ops|, i requires 0 <= i < |ops| => OpJson(ops[i]))))])
  }

  function BadPathMessage(path: string): string {
    "path " + path + " should begin with /"
  }

  /** The loop of `makeBatchRequest`: one operation per entry, in order, or
   *  the exception for the first entry whose path does not begin with '/'. */
  method MakeBatchOps(batch: seq<RawOp>, codec: Codec) returns (r: Result<seq<BatchOp>, Failure>)
    ensures r.Success? <==> forall i :: 0 <= i < |batch| ==> RootedPath(batch[i].path)
    ensures r.Success? ==> |r.value| == |batch| && forall i :: 0 <= i < |batch| ==> r.value[i] == OpFor(batch[i], codec)
    ensures r.Failure? ==>
      (exists i :: 0 <= i < |batch| && !RootedPath(batch[i].path) &&
        (forall j :: 0 <= j < i ==> RootedPath(batch[j].path)) &&
        r.error == RuntimeError(BadPathMessage(batch[i].path)))
  {
    var ops: seq<BatchOp> := [];
    var i := 0;
    while i < |batch|
      invariant 0 <= i <= |batch| && |ops| == i
      invariant forall j :: 0 <= j < i ==> RootedPath(batch[j].path)
      invariant forall j :: 0 <= j < i ==> ops[j] == OpFor(batch[j], codec)
    {
      var op := OpFor(batch[i], codec);
      if !RootedPath(op.path) {
        return Failure(RuntimeError(BadPathMessage(op.path)));
      }
      ops := ops + [op];
      i := i + 1;
    }
    return Success(ops);
  }

  /** How `batchAndWait` ends: with the poll that reported the batch
   *  finished, with an exception, or not at all: with networking off every
   *  poll returns the null response, so the loop never ends. */
  /** The path `batchAndWait` polls: the batch's id, as the POST to
   *  /batches answered it, under /batches/. */
  function PollPath(posted: Response): (path: string)
    ensures RootedPath(path) && StartsWith(path, "/batches/")
  {
    "/batches/" + Text(Prop(posted.data, "id"))
  }

  datatype BatchOutcome = Finished(response: Response) | Failed(error: Failure) | NeverFinishes

  class Api3 {
    const apiKey: string
    const server: string
    const codec: Codec
    const ids: RequestCounter
    const network: Network
    var networkEnabled: bool
    var request: Option<Request>
    var response: Option<Response>

    function State(): ClientState
      reads this, ids, network
    {
      ClientState(ids.next, networkEnabled, request, response, network.sent, network.script)
    }

    constructor Init(key: string, url: string, codec: Codec, ids: RequestCounter, network: Network)
      requires ServerFromKey(key) == Success(url)
      ensures apiKey == key && server == url && this.codec == codec && this.ids == ids && this.network == network
      ensures networkEnabled && request.None? && response.None?
    {
      apiKey := key;
      server := url;
      this.codec := codec;
      this.ids := ids;
      this.network := network;
      networkEnabled := true;
      request := None;
      response := None;
    }

    /** `new CRM_Mailchimp_Api3(['api_key' => $key])`: the key must be
     *  non-empty and end in a datacentre; nothing is sent. */
    static method Create(key: string, codec: Codec, ids: RequestCounter, network: Network)
      returns (r: Result<Api3, Failure>)
      ensures r.Failure? <==> ServerFromKey(key).Failure?
      ensures r.Failure? ==> r.error == ServerFromKey(key).error
      ensures r.Success? ==> fresh(r.value) && r.value.apiKey == key && r.value.server == ServerFromKey(key).value
      ensures r.Success? ==> r.value.ids == ids && r.value.network == network && r.value.codec == codec
      ensures r.Success? ==> r.value.networkEnabled && r.value.request.None? && r.value.response.None?
    {
      var server := ServerFromKey(key);
      if server.Failure? {
        return Failure(server.error);
      }
      var client := new Api3.Init(key, server.value, codec, ids, network);
      r := Success(client);
    }

    method SetNetworkEnabled(enable: bool)
      modifies this`networkEnabled
      ensures networkEnabled == enable
    {
      networkEnabled := enable;
    }

    /** The public `curlResultToResponse($info, $result)`. */
    method CurlResultToResponse(c: CurlResult) returns (r: Result<Response, Failure>)
      modifies this`response
      ensures (response, r) == CurlStep(request, old(response), c, codec)
    {
      var step := CurlStep(request, response, c, codec);
      response := step.0;
      r := step.1;
    }

    method Request(verb: string, url: string, data: Option<Json>) returns (r: Result<Response, Failure>)
      modifies this, ids, network
      ensures (State(), r) == RequestStep(old(State()), server, apiKey, codec, verb, url, data)
    {
      if !RootedPath(url) {
        return Failure(InvalidArgument("Invalid URL - must begin with root /"));
      }
      var q := BuildRequest(ids.next, server, apiKey, verb, url, data, codec);
      ids.next := ids.next + 1;
      request := Some(q);
      response := Some(NullResponse);
      if networkEnabled {
        var c := network.Transfer(q);
        r := CurlResultToResponse(c);
      } else {
        r := Success(NullResponse);
      }
    }

    method Get(url: string, data: Option<Json>) returns (r: Result<Response, Failure>)
      modifies this, ids, network
      ensures (State(), r) == RequestStep(old(State()), server, apiKey, codec, "GET", url, data)
    {
      r := Request("GET", url, data);
    }

    method Post(url: string, data: Json) returns (r: Result<Response, Failure>)
      modifies this, ids, network
      ensures (State(), r) == RequestStep(old(State()), server, apiKey, codec, "POST", url, Some(data))
    {
      r := Request("POST", url, Some(data));
    }

    method Put(url: string, data: Json) returns (r: Result<Response, Failure>)
      modifies this, ids, network
      ensures (State(), r) == RequestStep(old(State()), server, apiKey, codec, "PUT", url, Some(data))
    {
      r := Request("PUT", url, Some(data));
    }

    method Patch(url: string, data: Json) returns (r: Result<Response, Failure>)
      modifies this, ids, network
      ensures (State(), r) == RequestStep(old(State()), server, apiKey, codec, "PATCH", url, Some(data))
    {
      r := Request("PATCH", url, Some(data));
    }

    /** DELETE sends no payload, whatever data it is given. */
    method Delete(url: string, data: Option<Json>) returns (r: Result<Response, Failure>)
      modifies this, ids, network
      ensures (State(), r) == RequestStep(old(State()), server, apiKey, codec, "DELETE", url, None)
    {
      r := Request("DELETE", url, None);
    }

    /** `makeBatchRequest($batch)`: the operations are checked and written
     *  before anything is sent, then posted to /batches in one request. */
    method MakeBatchRequest(batch: seq<RawOp>) returns (r: Result<Response, Failure>)
      modifies this, ids, network
      ensures forall i :: 0 <= i < |batch| && !RootedPath(batch[i].path) ==> r.Failure? && State() == old(State())
      ensures (forall i :: 0 <= i < |batch| ==> RootedPath(batch[i].path)) ==>
        (State(), r) == RequestStep(old(State()), server, apiKey, codec, "POST", "/batches",
                                    Some(OpsJson(seq(|batch|, i requires 0 <= i < |batch| => OpFor(batch[i], codec)))))
    {
      var ops := MakeBatchOps(batch, codec);
      match ops
      case Failure(e) => r := Failure(e);
      case Success(written) =>
        assert written == seq(|batch|, i requires 0 <= i < |batch| => OpFor(batch[i], codec));
        r := Post("/batches", OpsJson(written));
    }

    /** `batchAndWait($batch)`: submit the batch, then poll
     *  /batches/<id> until the status Mailchimp reports is 'finished'.
     *  With networking off no poll can ever see 'finished', and the outcome
     *  is `NeverFinishes`.  With networking on, each poll uses up one
     *  answer of the network's finite script; once the script is used up
     *  the poll fails with a network error and the outcome is `Failed`.
     *  A live batch that never reports 'finished' is therefore cut off
     *  here, where the PHP loop would poll it for ever. */
    method BatchAndWait(batch: seq<RawOp>) returns (r: BatchOutcome, ghost posted: Result<Response, Failure>)
      modifies this, ids, network
      ensures (exists i :: 0 <= i < |batch| && !RootedPath(batch[i].path)) ==> posted.Failure?
      ensures (forall i :: 0 <= i < |batch| ==> RootedPath(batch[i].path)) ==>
        posted == RequestStep(old(State()), server, apiKey, codec, "POST", "/batches",
                              Some(OpsJson(seq(|batch|, i requires 0 <= i < |batch| => OpFor(batch[i], codec))))).1
      ensures posted.Failure? ==> r == Failed(posted.error)
      ensures posted.Success? ==>
        forall k :: |old(network.sent)| < k < |network.sent| ==>
          network.sent[k].verb == "GET" && network.sent[k].url == server + PollPath(posted.value)
      ensures r.Finished? ==>
        posted.Success? && request.Some? && request.value.verb == "GET" &&
        request.value.url == server + PollPath(posted.value) && response == Some(r.response)
      ensures r.Finished? ==> LooseEqualsText(Prop(r.response.data, "status"), "finished")
      ensures r.NeverFinishes? ==> !networkEnabled
      ensures networkEnabled == old(networkEnabled)
      ensures |network.sent| >= |old(network.sent)|
      ensures (forall i :: 0 <= i < |batch| ==> RootedPath(batch[i].path)) && old(networkEnabled) ==>
        |network.sent| > |old(network.sent)| &&
        network.sent[|old(network.sent)|].verb == "POST" &&
        network.sent[|old(network.sent)|].url == server + "/batches"
    {
      var answer := MakeBatchRequest(batch);
      posted := answer;
      if answer.Failure? {
        return Failed(answer.error), posted;
      }
      ghost var first := |old(network.sent)|;
      assert old(networkEnabled) ==> |network.sent| == first + 1 && network.sent[first].verb == "POST" && network.sent[first].url == server + "/batches";
      var path := PollPath(answer.value);
      while true
        invariant networkEnabled == old(networkEnabled)
        invariant |network.sent| >= first + (if networkEnabled then 1 else 0)
        invariant networkEnabled ==> network.sent[first].verb == "POST" && network.sent[first].url == server + "/batches"
        invariant !networkEnabled ==> |network.sent| == first
        invariant forall k :: first < k < |network.sent| ==> network.sent[k].verb == "GET" && network.sent[k].url == server + path
        decreases |network.script|
      {
        ghost var before := network.sent;
        ghost var s0 := State();
        var polled := Get(path, None);
        RequestNumbering(s0, server, apiKey, codec, "GET", path, None);
        if networkEnabled {
          EnabledNetworkSendsOnce(s0, server, apiKey, codec, "GET", path, None);
        } else {
          DisabledNetworkSendsNothing(s0, server, apiKey, codec, "GET", path, None);
        }
        assert request.value.verb == "GET" && request.value.url == server + path;
        if polled.Failure? {
          return Failed(polled.error), posted;
        }
        if LooseEqualsText(Prop(polled.value.data, "status"), "finished") {
          return Finished(polled.value), posted;
        }
        if !networkEnabled {
          return NeverFinishes, posted;
        }
      }
    }
  }
}

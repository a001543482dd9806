/** The Mailchimp API as the synchronisation code sees it
 *  (CRM/Mailchimp/ApiInterface.php, reached through the client singleton):
 *  an endpoint that records every call made on it, in order, and answers
 *  each call with whatever its reply function gives for that call and its
 *  position.  Nothing is assumed about the answers here, so a statement made
 *  with this endpoint holds whatever Mailchimp replies unless it says
 *  otherwise: the paging of the Mailchimp listing (`CollectMailchimp`,
 *  `EveryMemberCollected`) requires that the replies serve one fixed
 *  listing. */
module RemoteEndpoint {
  import opened Base
  import opened Http
  import opened MailchimpApi3

  /** One call on the API: a plain request with its payload, if any, or a
   *  batch submitted and waited for. */
  datatype Call =
    | Call(verb: string, path: string, data: Option<Json>)
    | Batch(ops: seq<RawOp>)

  class Endpoint {
    var calls: seq<Call>
    const reply: (nat, Call) -> Result<Response, Failure>

    constructor(reply: (nat, Call) -> Result<Response, Failure>)
      ensures calls == [] && this.reply == reply
    {
      calls := [];
      this.reply := reply;
    }

    /** The answer the next call would get. */
    function Next(c: Call): Result<Response, Failure>
      reads this
    {
      reply(|calls|, c)
    }

    method Send(c: Call) returns (r: Result<Response, Failure>)
      modifies this`calls
      ensures calls == old(calls) + [c]
      ensures r == old(Next(c))
    {
      r := reply(|calls|, c);
      calls := calls + [c];
    }

    method Get(path: string, data: Option<Json>) returns (r: Result<Response, Failure>)
      modifies this`calls
      ensures calls == old(calls) + [Call("GET", path, data)]
      ensures r == old(Next(Call("GET", path, data)))
    {
      r := Send(Call("GET", path, data));
    }

    method Post(path: string, data: Json) returns (r: Result<Response, Failure>)
      modifies this`calls
      ensures calls == old(calls) + [Call("POST", path, Some(data))]
      ensures r == old(Next(Call("POST", path, Some(data))))
    {
      r := Send(Call("POST", path, Some(data)));
    }

    method Put(path: string, data: Json) returns (r: Result<Response, Failure>)
      modifies this`calls
      ensures calls == old(calls) + [Call("PUT", path, Some(data))]
      ensures r == old(Next(Call("PUT", path, Some(data))))
    {
      r := Send(Call("PUT", path, Some(data)));
    }

    method Patch(path: string, data: Json) returns (r: Result<Response, Failure>)
      modifies this`calls
      ensures calls == old(calls) + [Call("PATCH", path, Some(data))]
      ensures r == old(Next(Call("PATCH", path, Some(data))))
    {
      r := Send(Call("PATCH", path, Some(data)));
    }

    method Delete(path: string) returns (r: Result<Response, Failure>)
      modifies this`calls
      ensures calls == old(calls) + [Call("DELETE", path, None)]
      ensures r == old(Next(Call("DELETE", path, None)))
    {
      r := Send(Call("DELETE", path, None));
    }

    method BatchAndWait(ops: seq<RawOp>) returns (r: Result<Response, Failure>)
      modifies this`calls
      ensures calls == old(calls) + [Batch(ops)]
      ensures r == old(Next(Batch(ops)))
    {
      r := Send(Batch(ops));
    }
  }
}

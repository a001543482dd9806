/** The helpers of CRM/Mailchimp/Utils.php that decide something: the
 *  contact parameters built from a webhook's merge fields, the check and
 *  repair of a list's webhook, the check of every mapped group's list, and
 *  the caches of list names and interest groupings with the lookups on
 *  them.  The Mailchimp API is the recording endpoint of `RemoteEndpoint`;
 *  the webhook URL, which depends on a stored setting, is a parameter. */
module MailchimpUtils {
  import opened Base
  import opened Strings
  import opened PhpArray
  import opened Http
  import opened RemoteEndpoint
  import opened MailchimpGroups

  // ---------------------------------------------------------------------
  // updateParamsExactMatch

  /** The contact parameters `updateParamsExactMatch($contactIds, $params)`
   *  builds from the merge fields of a webhook: with exactly one matching
   *  contact they update it by id and leave out a name Mailchimp sent
   *  empty; otherwise they describe a new individual with every field.  The
   *  entries are in the order the PHP array ends up with. */
  function UpdateParamsExactMatch(contactIds: seq<Json>, params: Json): (r: seq<(string, Json)>)
    ensures UniqueKeys(r)
    ensures ("version", JNum(3)) in r && ("email", Prop(params, "EMAIL")) in r
    ensures forall p :: p in r && p.0 == "first_name" ==> p.1 == Prop(params, "FNAME")
    ensures forall p :: p in r && p.0 == "last_name" ==> p.1 == Prop(params, "LNAME")
  {
    var first := Prop(params, "FNAME");
    var last := Prop(params, "LNAME");
    var email := Prop(params, "EMAIL");
    if |contactIds| != 1 then
      [("version", JNum(3)), ("contact_type", JStr("Individual")),
       ("first_name", first), ("last_name", last), ("email", email)]
    else
      [("version", JNum(3))]
      + (if Truthy(first) then [("first_name", first)] else [])
      + (if Truthy(last) then [("last_name", last)] else [])
      + [("email", email), ("id", contactIds[0])]
  }

  /** With exactly one matching contact, the parameters update that contact
   *  by id, and name only the names Mailchimp sent non-empty. */
  lemma SingleMatchUpdatesById(contactIds: seq<Json>, params: Json)
    requires |contactIds| == 1
    ensures var r := UpdateParamsExactMatch(contactIds, params);
      ("id", contactIds[0]) in r &&
      (forall p :: p in r ==> p.0 != "contact_type") &&
      (("first_name", Prop(params, "FNAME")) in r <==> Truthy(Prop(params, "FNAME"))) &&
      (("last_name", Prop(params, "LNAME")) in r <==> Truthy(Prop(params, "LNAME")))
  {
  }

  /** With no or several matching contacts, the parameters describe a new
   *  individual with both names, whatever they are. */
  lemma OtherwiseNewIndividual(contactIds: seq<Json>, params: Json)
    requires |contactIds| != 1
    ensures var r := UpdateParamsExactMatch(contactIds, params);
      (forall p :: p in r ==> p.0 != "id") &&
      ("contact_type", JStr("Individual")) in r &&
      ("first_name", Prop(params, "FNAME")) in r && ("last_name", Prop(params, "LNAME")) in r
  {
  }

  /** No clobbering: updating the single matching contact, which sets each
   *  field the parameters name, never replaces a first or last name it has
   *  with an empty one Mailchimp sent. */
  lemma NoClobber(contactIds: seq<Json>, params: Json, contact: seq<(string, Json)>, field: string, v: Json)
    requires |contactIds| == 1 && UniqueKeys(contact) && (field, v) in contact
    requires field == "first_name" || field == "last_name"
    requires field == "first_name" ==> !Truthy(Prop(params, "FNAME"))
    requires field == "last_name" ==> !Truthy(Prop(params, "LNAME"))
    ensures (field, v) in AssignAll(contact, UpdateParamsExactMatch(contactIds, params))
  {
    SingleMatchUpdatesById(contactIds, params);
    AssignAllKeeps(contact, UpdateParamsExactMatch(contactIds, params), field, v);
  }

  // ---------------------------------------------------------------------
  // configureList

  /** The webhook settings the extension needs, in the order they are
   *  checked. */
  const ExpectedSources: seq<(string, bool)> := [("user", true), ("admin", true), ("api", false)]
  const ExpectedEvents: seq<(string, bool)> :=
    [("subscribe", true), ("unsubscribe", true), ("profile", true),
     ("cleaned", true), ("upemail", true), ("campaign", false)]

  function FlagsJson(flags: seq<(string, bool)>): Json {
    JMap(seq(|flags|, i requires 0 <= i < |flags| => (flags[i].0, JBool(flags[i].1))))
  }

  /** The webhook `configureList` posts. */
  function ExpectedWebhook(url: string): Json {
    JMap([("url", JStr(url)), ("events", FlagsJson(ExpectedEvents)), ("sources", FlagsJson(ExpectedSources))])
  }

  function FlagText(b: bool): string {
    if b then "1" else "0"
  }

  /** The messages for the flags of one kind ("source" or "event") whose
   *  value, compared loosely with the expected boolean, differs. */
  function FlagDiff(verb: string, kind: string, actual: Json, flags: seq<(string, bool)>): (r: seq<string>)
    ensures |r| <= |flags|
    ensures r == [] <==> forall i :: 0 <= i < |flags| ==> Truthy(Prop(actual, flags[i].0)) == flags[i].1
    decreases |flags|
  {
    if flags == [] then []
    else
      var (name, expected) := flags[0];
      var v := Prop(actual, name);
      var tail := FlagDiff(verb, kind, actual, flags[1..]);
      assert forall i :: 0 < i < |flags| ==> flags[1..][i - 1] == flags[i];
      (if Truthy(v) != expected
       then [verb + "webhook " + kind + " " + name + " from " + IntToString(IntCast(v)) + " to " + FlagText(expected)]
       else []) + tail
  }

  /** The messages for one webhook compared with the expected one: the URL
   *  first, then the sources, then the events, each in the order above. */
  function WebhookDiff(verb: string, hook: Json, url: string): seq<string> {
    (if !LooseEqualsText(Prop(hook, "url"), url)
     then [verb + "webhook URL from " + Text(Prop(hook, "url")) + " to " + url]
     else [])
    + FlagDiff(verb, "source", Prop(hook, "sources"), ExpectedSources)
    + FlagDiff(verb, "event", Prop(hook, "events"), ExpectedEvents)
  }

  /** A webhook that is set up as the extension needs it. */
  predicate WebhookMatches(hook: Json, url: string) {
    LooseEqualsText(Prop(hook, "url"), url) &&
    (forall i :: 0 <= i < |ExpectedSources| ==> Truthy(Prop(Prop(hook, "sources"), ExpectedSources[i].0)) == ExpectedSources[i].1) &&
    (forall i :: 0 <= i < |ExpectedEvents| ==> Truthy(Prop(Prop(hook, "events"), ExpectedEvents[i].0)) == ExpectedEvents[i].1)
  }

  /** A webhook produces no message exactly when it is set up as needed, and
   *  otherwise at most one message per setting. */
  lemma WebhookDiffEmptyIffMatches(verb: string, hook: Json, url: string)
    ensures WebhookDiff(verb, hook, url) == [] <==> WebhookMatches(hook, url)
    ensures |WebhookDiff(verb, hook, url)| <= 1 + |ExpectedSources| + |ExpectedEvents|
  {
  }

  const DryVerb := "Need to change "
  const WetVerb := "Changed "
  const MultipleWebhooksSuffix := " has more than one webhook configured. This is unusual, and so CiviCRM has not made any changes. Please ensure the webhook is set up correctly."
  const ListDeletedMessage := "The Mailchimp list that this once worked with has been deleted"
  const UpdateProblemPrefix := "Problems updating or fetching from Mailchimp. Please manually check the configuration. "
  const TemporaryProblemPrefix := "Problems (possibly temporary) talking to Mailchimp. "
  const NoSecurityKeyMessage := "You have not set a security key for your Mailchimp integration. Please do this on the settings page at civicrm/mailchimp/settings"
  const NotAListMessage := "Cannot use object of type stdClass as array"

  function CreateMessage(dryRun: bool): string {
    (if dryRun then "Need to create" else "Created") + " a webhook at Mailchimp"
  }

  /** What the catch blocks of `configureList` make of an exception thrown
   *  after the given messages were collected: API exceptions become one
   *  more message, anything else is thrown on. */
  function Caught(messages: seq<string>, f: Failure): (r: Result<Option<seq<string>>, Failure>)
    ensures r.Failure? <==> !f.ApiError?
    ensures r.Failure? ==> r.error == f
    ensures r.Success? ==> r.value.Some? && |r.value.value| == |messages| + 1 && r.value.value[..|messages|] == messages
  {
    match f
    case ApiError(e) =>
      var m :=
        if e.kind == RequestError then
          if e.request.verb == "GET" && e.response.httpCode == Some(404) then ListDeletedMessage
          else UpdateProblemPrefix + e.message
        else TemporaryProblemPrefix + e.message;
      assert (messages + [m])[..|messages|] == messages;
      Success(Some(messages + [m]))
    case _ => Failure(f)
  }

  /** The message an API exception becomes: a GET answered with 404 means
   *  the list is gone, any other request error is a problem to check by
   *  hand, and a network error may be temporary. */
  lemma ErrorMessages(messages: seq<string>, e: ApiException)
    ensures e.kind == RequestError && e.request.verb == "GET" && e.response.httpCode == Some(404) ==>
      Caught(messages, ApiError(e)) == Success(Some(messages + [ListDeletedMessage]))
    ensures e.kind == RequestError && !(e.request.verb == "GET" && e.response.httpCode == Some(404)) ==>
      Caught(messages, ApiError(e)) == Success(Some(messages + [UpdateProblemPrefix + e.message]))
    ensures e.kind == NetworkError ==>
      Caught(messages, ApiError(e)) == Success(Some(messages + [TemporaryProblemPrefix + e.message]))
  {
  }

  function HooksPath(listId: string): string {
    "/lists/" + listId + "/webhooks"
  }

  function FetchHooks(listId: string): Call {
    Call("GET", HooksPath(listId), None)
  }

  function PostHook(listId: string, url: string): Call {
    Call("POST", HooksPath(listId), Some(ExpectedWebhook(url)))
  }

  function DeleteHook(listId: string, hook: Json): Call {
    Call("DELETE", HooksPath(listId) + "/" + Text(Prop(hook, "id")), None)
  }

  // The specifications below take the calls made on the endpoint so far,
  // `trace`, and give the calls made by the end together with the result;
  // the next call gets the answer `reply(|trace|, call)`.

  /** The end of `configureList` once its messages are known: unless this
   *  is a dry run, the expected webhook is created. */
  function CreateSpec(listId: string, dryRun: bool, url: string, messages: seq<string>,
                      reply: (nat, Call) -> Result<Response, Failure>, trace: seq<Call>)
    : (r: (seq<Call>, Result<Option<seq<string>>, Failure>))
    ensures dryRun ==> r == (trace, Success(Some(messages)))
    ensures !dryRun ==> r.0 == trace + [PostHook(listId, url)]
    ensures r.1.Failure? ==> !r.1.error.ApiError?
    ensures r.1.Success? ==> r.1.value.Some? && |messages| <= |r.1.value.value| && r.1.value.value[..|messages|] == messages
  {
    if dryRun then (trace, Success(Some(messages)))
    else
      var post := PostHook(listId, url);
      match reply(|trace|, post)
      case Failure(f) => (trace + [post], Caught(messages, f))
      case Success(_) => (trace + [post], Success(Some(messages)))
  }

  /** `configureList` after the webhooks were fetched: none is created, more
   *  than one is left alone, and a single wrong one is reported and, unless
   *  this is a dry run, deleted and created again. */
  function HooksSpec(listId: string, dryRun: bool, url: string, hooks: Json,
                     reply: (nat, Call) -> Result<Response, Failure>, trace: seq<Call>)
    : (r: (seq<Call>, Result<Option<seq<string>>, Failure>))
    ensures dryRun ==> r.0 == trace
    ensures |trace| <= |r.0| && r.0[..|trace|] == trace
    ensures r.1.Failure? ==> !r.1.error.ApiError?
  {
    if !Truthy(hooks) then CreateSpec(listId, dryRun, url, [CreateMessage(dryRun)], reply, trace)
    else if !hooks.JList? then (trace, Failure(RuntimeError(NotAListMessage)))
    else if |hooks.items| > 1 then (trace, Success(Some(["Mailchimp list " + listId + MultipleWebhooksSuffix])))
    else
      var hook := hooks.items[0];
      var messages := WebhookDiff(if dryRun then DryVerb else WetVerb, hook, url);
      if messages == [] then (trace, Success(None))
      else if dryRun then (trace, Success(Some(messages)))
      else
        var delete := DeleteHook(listId, hook);
        match reply(|trace|, delete)
        case Failure(f) => (trace + [delete], Caught(messages, f))
        case Success(_) =>
          var r := CreateSpec(listId, false, url, messages, reply, trace + [delete]);
          assert r.0[..|trace|] == trace by {
            assert r.0 == trace + [delete, PostHook(listId, url)];
          }
          r
  }

  /** `configureList($listId, $dryRun)`: the calls it makes and what it
   *  returns (`None` for the null it returns when the one webhook is
   *  already right).  Every API exception is caught, it always starts by
   *  fetching the list's webhooks, and a dry run does nothing else. */
  function ConfigureSpec(listId: string, dryRun: bool, webhookUrl: Option<string>,
                         reply: (nat, Call) -> Result<Response, Failure>, trace: seq<Call>)
    : (r: (seq<Call>, Result<Option<seq<string>>, Failure>))
    ensures webhookUrl.None? ==> r == (trace, Failure(InvalidArgument(NoSecurityKeyMessage)))
    ensures webhookUrl.Some? ==> |trace| < |r.0| && r.0[..|trace| + 1] == trace + [FetchHooks(listId)]
    ensures webhookUrl.Some? && dryRun ==> r.0 == trace + [FetchHooks(listId)]
    ensures r.1.Failure? ==> !r.1.error.ApiError?
  {
    if webhookUrl.None? then (trace, Failure(InvalidArgument(NoSecurityKeyMessage)))
    else
      var get := FetchHooks(listId);
      match reply(|trace|, get)
      case Failure(f) => (trace + [get], Caught([], f))
      case Success(resp) => HooksSpec(listId, dryRun, webhookUrl.value, Prop(resp.data, "webhooks"), reply, trace + [get])
  }

  /** With no webhook there is one message, and the expected webhook is
   *  created unless this is a dry run. */
  lemma NoWebhookIsCreated(listId: string, dryRun: bool, url: string,
                           reply: (nat, Call) -> Result<Response, Failure>, trace: seq<Call>, resp: Response)
    requires reply(|trace|, FetchHooks(listId)) == Success(resp)
    requires !Truthy(Prop(resp.data, "webhooks"))
    requires reply(|trace| + 1, PostHook(listId, url)).Success?
    ensures ConfigureSpec(listId, dryRun, Some(url), reply, trace) ==
      (if dryRun then trace + [FetchHooks(listId)] else trace + [FetchHooks(listId), PostHook(listId, url)],
       Success(Some([CreateMessage(dryRun)])))
  {
    assert trace + [FetchHooks(listId)] + [PostHook(listId, url)] == trace + [FetchHooks(listId), PostHook(listId, url)];
  }

  /** With more than one webhook nothing is changed and one warning is
   *  returned. */
  lemma SeveralWebhooksLeftAlone(listId: string, dryRun: bool, url: string,
                                 reply: (nat, Call) -> Result<Response, Failure>, trace: seq<Call>, resp: Response)
    requires reply(|trace|, FetchHooks(listId)) == Success(resp)
    requires Prop(resp.data, "webhooks").JList? && |Prop(resp.data, "webhooks").items| > 1
    ensures ConfigureSpec(listId, dryRun, Some(url), reply, trace) ==
      (trace + [FetchHooks(listId)], Success(Some(["Mailchimp list " + listId + MultipleWebhooksSuffix])))
  {
  }

  /** With exactly one webhook that is set up right: no message, no change,
   *  and the null result. */
  lemma RightWebhookLeftAlone(listId: string, dryRun: bool, url: string,
                              reply: (nat, Call) -> Result<Response, Failure>, trace: seq<Call>, resp: Response)
    requires reply(|trace|, FetchHooks(listId)) == Success(resp)
    requires Prop(resp.data, "webhooks").JList? && |Prop(resp.data, "webhooks").items| == 1
    requires WebhookMatches(Prop(resp.data, "webhooks").items[0], url)
    ensures ConfigureSpec(listId, dryRun, Some(url), reply, trace) == (trace + [FetchHooks(listId)], Success(None))
  {
    WebhookDiffEmptyIffMatches(if dryRun then DryVerb else WetVerb, Prop(resp.data, "webhooks").items[0], url);
  }

  /** In a dry run, a single webhook that is wrong gets one message per
   *  wrong setting and no change. */
  lemma WrongWebhookReported(listId: string, url: string,
                             reply: (nat, Call) -> Result<Response, Failure>, trace: seq<Call>, resp: Response)
    requires reply(|trace|, FetchHooks(listId)) == Success(resp)
    requires Prop(resp.data, "webhooks").JList? && |Prop(resp.data, "webhooks").items| == 1
    requires !WebhookMatches(Prop(resp.data, "webhooks").items[0], url)
    ensures ConfigureSpec(listId, true, Some(url), reply, trace) ==
      (trace + [FetchHooks(listId)], Success(Some(WebhookDiff(DryVerb, Prop(resp.data, "webhooks").items[0], url))))
  {
    WebhookDiffEmptyIffMatches(DryVerb, Prop(resp.data, "webhooks").items[0], url);
  }

  /** Otherwise a single webhook that is wrong gets one message per wrong
   *  setting, and is deleted before the expected one is created. */
  lemma WrongWebhookReplaced(listId: string, url: string,
                             reply: (nat, Call) -> Result<Response, Failure>, trace: seq<Call>, resp: Response)
    requires reply(|trace|, FetchHooks(listId)) == Success(resp)
    requires Prop(resp.data, "webhooks").JList? && |Prop(resp.data, "webhooks").items| == 1
    requires !WebhookMatches(Prop(resp.data, "webhooks").items[0], url)
    requires reply(|trace| + 1, DeleteHook(listId, Prop(resp.data, "webhooks").items[0])).Success?
    requires reply(|trace| + 2, PostHook(listId, url)).Success?
    ensures var hook := Prop(resp.data, "webhooks").items[0];
      ConfigureSpec(listId, false, Some(url), reply, trace) ==
      (trace + [FetchHooks(listId), DeleteHook(listId, hook), PostHook(listId, url)],
       Success(Some(WebhookDiff(WetVerb, hook, url))))
  {
    var hooks := Prop(resp.data, "webhooks");
    var hook := hooks.items[0];
    WebhookDiffEmptyIffMatches(WetVerb, hook, url);
    var t1 := trace + [FetchHooks(listId)];
    var messages := WebhookDiff(WetVerb, hook, url);
    assert ConfigureSpec(listId, false, Some(url), reply, trace) == HooksSpec(listId, false, url, hooks, reply, t1);
    assert HooksSpec(listId, false, url, hooks, reply, t1) ==
      CreateSpec(listId, false, url, messages, reply, t1 + [DeleteHook(listId, hook)]);
    assert t1 + [DeleteHook(listId, hook)] + [PostHook(listId, url)] ==
      trace + [FetchHooks(listId), DeleteHook(listId, hook), PostHook(listId, url)];
  }

  /** The end of `configureList`: creating the expected webhook unless this
   *  is a dry run. */
  method CreateWebhook(listId: string, dryRun: bool, url: string, messages: seq<string>, api: Endpoint)
    returns (r: Result<Option<seq<string>>, Failure>)
    modifies api`calls
    ensures (api.calls, r) == CreateSpec(listId, dryRun, url, messages, api.reply, old(api.calls))
  {
    if !dryRun {
      var posted := api.Post(HooksPath(listId), ExpectedWebhook(url));
      if posted.Failure? {
        return Caught(messages, posted.error);
      }
    }
    r := Success(Some(messages));
  }

  /** The part of `configureList` after the webhooks were fetched. */
  method ReviewWebhooks(listId: string, dryRun: bool, url: string, hooks: Json, api: Endpoint)
    returns (r: Result<Option<seq<string>>, Failure>)
    modifies api`calls
    ensures (api.calls, r) == HooksSpec(listId, dryRun, url, hooks, api.reply, old(api.calls))
  {
    if !Truthy(hooks) {
      r := CreateWebhook(listId, dryRun, url, [CreateMessage(dryRun)], api);
      return;
    }
    if !hooks.JList? {
      return Failure(RuntimeError(NotAListMessage));
    }
    if |hooks.items| > 1 {
      return Success(Some(["Mailchimp list " + listId + MultipleWebhooksSuffix]));
    }
    var hook := hooks.items[0];
    var messages := WebhookDiff(if dryRun then DryVerb else WetVerb, hook, url);
    if messages == [] {
      return Success(None);
    }
    if dryRun {
      return Success(Some(messages));
    }
    var deleted := api.Delete(HooksPath(listId) + "/" + Text(Prop(hook, "id")));
    if deleted.Failure? {
      return Caught(messages, deleted.error);
    }
    r := CreateWebhook(listId, false, url, messages, api);
  }

  /** `configureList($listId, $dryRun)`. */
  method ConfigureList(listId: string, dryRun: bool, webhookUrl: Option<string>, api: Endpoint)
    returns (r: Result<Option<seq<string>>, Failure>)
    modifies api`calls
    ensures (api.calls, r) == ConfigureSpec(listId, dryRun, webhookUrl, api.reply, old(api.calls))
  {
    if webhookUrl.None? {
      return Failure(InvalidArgument(NoSecurityKeyMessage));
    }
    var got := api.Get(HooksPath(listId), None);
    if got.Failure? {
      return Caught([], got.error);
    }
    r := ReviewWebhooks(listId, dryRun, webhookUrl.value, Prop(got.value.data, "webhooks"), api);
  }

  // ---------------------------------------------------------------------
  // checkGroupsConfig

  /** The prefix of every warning about a group: a link to the group's
   *  settings and the list it is mapped to. */
  function GroupPrefix(groupId: int, d: GroupDetails, codec: Codec): string {
    "CiviCRM group \"" +
    "<a href='/civicrm/group?reset=1&action=update&id=" + IntToString(groupId) + "' >" + codec.htmlEscape(d.title) + "</a>" +
    "\" (Mailchimp list " + KeyText(d.listId) + "): "
  }

  /** Each message with the prefix in front. */
  function Prefixed(prefix: string, messages: seq<string>): (r: seq<string>)
    ensures |r| == |messages|
    ensures forall i :: 0 <= i < |r| ==> StartsWith(r[i], prefix) && r[i][|prefix|..] == messages[i]
  {
    seq(|messages|, i requires 0 <= i < |messages| => prefix + messages[i])
  }

  /** Warnings collected so far in front of what the rest of the check
   *  gives, or what the rest of the check throws. */
  function Join(warnings: seq<string>, rest: Result<seq<string>, Failure>): Result<seq<string>, Failure> {
    if rest.Failure? then rest else Success(warnings + rest.value)
  }

  /** `checkGroupsConfig($groups)` on the groups from the `k`-th on: the
   *  calls made and the warnings.  Each group's list is checked with a dry
   *  run; as that catches every API exception itself, the catch blocks
   *  around it are never reached, and anything else it throws ends the
   *  check.  The check only ever fetches: it changes nothing at Mailchimp. */
  function CheckSpec(groups: GroupTable, k: nat, webhookUrl: Option<string>, codec: Codec,
                     reply: (nat, Call) -> Result<Response, Failure>, trace: seq<Call>)
    : (r: (seq<Call>, Result<seq<string>, Failure>))
    requires k <= |groups|
    ensures |trace| <= |r.0| && r.0[..|trace|] == trace
    ensures forall i :: |trace| <= i < |r.0| ==> r.0[i].Call? && r.0[i].verb == "GET"
    ensures r.1.Failure? ==> !r.1.error.ApiError?
    decreases |groups| - k
  {
    if k == |groups| then (trace, Success([]))
    else
      var here := ConfigureSpec(KeyText(groups[k].1.listId), true, webhookUrl, reply, trace);
      assert forall i :: |trace| <= i < |here.0| ==> here.0[i].Call? && here.0[i].verb == "GET";
      if here.1.Failure? then (here.0, Failure(here.1.error))
      else
        var mine := Prefixed(GroupPrefix(groups[k].0, groups[k].1, codec), here.1.value.GetOr([]));
        var rest := CheckSpec(groups, k + 1, webhookUrl, codec, reply, here.0);
        assert rest.0[..|here.0|][..|trace|] == rest.0[..|trace|];
        assert forall i :: |trace| <= i < |here.0| ==> rest.0[i] == rest.0[..|here.0|][i];
        (rest.0, Join(mine, rest.1))
  }

  /** Every warning starts with the prefix of a group it is about. */
  lemma {:induction false} CheckWarningsArePrefixed(groups: GroupTable, k: nat, webhookUrl: Option<string>, codec: Codec,
                                                    reply: (nat, Call) -> Result<Response, Failure>, trace: seq<Call>, w: string)
    requires k <= |groups|
    requires CheckSpec(groups, k, webhookUrl, codec, reply, trace).1.Success?
    requires w in CheckSpec(groups, k, webhookUrl, codec, reply, trace).1.value
    ensures exists j :: k <= j < |groups| && StartsWith(w, GroupPrefix(groups[j].0, groups[j].1, codec))
    decreases |groups| - k
  {
    var here := ConfigureSpec(KeyText(groups[k].1.listId), true, webhookUrl, reply, trace);
    var mine := Prefixed(GroupPrefix(groups[k].0, groups[k].1, codec), here.1.value.GetOr([]));
    if w in mine {
      var i :| 0 <= i < |mine| && mine[i] == w;
      assert StartsWith(w, GroupPrefix(groups[k].0, groups[k].1, codec));
    } else {
      CheckWarningsArePrefixed(groups, k + 1, webhookUrl, codec, reply, here.0, w);
    }
  }

  /** `checkGroupsConfig($groups)`. */
  method CheckGroupsConfig(groups: GroupTable, webhookUrl: Option<string>, codec: Codec, api: Endpoint)
    returns (r: Result<seq<string>, Failure>)
    modifies api`calls
    ensures (api.calls, r) == CheckSpec(groups, 0, webhookUrl, codec, api.reply, old(api.calls))
  {
    var warnings: seq<string> := [];
    var k := 0;
    assert Join(warnings, CheckSpec(groups, 0, webhookUrl, codec, api.reply, api.calls).1) ==
      CheckSpec(groups, 0, webhookUrl, codec, api.reply, api.calls).1 by {
      var whole := CheckSpec(groups, 0, webhookUrl, codec, api.reply, api.calls);
      if whole.1.Success? {
        assert [] + whole.1.value == whole.1.value;
      }
    }
    while k < |groups|
      invariant 0 <= k <= |groups|
      invariant CheckSpec(groups, 0, webhookUrl, codec, api.reply, old(api.calls)) ==
        (CheckSpec(groups, k, webhookUrl, codec, api.reply, api.calls).0,
         Join(warnings, CheckSpec(groups, k, webhookUrl, codec, api.reply, api.calls).1))
      decreases |groups| - k
    {
      var checked := ConfigureList(KeyText(groups[k].1.listId), true, webhookUrl, api);
      if checked.Failure? {
        return Failure(checked.error);
      }
      var mine := Prefixed(GroupPrefix(groups[k].0, groups[k].1, codec), checked.value.GetOr([]));
      ghost var rest := CheckSpec(groups, k + 1, webhookUrl, codec, api.reply, api.calls);
      assert Join(warnings, Join(mine, rest.1)) == Join(warnings + mine, rest.1) by {
        if rest.1.Success? {
          assert warnings + (mine + rest.1.value) == (warnings + mine) + rest.1.value;
        }
      }
      warnings := warnings + mine;
      k := k + 1;
    }
    r := Success(warnings);
    assert warnings + [] == warnings;
  }

  // ---------------------------------------------------------------------
  // Caches of list names and interest groupings

  /** One interest as cached: its id and its name. */
  datatype Interest = Interest(id: Json, name: Json)
  /** One interest category as cached: its id, its title and its interests
   *  by id. */
  datatype Category = Category(id: Json, name: Json, interests: seq<(string, Interest)>)
  /** The interest categories of one list by id. */
  type Groupings = seq<(string, Category)>

  /** The name `getMCListName` returns from a filled cache: the cached value
   *  when it is set and not null, and '' otherwise. */
  function ListNameFrom(cache: seq<(string, Json)>, listId: string): (r: Json)
    ensures r == JStr("") || (listId, r) in cache
    ensures listId !in KeySet(cache) ==> r == JStr("")
  {
    match Lookup(cache, listId)
    case Some(v) => if v == JNull then JStr("") else v
    case None => JStr("")
  }

  /** The cache as `getMCListName` leaves it before the fetch: an empty
   *  array under the key '' (the code indexes an undefined variable). */
  const UnsetListEntry: seq<(string, Json)> := [("", JList([]))]

  /** Each fetched list's name under its id, in the order Mailchimp sent
   *  them. */
  function ListNameEntries(lists: seq<Json>): seq<(string, Json)> {
    seq(|lists|, i requires 0 <= i < |lists| => (Text(Prop(lists[i], "id")), Prop(lists[i], "name")))
  }

  /** The lists of a `GET /lists` reply. */
  function FetchedLists(got: Response): seq<Json> {
    Items(Prop(got.data, "lists"))
  }

  /** The list-name cache after the first `getMCListName`: the entry under ''
   *  and, when the fetch succeeded, every list's name under its id. */
  function ListNameCache(got: Result<Response, Failure>): seq<(string, Json)> {
    assert UnsetListEntry[0] in UnsetListEntry;
    if got.Failure? then UnsetListEntry
    else AssignAll(UnsetListEntry, ListNameEntries(FetchedLists(got.value)))
  }

  /** The name of a fetched list is the name Mailchimp sent for it (the last
   *  one, should an id come twice), and '' when that name is null. */
  lemma ListNameIsMailchimps(got: Response, listId: string, k: nat)
    requires k < |FetchedLists(got)| && Text(Prop(FetchedLists(got)[k], "id")) == listId
    requires forall j :: k < j < |FetchedLists(got)| ==> Text(Prop(FetchedLists(got)[j], "id")) != listId
    ensures ListNameFrom(ListNameCache(Success(got)), listId) ==
      var name := Prop(FetchedLists(got)[k], "name");
      if name == JNull then JStr("") else name
  {
    var es := ListNameEntries(FetchedLists(got));
    assert UnsetListEntry[0] in UnsetListEntry;
    AssignAllLastWins(UnsetListEntry, es, k);
    LookupFinds(ListNameCache(Success(got)), listId, es[k].1);
  }

  /** A list Mailchimp did not send, or any list after a failed fetch, has
   *  the name '' -- except the id '', which finds the empty array stored
   *  before the fetch. */
  lemma UnknownListName(got: Result<Response, Failure>, listId: string)
    requires got.Success? ==>
      forall j :: 0 <= j < |FetchedLists(got.value)| ==> Text(Prop(FetchedLists(got.value)[j], "id")) != listId
    ensures ListNameFrom(ListNameCache(got), listId) == if listId == "" then JList([]) else JStr("")
  {
    assert UnsetListEntry[0] in UnsetListEntry;
    if got.Success? {
      var es := ListNameEntries(FetchedLists(got.value));
      assert listId !in KeySet(es) by {
        forall p | p in es ensures p.0 != listId {
          var j :| 0 <= j < |es| && es[j] == p;
        }
      }
      if listId == "" {
        AssignAllKeeps(UnsetListEntry, es, "", JList([]));
        LookupFinds(ListNameCache(got), "", JList([]));
      }
    } else if listId == "" {
      LookupFinds(UnsetListEntry, "", JList([]));
    }
  }

  /** `getMCInterestName($list, $category, $interest)` given what
   *  `getMCInterestGroupings($list)` returned: null when the list, the
   *  category or the interest is unknown. */
  function InterestName(info: Option<Groupings>, categoryId: string, interestId: string): (r: Json)
    ensures info.None? ==> r == JNull
    ensures r != JNull ==>
      exists c, i :: (categoryId, c) in info.value && (interestId, i) in c.interests && r == i.name
  {
    if info.None? then JNull
    else match Lookup(info.value, categoryId)
      case None => JNull
      case Some(c) =>
        match Lookup(c.interests, interestId)
        case None => JNull
        case Some(i) => i.name
  }

  /** `getMCCategoryName($list, $category)` given the groupings. */
  function CategoryName(info: Option<Groupings>, categoryId: string): (r: Json)
    ensures info.None? ==> r == JNull
    ensures r != JNull ==> exists c :: (categoryId, c) in info.value && r == c.name
  {
    if info.None? then JNull
    else match Lookup(info.value, categoryId)
      case None => JNull
      case Some(c) => c.name
  }

  /** Categories, and each category's interests, are keyed by id once each. */
  predicate WellKeyed(g: Groupings) {
    UniqueKeys(g) && forall p :: p in g ==> UniqueKeys(p.1.interests)
  }

  /** A cached interest is found by its category and interest ids. */
  lemma InterestNameFinds(g: Groupings, categoryId: string, c: Category, interestId: string, i: Interest)
    requires WellKeyed(g) && (categoryId, c) in g && (interestId, i) in c.interests
    ensures InterestName(Some(g), categoryId, interestId) == i.name
    ensures CategoryName(Some(g), categoryId) == c.name
  {
    LookupFinds(g, categoryId, c);
    LookupFinds(c.interests, interestId, i);
  }

  /** The interests of one category, each under its id. */
  function InterestPairs(items: seq<Json>): (r: seq<(string, Interest)>)
    ensures |r| == |items|
    ensures forall i :: 0 <= i < |r| ==> r[i] == (Text(Prop(items[i], "id")), Interest(Prop(items[i], "id"), Prop(items[i], "name")))
  {
    seq(|items|, i requires 0 <= i < |items| => (Text(Prop(items[i], "id")), Interest(Prop(items[i], "id"), Prop(items[i], "name"))))
  }

  /** The interests of one category as the cache keeps them, by id; a later
   *  interest with the same id replaces an earlier one (see
   *  `PhpArray.AssignAllLastWins`). */
  function InterestsFrom(items: seq<Json>): (r: seq<(string, Interest)>)
    ensures UniqueKeys(r)
    ensures KeySet(r) == KeySet(InterestPairs(items))
  {
    AssignAll([], InterestPairs(items))
  }

  const CategoriesQuery := JMap([("fields", JStr("categories.id,categories.title")), ("count", JNum(10000))])
  const InterestsQuery := JMap([("fields", JStr("interests.id,interests.name")), ("count", JNum(10000))])
  const ListsQuery := JMap([("fields", JStr("lists.id,lists.name"))])

  function CategoriesCall(listId: string): Call {
    Call("GET", "/lists/" + listId + "/interest-categories", Some(CategoriesQuery))
  }

  function InterestsCall(listId: string, category: Json): Call {
    Call("GET", "/lists/" + listId + "/interest-categories/" + Text(Prop(category, "id")) + "/interests",
         Some(InterestsQuery))
  }

  /** The cache entry of one category, from the category and the reply to
   *  the request for its interests. */
  function CategoryEntry(category: Json, interests: Response): Category {
    Category(Prop(category, "id"), Prop(category, "title"), InterestsFrom(Items(Prop(interests.data, "interests"))))
  }

  /** Filling a list's cache entry `acc` from its categories, from the
   *  `k`-th on: the calls made by the end, the entry, and the exception
   *  that stopped the filling if one did.  Filled without exception, the
   *  entry holds exactly the categories, after one request for each. */
  function FillSpec(listId: string, cats: seq<Json>, k: nat, acc: Groupings,
                    reply: (nat, Call) -> Result<Response, Failure>, trace: seq<Call>)
    : (r: (seq<Call>, Groupings, Option<Failure>))
    requires k <= |cats| && UniqueKeys(acc)
    ensures UniqueKeys(r.1)
    decreases |cats| - k
  {
    if k == |cats| then (trace, acc, None)
    else
      var get := InterestsCall(listId, cats[k]);
      match reply(|trace|, get)
      case Failure(f) => (trace + [get], acc, Some(f))
      case Success(resp) =>
        FillSpec(listId, cats, k + 1, Assign(acc, Text(Prop(cats[k], "id")), CategoryEntry(cats[k], resp)),
                 reply, trace + [get])
  }

  /** The ids of the given items, as array keys. */
  function Ids(items: seq<Json>): (r: seq<string>)
    ensures |r| == |items|
    ensures forall i :: 0 <= i < |items| ==> r[i] == Text(Prop(items[i], "id"))
  {
    seq(|items|, i requires 0 <= i < |items| => Text(Prop(items[i], "id")))
  }

  /** Filled without exception, the entry holds exactly the categories it
   *  had and the ones filled in, after one request for each. */
  lemma {:induction false} FillKeys(listId: string, cats: seq<Json>, k: nat, acc: Groupings,
                                    reply: (nat, Call) -> Result<Response, Failure>, trace: seq<Call>, key: string)
    requires k <= |cats| && UniqueKeys(acc)
    requires FillSpec(listId, cats, k, acc, reply, trace).2.None?
    ensures var r := FillSpec(listId, cats, k, acc, reply, trace);
      |r.0| == |trace| + |cats| - k &&
      (key in KeySet(r.1) <==> key in KeySet(acc) || key in Ids(cats)[k..])
    decreases |cats| - k
  {
    if k < |cats| {
      var get := InterestsCall(listId, cats[k]);
      var answer := reply(|trace|, get);
      FillStep(listId, cats, k, acc, reply, trace, answer);
      assert answer.Success?;
      var id := Text(Prop(cats[k], "id"));
      var next := Assign(acc, id, CategoryEntry(cats[k], answer.value));
      ghost var r := FillSpec(listId, cats, k + 1, next, reply, trace + [get]);
      assert FillSpec(listId, cats, k, acc, reply, trace) == r;
      FillKeys(listId, cats, k + 1, next, reply, trace + [get], key);
      assert key in KeySet(next) <==> key in KeySet(acc) || key == id;
      assert Ids(cats)[k..] == [id] + Ids(cats)[k + 1..];
    }
  }

  /** Every category filled in keeps its interests once each. */
  lemma {:induction false} FillWellKeyed(listId: string, cats: seq<Json>, k: nat, acc: Groupings,
                                         reply: (nat, Call) -> Result<Response, Failure>, trace: seq<Call>)
    requires k <= |cats| && WellKeyed(acc)
    ensures WellKeyed(FillSpec(listId, cats, k, acc, reply, trace).1)
    decreases |cats| - k
  {
    if k < |cats| {
      var answer := reply(|trace|, InterestsCall(listId, cats[k]));
      if answer.Success? {
        var next := Assign(acc, Text(Prop(cats[k], "id")), CategoryEntry(cats[k], answer.value));
        assert WellKeyed(next);
        FillWellKeyed(listId, cats, k + 1, next, reply, trace + [InterestsCall(listId, cats[k])]);
      }
    }
  }

  /** One step of the filling: the `k`-th category's interests are
   *  fetched, and either stop the filling or go into the entry. */
  lemma FillStep(listId: string, cats: seq<Json>, k: nat, acc: Groupings,
                 reply: (nat, Call) -> Result<Response, Failure>, trace: seq<Call>, answer: Result<Response, Failure>)
    requires k < |cats| && UniqueKeys(acc)
    requires answer == reply(|trace|, InterestsCall(listId, cats[k]))
    ensures answer.Failure? ==>
      FillSpec(listId, cats, k, acc, reply, trace) == (trace + [InterestsCall(listId, cats[k])], acc, Some(answer.error))
    ensures answer.Success? ==>
      FillSpec(listId, cats, k, acc, reply, trace) ==
      FillSpec(listId, cats, k + 1, Assign(acc, Text(Prop(cats[k], "id")), CategoryEntry(cats[k], answer.value)),
               reply, trace + [InterestsCall(listId, cats[k])])
  {
  }

  /** `getMCInterestGroupings($listId)` with the cache `cache`: the calls
   *  made by the end, the new cache and the result (`None` for null). */
  function GroupingsSpec(listId: string, cache: map<string, Groupings>,
                         reply: (nat, Call) -> Result<Response, Failure>, trace: seq<Call>)
    : (r: (seq<Call>, map<string, Groupings>, Result<Option<Groupings>, Failure>))
  {
    if EmptyText(Some(listId)) then (trace, cache, Success(None))
    else if listId in cache then (trace, cache, Success(Some(cache[listId])))
    else
      var get := CategoriesCall(listId);
      match reply(|trace|, get)
      case Failure(f) =>
        var notFound := f.ApiError? && f.e.kind == RequestError && f.e.response.httpCode == Some(404);
        (trace + [get], cache[listId := []], if notFound then Success(None) else Failure(f))
      case Success(resp) =>
        var filled := FillSpec(listId, Items(Prop(resp.data, "categories")), 0, [], reply, trace + [get]);
        (filled.0, cache[listId := filled.1],
         if filled.2.Some? then Failure(filled.2.value) else Success(Some(filled.1)))
  }

  /** A first request for a list's groupings that fails leaves an empty
   *  entry in the cache; a 404 gives null and anything else propagates. */
  lemma GroupingsFailedStep(listId: string, cache: map<string, Groupings>,
                            reply: (nat, Call) -> Result<Response, Failure>, trace: seq<Call>, f: Failure)
    requires !EmptyText(Some(listId)) && listId !in cache
    requires reply(|trace|, CategoriesCall(listId)) == Failure(f)
    ensures GroupingsSpec(listId, cache, reply, trace) ==
      (trace + [CategoriesCall(listId)], cache[listId := []],
       if f.ApiError? && f.e.kind == RequestError && f.e.response.httpCode == Some(404) then Success(None) else Failure(f))
  {
  }

  /** A first request for a list's groupings that succeeds goes on with the
   *  filling of its categories. */
  lemma GroupingsFetchedStep(listId: string, cache: map<string, Groupings>,
                             reply: (nat, Call) -> Result<Response, Failure>, trace: seq<Call>, resp: Response)
    requires !EmptyText(Some(listId)) && listId !in cache
    requires reply(|trace|, CategoriesCall(listId)) == Success(resp)
    ensures var fill := FillSpec(listId, Items(Prop(resp.data, "categories")), 0, [], reply, trace + [CategoriesCall(listId)]);
      GroupingsSpec(listId, cache, reply, trace) ==
      (fill.0, cache[listId := fill.1], if fill.2.Some? then Failure(fill.2.value) else Success(Some(fill.1)))
  {
  }

  /** A list whose groupings are cached is answered from the cache, and an
   *  empty list id gets null; neither makes a request. */
  lemma GroupingsFromCache(listId: string, cache: map<string, Groupings>,
                           reply: (nat, Call) -> Result<Response, Failure>, trace: seq<Call>)
    requires EmptyText(Some(listId)) || listId in cache
    ensures GroupingsSpec(listId, cache, reply, trace).0 == trace
    ensures GroupingsSpec(listId, cache, reply, trace).1 == cache
    ensures EmptyText(Some(listId)) ==> GroupingsSpec(listId, cache, reply, trace).2 == Success(None)
    ensures !EmptyText(Some(listId)) ==> GroupingsSpec(listId, cache, reply, trace).2 == Success(Some(cache[listId]))
  {
  }

  /** A list Mailchimp does not know gets null the first time; the cache
   *  then holds an empty array for it, so asking again makes no request and
   *  gets that empty array. */
  lemma UnknownListCachedEmpty(listId: string, cache: map<string, Groupings>,
                               reply: (nat, Call) -> Result<Response, Failure>, trace: seq<Call>, e: ApiException)
    requires !EmptyText(Some(listId)) && listId !in cache
    requires reply(|trace|, CategoriesCall(listId)) == Failure(ApiError(e))
    requires e.kind == RequestError && e.response.httpCode == Some(404)
    ensures var first := GroupingsSpec(listId, cache, reply, trace);
      first.0 == trace + [CategoriesCall(listId)] && first.2 == Success(None) &&
      GroupingsSpec(listId, first.1, reply, first.0) == (first.0, first.1, Success(Some([])))
  {
  }

  /** Fetched groupings hold exactly the list's categories, after one
   *  request for the categories and one for each category's interests. */
  lemma FetchedGroupings(listId: string, cache: map<string, Groupings>,
                         reply: (nat, Call) -> Result<Response, Failure>, trace: seq<Call>, key: string)
    requires !EmptyText(Some(listId)) && listId !in cache
    requires GroupingsSpec(listId, cache, reply, trace).2.Success?
    requires GroupingsSpec(listId, cache, reply, trace).2.value.Some?
    ensures var resp := reply(|trace|, CategoriesCall(listId));
      var cats := Items(Prop(resp.value.data, "categories"));
      var r := GroupingsSpec(listId, cache, reply, trace);
      resp.Success? && |r.0| == |trace| + 1 + |cats| &&
      WellKeyed(r.2.value.value) && r.1 == cache[listId := r.2.value.value] &&
      (key in KeySet(r.2.value.value) <==> key in Ids(cats))
  {
    var resp := reply(|trace|, CategoriesCall(listId));
    var cats := Items(Prop(resp.value.data, "categories"));
    FillKeys(listId, cats, 0, [], reply, trace + [CategoriesCall(listId)], key);
    assert Ids(cats)[0..] == Ids(cats);
    FillWellKeyed(listId, Items(Prop(resp.value.data, "categories")), 0, [], reply, trace + [CategoriesCall(listId)]);
  }

  /** The loop of `getMCInterestGroupings` over a list's categories: the
   *  entry they fill and the exception that stopped the loop, if one did.
   *  The code stores each category in the cache as soon as its interests
   *  arrive; storing the entry once the loop ends or is stopped leaves the
   *  same cache behind. */
  method FetchCategories(listId: string, cats: seq<Json>, api: Endpoint)
    returns (entry: Groupings, stopped: Option<Failure>)
    modifies api`calls
    ensures (api.calls, entry, stopped) == FillSpec(listId, cats, 0, [], api.reply, old(api.calls))
  {
    stopped := None;
    entry := [];
    var k := 0;
    while k < |cats|
      invariant 0 <= k <= |cats| && UniqueKeys(entry) && stopped.None?
      invariant FillSpec(listId, cats, 0, [], api.reply, old(api.calls)) ==
        FillSpec(listId, cats, k, entry, api.reply, api.calls)
      decreases |cats| - k
    {
      ghost var before := api.calls;
      var fetched := api.Get("/lists/" + listId + "/interest-categories/" + Text(Prop(cats[k], "id")) + "/interests",
                             Some(InterestsQuery));
      FillStep(listId, cats, k, entry, api.reply, before, fetched);
      if fetched.Failure? {
        return entry, Some(fetched.error);
      }
      entry := Assign(entry, Text(Prop(cats[k], "id")), CategoryEntry(cats[k], fetched.value));
      k := k + 1;
    }
  }

  /** The static caches of CRM_Mailchimp_Utils. */
  class UtilsCache {
    var lists: Option<seq<(string, Json)>>
    var interestDetails: map<string, Groupings>

    predicate Valid()
      reads this
    {
      lists.Some? ==> UniqueKeys(lists.value) && "" in KeySet(lists.value)
    }

    constructor()
      ensures Valid() && lists.None? && interestDetails == map[]
    {
      lists := None;
      interestDetails := map[];
    }

    /** `getMCListName($listId)`: the first call fetches every list's name
     *  once; later calls use the cache.  Before fetching, the code stores an
     *  empty array under the key '' (it indexes an undefined variable), so
     *  the cache counts as filled even when the fetch throws. */
    method GetMCListName(listId: string, api: Endpoint) returns (r: Result<Json, Failure>)
      requires Valid()
      modifies this`lists, api`calls
      ensures Valid() && lists.Some?
      ensures old(lists).Some? ==> lists == old(lists) && api.calls == old(api.calls)
      ensures old(lists).None? ==> api.calls == old(api.calls) + [Call("GET", "/lists", Some(ListsQuery))]
      ensures old(lists).None? ==> lists == Some(ListNameCache(old(api.Next(Call("GET", "/lists", Some(ListsQuery))))))
      ensures r == if old(lists).None? && old(api.Next(Call("GET", "/lists", Some(ListsQuery)))).Failure?
        then Failure(old(api.Next(Call("GET", "/lists", Some(ListsQuery)))).error)
        else Success(ListNameFrom(lists.value, listId))
    {
      if lists.None? {
        var cache := UnsetListEntry;
        assert cache[0] in cache;
        lists := Some(cache);
        var got := api.Get("/lists", Some(ListsQuery));
        if got.Failure? {
          return Failure(got.error);
        }
        var items := FetchedLists(got.value);
        ghost var entries := ListNameEntries(items);
        var k := 0;
        while k < |items|
          invariant 0 <= k <= |items|
          invariant UniqueKeys(cache) && "" in KeySet(cache)
          invariant AssignAll(cache, entries[k..]) == ListNameCache(got)
        {
          assert entries[k..][0] == entries[k] && entries[k..][1..] == entries[k + 1..];
          cache := Assign(cache, Text(Prop(items[k], "id")), Prop(items[k], "name"));
          k := k + 1;
        }
        assert entries[k..] == [];
        lists := Some(cache);
      }
      r := Success(ListNameFrom(lists.value, listId));
    }

    /** `getMCInterestGroupings($listId)`.  The entry is stored in the cache
     *  before the requests, and each category as soon as its interests
     *  arrive, so an exception leaves the categories fetched so far. */
    method GetMCInterestGroupings(listId: string, api: Endpoint) returns (r: Result<Option<Groupings>, Failure>)
      modifies this`interestDetails, api`calls
      ensures (api.calls, interestDetails, r) == GroupingsSpec(listId, old(interestDetails), api.reply, old(api.calls))
    {
      if EmptyText(Some(listId)) || listId in interestDetails {
        GroupingsFromCache(listId, interestDetails, api.reply, api.calls);
        if EmptyText(Some(listId)) {
          return Success(None);
        }
        return Success(Some(interestDetails[listId]));
      }
      ghost var cache := interestDetails;
      ghost var trace := api.calls;
      interestDetails := interestDetails[listId := []];
      var got := api.Get("/lists/" + listId + "/interest-categories", Some(CategoriesQuery));
      if got.Failure? {
        var e := got.error;
        GroupingsFailedStep(listId, cache, api.reply, trace, e);
        if e.ApiError? && e.e.kind == RequestError && e.e.response.httpCode == Some(404) {
          return Success(None);
        }
        return Failure(e);
      }
      var cats := Items(Prop(got.value.data, "categories"));
      GroupingsFetchedStep(listId, cache, api.reply, trace, got.value);
      var filled, stopped := FetchCategories(listId, cats, api);
      interestDetails := interestDetails[listId := filled];
      assert interestDetails == cache[listId := filled];
      if stopped.Some? {
        return Failure(stopped.value);
      }
      r := Success(Some(filled));
    }
  }
}
